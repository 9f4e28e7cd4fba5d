/** Sending and notifying across crashes: the two durable queues, the records in memory and the promises that use
    them. A mutation of a queue waits for its turn in the lock of the queue and then takes effect at one instant,
    or fails: OutboxOrder and DeliveryOrder show that the lock of Outbox allows just that. */
module Delivery {
  import opened Wrappers
  import opened OutboxRecords

  // ---------- values ----------

  datatype Destination = Destination(partner: string, room: string)

  /** What a pending send keeps besides its id; records of old versions have no destination. */
  datatype Body = Body(thread: string, destination: Option<Destination>)

  datatype Note = Note(thread: string, eventId: string)

  /** A PendingMatrixSend object; its index in `records` is its identity. */
  datatype Record = Record(id: string, body: Body, submitted: bool)

  /** A native sendMessage that succeeded, after its task had bound the room to `partner`. */
  datatype Posted = Posted(record: nat, id: string, room: string, partner: string)

  datatype SubmitPhase = Binding | Sending(bound: string) | Marking

  /** A task of submittingSendTasks; `room` is what roomByThreadId said when it started. */
  datatype Submit = Submit(record: nat, room: string, phase: SubmitPhase)

  datatype AckPhase = Noting | Dropping | Dropped

  datatype Ack = Ack(note: Note, phase: AckPhase)

  /** The request for an id of a flush, and the removal of its record behind a good response. */
  datatype Visit = Between | Requesting(id: string) | Clearing(id: string)

  /** An activation of flushNotificationOutbox: the ids that it still has to visit, one after the other. */
  datatype Flush = Flush(rest: seq<string>, visit: Visit)

  datatype SendPhase = Storing | Stored | Ended

  /** An activation of sendContentEvent behind its checks. */
  datatype Sender = Sender(record: nat, phase: SendPhase)

  /** The calls that wait in the lock of the send queue: of a sender, of a task that marks, of an acknowledgement. */
  datatype SendCall = PutCall(sender: nat) | MarkCall(id: string) | DropCall(id: string)

  /** And those in the lock of the notification queue: of an acknowledgement, and of a flush. */
  datatype NoteCall = NotePut(id: string) | NoteDrop(flush: nat, id: string)

  /** What roomByThreadId and threadByRoomId hold for a record: the room, and its thread and partner. */
  datatype RoomView = RoomView(room: Option<string>, thread: Option<(string, string)>)

  /** `sends`, `notes`, `accepted`, `asked`, `posted` and `offered` outlive the process; `asked` counts the requests
      that reached the notify endpoint, `offered` are the ids whose native sendMessage was started, by this process or
      an earlier one. `records` from `born` on are the objects of the running process, `notifying` is
      pendingNotificationIds, `sendLock` and `noteLock` are the calls behind outboxLocks and notificationOutboxLocks,
      in their order. `enqueued`, `noted` and `calls` are the history of what was stored and asked for. */
  datatype Client = Client(
    sends: seq<Entry<Body>>, notes: seq<Entry<Note>>, accepted: set<string>, asked: multiset<string>, posted: seq<Posted>, offered: set<string>,
    running: bool, records: seq<Record>, born: nat, pending: map<string, nat>, senders: seq<Sender>,
    submits: map<string, Submit>, acks: map<string, Ack>, notifying: set<string>, flushes: seq<Flush>,
    sendLock: seq<SendCall>, noteLock: seq<NoteCall>,
    enqueued: set<string>, noted: set<string>, calls: set<(string, Body)>)

  datatype Step =
    | Boot
    | Crash
    | Send(id: string, body: Body)
    | StoreSend(sender: nat, ok: bool, submitted: bool)
    | AfterStore(sender: nat, view: RoomView)
    | FlushPending(id: string, view: RoomView)
    | Bind(id: string, ok: bool)
    | Transmit(id: string, ok: bool)
    | MarkSubmitted(id: string, ok: bool)
    | Echo(id: string, eventId: string)
    | StoreNote(id: string, ok: bool)
    | DropSend(id: string, ok: bool)
    | Forget(id: string)
    | LoadNotes
    | Deliver(flush: nat)
    | Notify(flush: nat, reached: bool, ok: bool)
    | DropNote(flush: nat, ok: bool)

  // ---------- helpers ----------

  predicate HasId<B>(items: seq<Entry<B>>, id: string) { exists i :: 0 <= i < |items| && items[i].id == id }

  function IdsOf<B>(items: seq<Entry<B>>): (ids: set<string>)
    ensures forall id :: id in ids <==> HasId(items, id)
  {
    set i | 0 <= i < |items| :: items[i].id
  }

  function IdList<B>(items: seq<Entry<B>>): (ids: seq<string>)
    ensures |ids| == |items| && forall i :: 0 <= i < |items| ==> ids[i] == items[i].id
  {
    seq(|items|, i requires 0 <= i < |items| => items[i].id)
  }

  predicate Fits<B>(items: seq<Entry<B>>) { |items| <= MAX_OUTBOX_ITEMS }

  /** The record as it is stored; `submitted` is its field when it was printed. */
  function EntryOf(r: Record, submitted: bool): Entry<Body> { Entry(r.id, r.body, submitted) }

  function Loaded(items: seq<Entry<Body>>): (r: seq<Record>)
    ensures |r| == |items| && forall i :: 0 <= i < |items| ==> r[i] == Record(items[i].id, items[i].body, items[i].submitted)
  {
    seq(|items|, i requires 0 <= i < |items| => Record(items[i].id, items[i].body, items[i].submitted))
  }

  /** new Map(queued.map((item) => [item.id, item])) */
  function Indexed(items: seq<Entry<Body>>, base: nat): map<string, nat> {
    if items == [] then map[]
    else Indexed(items[..|items| - 1], base)[items[|items| - 1].id := base + |items| - 1]
  }

  /** The record that a send of `id` reuses. */
  function Retained(s: Client, id: string): Option<nat> {
    if id in s.pending then Some(s.pending[id]) else None
  }

  /** The identity checks at the head of a submit task. */
  predicate Destined(b: Body, view: RoomView) {
    && b.destination.Some? && view.room.Some? && view.room.value == b.destination.value.room
    && view.thread == Some((b.thread, b.destination.value.partner))
  }

  /** submitPending up to its first await: joins the running task, returns, throws, or starts a task. */
  function Submitting(s: Client, record: nat, view: RoomView): Client
    requires record < |s.records|
  {
    var r := s.records[record];
    if r.id in s.submits || !s.running || r.submitted || !Destined(r.body, view) then s
    else s.(submits := s.submits[r.id := Submit(record, view.room.value, Binding)])
  }

  predicate KnownRecord(s: Client, i: nat) { i < |s.records| }

  // ---------- steps ----------

  predicate Enabled(s: Client, step: Step) {
    match step
    case Boot => !s.running && Fits(s.sends)
    case Crash => true
    case Send(id, body) =>
      && s.running && body.destination.Some?
      && (Retained(s, id).Some? ==> KnownRecord(s, Retained(s, id).value) && s.records[Retained(s, id).value].body == body)
    case StoreSend(i, ok, submitted) =>
      && s.sendLock != [] && s.sendLock[0] == PutCall(i)
      && i < |s.senders| && s.senders[i].phase.Storing? && KnownRecord(s, s.senders[i].record)
      && (submitted ==> s.records[s.senders[i].record].submitted)
      && (ok ==> Fits(Mutate(s.sends, Put(EntryOf(s.records[s.senders[i].record], submitted)))))
    case AfterStore(i, _) => i < |s.senders| && s.senders[i].phase.Stored? && KnownRecord(s, s.senders[i].record)
    case FlushPending(id, _) => s.running && id in s.pending && KnownRecord(s, s.pending[id])
    case Bind(id, _) => id in s.submits && s.submits[id].phase.Binding? && KnownRecord(s, s.submits[id].record)
    case Transmit(id, _) => id in s.submits && s.submits[id].phase.Sending? && KnownRecord(s, s.submits[id].record)
    case MarkSubmitted(id, ok) =>
      && s.sendLock != [] && s.sendLock[0] == MarkCall(id)
      && id in s.submits && s.submits[id].phase.Marking? && (ok ==> Fits(Mutate(s.sends, Mark(id))))
    case Echo(id, _) => s.running && id in s.pending && KnownRecord(s, s.pending[id]) && id in s.offered
    case StoreNote(id, ok) =>
      && s.noteLock != [] && s.noteLock[0] == NotePut(id)
      && id in s.acks && s.acks[id].phase.Noting? && (ok ==> Fits(Mutate(s.notes, Put(Entry(id, s.acks[id].note, false)))))
    case DropSend(id, ok) =>
      && s.sendLock != [] && s.sendLock[0] == DropCall(id)
      && id in s.acks && s.acks[id].phase.Dropping? && (ok ==> Fits(Mutate(s.sends, Drop(id))))
    case Forget(id) => id in s.acks && s.acks[id].phase.Dropped?
    case LoadNotes => s.running && Fits(s.notes)
    case Deliver(f) => s.running && f < |s.flushes| && s.flushes[f].visit.Between? && s.flushes[f].rest != []
    case Notify(f, reached, ok) => f < |s.flushes| && s.flushes[f].visit.Requesting? && (ok ==> reached)
    case DropNote(f, ok) =>
      && f < |s.flushes| && s.flushes[f].visit.Clearing?
      && s.noteLock != [] && s.noteLock[0] == NoteDrop(f, s.flushes[f].visit.id)
      && (ok ==> Fits(Mutate(s.notes, Drop(s.flushes[f].visit.id))))
  }

  predicate IsLifeStep(step: Step) { step.Boot? || step.Crash? }

  predicate IsSenderStep(step: Step) { step.Send? || step.StoreSend? || step.AfterStore? }

  predicate IsSubmitStep(step: Step) { step.FlushPending? || step.Bind? || step.Transmit? || step.MarkSubmitted? }

  predicate IsAckStep(step: Step) { step.Echo? || step.StoreNote? || step.DropSend? || step.Forget? }

  predicate IsNotifyStep(step: Step) { step.LoadNotes? || step.Deliver? || step.Notify? || step.DropNote? }

  /** Starting and dying */
  function LifeStep(s: Client, step: Step): Client
    requires IsLifeStep(step) && Enabled(s, step)
  {
    match step
    case Boot =>
      s.(running := true, born := |s.records|, records := s.records + Loaded(s.sends),
         pending := Indexed(s.sends, |s.records|))
    case Crash =>
      s.(running := false, born := |s.records|, pending := map[], senders := [], submits := map[], acks := map[],
         notifying := {}, flushes := [], sendLock := [], noteLock := [])
  }

  /** sendContentEvent */
  function SenderStep(s: Client, step: Step): Client
    requires IsSenderStep(step) && Enabled(s, step)
  {
    match step
    case Send(id, body) =>
      var retained := Retained(s, id);
      var record := if retained.Some? then retained.value else |s.records|;
      s.(records := if retained.Some? then s.records else s.records + [Record(id, body, false)],
         senders := s.senders + [Sender(record, Storing)], sendLock := s.sendLock + [PutCall(|s.senders|)],
         calls := s.calls + {(id, body)})
    case StoreSend(i, ok, submitted) =>
      var r := s.records[s.senders[i].record];
      if !ok then s.(senders := s.senders[i := s.senders[i].(phase := Ended)], sendLock := s.sendLock[1..])
      else s.(senders := s.senders[i := s.senders[i].(phase := Stored)], sendLock := s.sendLock[1..],
              sends := Mutate(s.sends, Put(EntryOf(r, submitted))), enqueued := s.enqueued + {r.id})
    case AfterStore(i, view) =>
      var record := s.senders[i].record;
      Submitting(s.(senders := s.senders[i := s.senders[i].(phase := Ended)],
                    pending := s.pending[s.records[record].id := record]), record, view)
  }

  /** submitPending */
  function SubmitStep(s: Client, step: Step): Client
    requires IsSubmitStep(step) && Enabled(s, step)
  {
    match step
    case FlushPending(id, view) => Submitting(s, s.pending[id], view)
    case Bind(id, ok) =>
      var t := s.submits[id];
      var destination := s.records[t.record].body.destination;
      if !ok || destination.None? then s.(submits := s.submits - {id})
      else s.(submits := s.submits[id := t.(phase := Sending(destination.value.partner))], offered := s.offered + {id})
    case Transmit(id, ok) =>
      var t := s.submits[id];
      if !ok then s.(submits := s.submits - {id})
      else s.(posted := s.posted + [Posted(t.record, id, t.room, t.phase.bound)],
              records := s.records[t.record := s.records[t.record].(submitted := true)],
              pending := s.pending[id := t.record], submits := s.submits[id := t.(phase := Marking)],
              sendLock := s.sendLock + [MarkCall(id)])
    case MarkSubmitted(id, ok) =>
      s.(submits := s.submits - {id}, sendLock := s.sendLock[1..], sends := if ok then Mutate(s.sends, Mark(id)) else s.sends)
  }

  /** acknowledgeRemoteSend */
  function AckStep(s: Client, step: Step): Client
    requires IsAckStep(step) && Enabled(s, step)
  {
    match step
    case Echo(id, eventId) =>
      if id in s.acks then s
      else s.(acks := s.acks[id := Ack(Note(s.records[s.pending[id]].body.thread, eventId), Noting)],
              noteLock := s.noteLock + [NotePut(id)])
    case StoreNote(id, ok) =>
      if !ok then s.(acks := s.acks - {id}, noteLock := s.noteLock[1..])
      else s.(notes := Mutate(s.notes, Put(Entry(id, s.acks[id].note, false))), noted := s.noted + {id},
              noteLock := s.noteLock[1..], sendLock := s.sendLock + [DropCall(id)],
              acks := s.acks[id := s.acks[id].(phase := Dropping)])
    case DropSend(id, ok) =>
      if !ok then s.(acks := s.acks - {id}, sendLock := s.sendLock[1..])
      else s.(sendLock := s.sendLock[1..], sends := Mutate(s.sends, Drop(id)), acks := s.acks[id := s.acks[id].(phase := Dropped)])
    case Forget(id) => s.(pending := s.pending - {id}, acks := s.acks - {id})
  }

  /** A request for `id` has reached the endpoint. */
  function Asked(s: Client, id: string): Client {
    s.(accepted := s.accepted + {id}, asked := s.asked + multiset{id})
  }

  /** The finally of deliverNotification: the flush goes on to its next id. */
  function Visited(s: Client, f: nat, id: string): Client
    requires f < |s.flushes|
  {
    s.(flushes := s.flushes[f := s.flushes[f].(visit := Between)], notifying := s.notifying - {id})
  }

  /** deliverNotification */
  function NotifyStep(s: Client, step: Step): Client
    requires IsNotifyStep(step) && Enabled(s, step)
  {
    match step
    case LoadNotes => s.(flushes := s.flushes + [Flush(IdList(s.notes), Between)])
    case Deliver(f) =>
      var id, rest := s.flushes[f].rest[0], s.flushes[f].rest[1..];
      if id in s.notifying then s.(flushes := s.flushes[f := Flush(rest, Between)])
      else s.(flushes := s.flushes[f := Flush(rest, Requesting(id))], notifying := s.notifying + {id})
    case Notify(f, reached, ok) =>
      var id := s.flushes[f].visit.id;
      var t := if reached then Asked(s, id) else s;
      if ok then t.(flushes := t.flushes[f := t.flushes[f].(visit := Clearing(id))], noteLock := t.noteLock + [NoteDrop(f, id)])
      else Visited(t, f, id)
    case DropNote(f, ok) =>
      var id := s.flushes[f].visit.id;
      var t := s.(noteLock := s.noteLock[1..]);
      Visited(if ok then t.(notes := Mutate(t.notes, Drop(id))) else t, f, id)
  }

  function Next(s: Client, step: Step): Client
    requires Enabled(s, step)
  {
    if IsLifeStep(step) then LifeStep(s, step)
    else if IsSenderStep(step) then SenderStep(s, step)
    else if IsSubmitStep(step) then SubmitStep(s, step)
    else if IsAckStep(step) then AckStep(s, step)
    else NotifyStep(s, step)
  }

  predicate Legal(s: Client, steps: seq<Step>)
    decreases |steps|
  {
    steps == [] || (Enabled(s, steps[0]) && Legal(Next(s, steps[0]), steps[1..]))
  }

  function After(s: Client, steps: seq<Step>): Client
    requires Legal(s, steps)
    decreases |steps|
  {
    if steps == [] then s else After(Next(s, steps[0]), steps[1..])
  }

  /** A stopped process in front of whatever earlier ones have stored and offered. */
  function Initial(sends: seq<Entry<Body>>, notes: seq<Entry<Note>>, offered: set<string>): Client {
    Client(sends, notes, {}, multiset{}, [], offered, false, [], 0, map[], [], map[], map[], {}, [], [], [], IdsOf(sends), IdsOf(notes),
          set i | 0 <= i < |sends| :: (sends[i].id, sends[i].body))
  }

  // ---------- the engine's own variables ----------

  /** The stores and the fields of NativeMatrixHandle; every method is the code between two awaits. */
  class MatrixHandle {
    var sends: seq<Entry<Body>>
    var notes: seq<Entry<Note>>
    var accepted: set<string>
    var asked: multiset<string>
    var posted: seq<Posted>
    var offered: set<string>
    var running: bool
    var records: seq<Record>
    var born: nat
    var pendingByLogicalId: map<string, nat>
    var senders: seq<Sender>
    var submittingSendTasks: map<string, Submit>
    var acknowledgingSends: map<string, Ack>
    var pendingNotificationIds: set<string>
    var flushes: seq<Flush>
    var outboxLock: seq<SendCall>
    var notificationOutboxLock: seq<NoteCall>
    var enqueued: set<string>
    var noted: set<string>
    var calls: set<(string, Body)>

    function Abstract(): Client
      reads this
    {
      Client(sends, notes, accepted, asked, posted, offered, running, records, born, pendingByLogicalId, senders,
             submittingSendTasks, acknowledgingSends, pendingNotificationIds, flushes, outboxLock, notificationOutboxLock,
             enqueued, noted, calls)
    }

    constructor (storedSends: seq<Entry<Body>>, storedNotes: seq<Entry<Note>>, offeredBefore: set<string>)
      ensures Abstract() == Initial(storedSends, storedNotes, offeredBefore)
    {
      offered, outboxLock, notificationOutboxLock := offeredBefore, [], [];
      sends, notes, accepted, asked, posted := storedSends, storedNotes, {}, multiset{}, [];
      running, records, born, pendingByLogicalId, senders := false, [], 0, map[], [];
      submittingSendTasks, acknowledgingSends, pendingNotificationIds, flushes := map[], map[], {}, [];
      enqueued, noted := IdsOf(storedSends), IdsOf(storedNotes);
      calls := set i | 0 <= i < |storedSends| :: (storedSends[i].id, storedSends[i].body);
    }

    /** The retained record of the id, or a new one. */
    method RecordFor(id: string, body: Body) returns (record: nat)
      modifies this
      ensures var was := old(Abstract());
        && record == (if Retained(was, id).Some? then Retained(was, id).value else |was.records|)
        && Abstract() == was.(records := if Retained(was, id).Some? then was.records else was.records + [Record(id, body, false)])
    {
      if id in pendingByLogicalId {
        record := pendingByLogicalId[id];
      } else {
        record := |records|;
        records := records + [Record(id, body, false)];
      }
    }

    method SendContentEvent(id: string, body: Body) returns (sender: nat)
      requires Enabled(Abstract(), Send(id, body))
      modifies this
      ensures Abstract() == Next(old(Abstract()), Send(id, body)) && sender == |old(senders)|
    {
      hide LifeStep, SubmitStep, AckStep, NotifyStep, Mutate, HasId, Retained;
      var record := RecordFor(id, body);
      sender := |senders|;
      senders := senders + [Sender(record, Storing)];
      outboxLock := outboxLock + [PutCall(sender)];
      calls := calls + {(id, body)};
    }

    method FinishStore(i: nat, ok: bool, submitted: bool)
      requires Enabled(Abstract(), StoreSend(i, ok, submitted))
      modifies this
      ensures Abstract() == Next(old(Abstract()), StoreSend(i, ok, submitted))
    {
      hide LifeStep, SubmitStep, AckStep, NotifyStep, Mutate, HasId;
      var record := records[senders[i].record];
      outboxLock := outboxLock[1..];
      if ok {
        sends := Mutate(sends, Put(EntryOf(record, submitted)));
        enqueued := enqueued + {record.id};
        senders := senders[i := senders[i].(phase := Stored)];
      } else {
        senders := senders[i := senders[i].(phase := Ended)];
      }
    }

    /** sendContentEvent behind its mutation: it remembers the record and submits it. */
    method Remember(i: nat, view: RoomView)
      requires Enabled(Abstract(), AfterStore(i, view))
      modifies this
      ensures Abstract() == Next(old(Abstract()), AfterStore(i, view))
    {
      hide LifeStep, SubmitStep, AckStep, NotifyStep, Mutate, HasId;
      var record := senders[i].record;
      senders := senders[i := senders[i].(phase := Ended)];
      pendingByLogicalId := pendingByLogicalId[records[record].id := record];
      SubmitPending(record, view);
    }

    method SubmitPending(record: nat, view: RoomView)
      requires record < |records|
      modifies this
      ensures Abstract() == Submitting(old(Abstract()), record, view)
    {
      var pending := records[record];
      if pending.id in submittingSendTasks || !running || pending.submitted {
        return;
      }
      if pending.body.destination.None? || view.room.None? {
        return;
      }
      var destination := pending.body.destination.value;
      if view.room.value != destination.room || view.thread != Some((pending.body.thread, destination.partner)) {
        return;
      }
      submittingSendTasks := submittingSendTasks[pending.id := Submit(record, view.room.value, Binding)];
    }

    /** The rest of a submit task, from one await to the next. */
    method FinishBind(id: string, ok: bool)
      requires Enabled(Abstract(), Bind(id, ok))
      modifies this
      ensures Abstract() == Next(old(Abstract()), Bind(id, ok))
    {
      hide LifeStep, SenderStep, AckStep, NotifyStep, Mutate, HasId;
      var task := submittingSendTasks[id];
      var destination := records[task.record].body.destination;
      if !ok || destination.None? {
        submittingSendTasks := submittingSendTasks - {id};
        return;
      }
      submittingSendTasks := submittingSendTasks[id := task.(phase := Sending(destination.value.partner))];
      offered := offered + {id};
    }

    method FinishTransmit(id: string, ok: bool)
      requires Enabled(Abstract(), Transmit(id, ok))
      modifies this
      ensures Abstract() == Next(old(Abstract()), Transmit(id, ok))
    {
      hide LifeStep, SenderStep, AckStep, NotifyStep, Mutate, HasId;
      var task := submittingSendTasks[id];
      if !ok {
        submittingSendTasks := submittingSendTasks - {id};
        return;
      }
      posted := posted + [Posted(task.record, id, task.room, task.phase.bound)];
      records := records[task.record := records[task.record].(submitted := true)];
      pendingByLogicalId := pendingByLogicalId[id := task.record];
      submittingSendTasks := submittingSendTasks[id := task.(phase := Marking)];
      outboxLock := outboxLock + [MarkCall(id)];
    }

    method FinishMark(id: string, ok: bool)
      requires Enabled(Abstract(), MarkSubmitted(id, ok))
      modifies this
      ensures Abstract() == Next(old(Abstract()), MarkSubmitted(id, ok))
    {
      hide LifeStep, SenderStep, AckStep, NotifyStep, Mutate, HasId;
      if ok {
        sends := Mutate(sends, Mark(id));
      }
      outboxLock := outboxLock[1..];
      submittingSendTasks := submittingSendTasks - {id};
    }

    method AcknowledgeRemoteSend(id: string, eventId: string)
      requires Enabled(Abstract(), Echo(id, eventId))
      modifies this
      ensures Abstract() == Next(old(Abstract()), Echo(id, eventId))
    {
      hide LifeStep, SenderStep, SubmitStep, NotifyStep, Mutate, HasId;
      if id in acknowledgingSends {
        return;
      }
      var note := Note(records[pendingByLogicalId[id]].body.thread, eventId);
      acknowledgingSends := acknowledgingSends[id := Ack(note, Noting)];
      notificationOutboxLock := notificationOutboxLock + [NotePut(id)];
    }

    method FinishNote(id: string, ok: bool)
      requires Enabled(Abstract(), StoreNote(id, ok))
      modifies this
      ensures Abstract() == Next(old(Abstract()), StoreNote(id, ok))
    {
      hide LifeStep, SenderStep, SubmitStep, NotifyStep, Mutate, HasId;
      var ack := acknowledgingSends[id];
      notificationOutboxLock := notificationOutboxLock[1..];
      if !ok {
        acknowledgingSends := acknowledgingSends - {id};
        return;
      }
      notes := Mutate(notes, Put(Entry(id, ack.note, false)));
      noted := noted + {id};
      acknowledgingSends := acknowledgingSends[id := ack.(phase := Dropping)];
      outboxLock := outboxLock + [DropCall(id)];
    }

    method FinishDrop(id: string, ok: bool)
      requires Enabled(Abstract(), DropSend(id, ok))
      modifies this
      ensures Abstract() == Next(old(Abstract()), DropSend(id, ok))
    {
      hide LifeStep, SenderStep, SubmitStep, NotifyStep, Mutate, HasId;
      outboxLock := outboxLock[1..];
      if !ok {
        acknowledgingSends := acknowledgingSends - {id};
        return;
      }
      sends := Mutate(sends, Drop(id));
      acknowledgingSends := acknowledgingSends[id := acknowledgingSends[id].(phase := Dropped)];
    }

    method ForgetPending(id: string)
      requires Enabled(Abstract(), Forget(id))
      modifies this
      ensures Abstract() == Next(old(Abstract()), Forget(id))
    {
      hide LifeStep, SenderStep, SubmitStep, NotifyStep, Mutate, HasId;
      pendingByLogicalId := pendingByLogicalId - {id};
      acknowledgingSends := acknowledgingSends - {id};
    }

    /** flushNotificationOutbox: the ids that are stored now, each to be visited once. */
    method FlushNotifications() returns (flush: nat)
      requires Enabled(Abstract(), LoadNotes)
      modifies this
      ensures Abstract() == Next(old(Abstract()), LoadNotes) && flush == |old(flushes)|
    {
      hide LifeStep, SenderStep, SubmitStep, AckStep, Mutate, HasId;
      flush := |flushes|;
      flushes := flushes + [Flush(IdList(notes), Between)];
    }

    /** The next id of a flush: skipped while another flush delivers it. */
    method DeliverNotification(f: nat)
      requires Enabled(Abstract(), Deliver(f))
      modifies this
      ensures Abstract() == Next(old(Abstract()), Deliver(f))
    {
      hide LifeStep, SenderStep, SubmitStep, AckStep, Mutate, HasId;
      var id, rest := flushes[f].rest[0], flushes[f].rest[1..];
      if id in pendingNotificationIds {
        flushes := flushes[f := Flush(rest, Between)];
        return;
      }
      pendingNotificationIds := pendingNotificationIds + {id};
      flushes := flushes[f := Flush(rest, Requesting(id))];
    }

    method CountRequest(id: string)
      modifies this
      ensures Abstract() == Asked(old(Abstract()), id)
    {
      accepted := accepted + {id};
      asked := asked + multiset{id};
    }

    method EndVisit(f: nat, id: string)
      requires f < |flushes|
      modifies this
      ensures Abstract() == Visited(old(Abstract()), f, id)
    {
      flushes := flushes[f := flushes[f].(visit := Between)];
      pendingNotificationIds := pendingNotificationIds - {id};
    }

    /** The request has reached the endpoint or not, and its response is good or not. */
    method FinishRequest(f: nat, reached: bool, ok: bool)
      requires Enabled(Abstract(), Notify(f, reached, ok))
      modifies this
      ensures Abstract() == Next(old(Abstract()), Notify(f, reached, ok))
    {
      hide LifeStep, SenderStep, SubmitStep, AckStep, Mutate, HasId;
      var id := flushes[f].visit.id;
      if reached {
        CountRequest(id);
      }
      if ok {
        flushes := flushes[f := flushes[f].(visit := Clearing(id))];
        notificationOutboxLock := notificationOutboxLock + [NoteDrop(f, id)];
      } else {
        EndVisit(f, id);
      }
    }

    method FinishDropNote(f: nat, ok: bool)
      requires Enabled(Abstract(), DropNote(f, ok))
      modifies this
      ensures Abstract() == Next(old(Abstract()), DropNote(f, ok))
    {
      hide LifeStep, SenderStep, SubmitStep, AckStep, Mutate, HasId;
      var id := flushes[f].visit.id;
      notificationOutboxLock := notificationOutboxLock[1..];
      if ok {
        notes := Mutate(notes, Drop(id));
      }
      EndVisit(f, id);
    }

    /** getHandle: a new process reads what is stored. */
    method Restart()
      requires Enabled(Abstract(), Boot)
      modifies this
      ensures Abstract() == Next(old(Abstract()), Boot)
    {
      hide SenderStep, SubmitStep, AckStep, NotifyStep, Mutate, HasId, Indexed, Loaded;
      var base := |records|;
      records := records + Loaded(sends);
      pendingByLogicalId := Indexed(sends, base);
      born := base;
      running := true;
    }
  }
}
