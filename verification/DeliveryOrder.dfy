/** The two queues of the delivery machine as lines: its runs use them as mutateOutbox serves them, with the same
    calls in the same order. */
module DeliveryOrder {
  import opened Wrappers
  import opened OutboxRecords
  import Outbox
  import OutboxRuns
  import opened OutboxOrder
  import opened Delivery
  import opened DeliveryRuns
  import opened DeliverySends
  import opened DeliveryLocks
  import opened DeliveryFutures

  // ---------- the sends ----------

  predicate SendPlaced(s: Client, c: SendCall) {
    c.PutCall? ==> c.sender < |s.senders| && s.senders[c.sender].record < |s.records|
  }

  /** The mutation that a waiting call stands for. */
  function SendMutation(s: Client, c: SendCall): Mutation<Body>
    requires SendPlaced(s, c)
  {
    match c
    case PutCall(k) => Put(EntryOf(s.records[s.senders[k].record], false))
    case MarkCall(id) => Mark(id)
    case DropCall(id) => Drop(id)
  }

  predicate SendsPlaced(s: Client) { forall p :: 0 <= p < |s.sendLock| ==> SendPlaced(s, s.sendLock[p]) }

  function SendLine(s: Client): Line<Body>
    requires SendsPlaced(s)
  {
    Line(s.sends, seq(|s.sendLock|, p requires 0 <= p < |s.sendLock| => SendMutation(s, s.sendLock[p])))
  }

  /** What a step is for the line of the sends. */
  function SendEvent(s: Client, step: Step): Event<Body> {
    match step
    case Send(id, body) => Join(Put(Entry(id, body, false)))
    case Transmit(id, ok) => if ok then Join(Mark(id)) else Stay
    case StoreNote(id, ok) => if ok then Join(Drop(id)) else Stay
    case StoreSend(_, ok, submitted) => if ok then Take(submitted) else Fault
    case MarkSubmitted(_, ok) => if ok then Take(false) else Fault
    case DropSend(_, ok) => if ok then Take(false) else Fault
    case Crash => Restart
    case _ => Stay
  }

  lemma SoundPlaced(s: Client)
    requires Sound(s)
    ensures SendsPlaced(s)
  {
    hide Idle, Visiting, SendersBound, ListsOk, NoteLockOk, Offers, MarkingOut, AcksHeld, SubmitOk, PostedOk, Once;
    forall p | 0 <= p < |s.sendLock|
      ensures SendPlaced(s, s.sendLock[p])
    {
      assert s.sendLock[p] in s.sendLock && SendCallOk(s, s.sendLock[p]);
    }
  }

  lemma SendMutationStays(s: Client, step: Step, c: SendCall)
    requires Enabled(s, step) && !IsLifeStep(step) && SendPlaced(s, c)
    ensures SendPlaced(Next(s, step), c) && SendMutation(Next(s, step), c) == SendMutation(s, c)
  {
    hide Enabled, Next;
    RecordsGrow(s, step);
    if c.PutCall? {
      SenderStays(s, step, c.sender);
    }
  }

  lemma SendSettledIsEvent(s: Client, step: Step)
    requires Enabled(s, step) && SendSettles(step) && SendsPlaced(s)
    ensures SendsPlaced(Next(s, step)) && Possible(SendLine(s), SendEvent(s, step))
    ensures SendLine(Next(s, step)) == Moved(SendLine(s), SendEvent(s, step))
  {
    hide Next, Mutate;
    var n := Next(s, step);
    SendSettled(s, step);
    SendTakenIs(s, step);
    forall p | 0 <= p < |n.sendLock|
      ensures SendPlaced(n, n.sendLock[p]) && SendMutation(n, n.sendLock[p]) == SendLine(s).waiting[p + 1]
    {
      SendMutationStays(s, step, s.sendLock[p + 1]);
    }
    assert SendLine(n).waiting == SendLine(s).waiting[1..];
  }

  lemma SendTakenIs(s: Client, step: Step)
    requires Enabled(s, step) && SendSettles(step) && SendsPlaced(s)
    ensures s.sendLock != [] && (SendEvent(s, step).Fault? || SendEvent(s, step).Take?)
    ensures SendEvent(s, step).Fault? ==> SendTaken(s, step).None?
    ensures SendEvent(s, step).Take? ==> SendTaken(s, step) == Some(Resolve(SendMutation(s, s.sendLock[0]), SendEvent(s, step).submitted))
  {
    hide Mutate;
    assert SendPlaced(s, s.sendLock[0]);
  }

  lemma SendJoinedIs(s: Client, step: Step)
    requires Heap(s) && Enabled(s, step) && !SendSettles(step) && !IsLifeStep(step)
    ensures SendEvent(s, step).Stay? || SendEvent(s, step).Join?
    ensures SendEvent(s, step).Stay? ==> SendJoins(s, step) == []
    ensures SendEvent(s, step).Join? ==>
      && |SendJoins(s, step)| == 1 && SendPlaced(Next(s, step), SendJoins(s, step)[0])
      && SendMutation(Next(s, step), SendJoins(s, step)[0]) == Resolve(SendEvent(s, step).mutation, false)
  {
    hide Mutate, HasId;
  }

  lemma SendJoinedIsEvent(s: Client, step: Step)
    requires Heap(s) && Enabled(s, step) && !SendSettles(step) && !IsLifeStep(step) && SendsPlaced(s)
    ensures SendsPlaced(Next(s, step)) && Possible(SendLine(s), SendEvent(s, step))
    ensures SendLine(Next(s, step)) == Moved(SendLine(s), SendEvent(s, step))
  {
    hide Next, Mutate, Heap, SendEvent, SendMutation;
    var n := Next(s, step);
    SendJoined(s, step);
    SendJoinedIs(s, step);
    forall p | 0 <= p < |n.sendLock|
      ensures SendPlaced(n, n.sendLock[p])
      ensures SendMutation(n, n.sendLock[p]) == Moved(SendLine(s), SendEvent(s, step)).waiting[p]
    {
      if p < |s.sendLock| {
        SendMutationStays(s, step, s.sendLock[p]);
      }
    }
    assert SendLine(n).waiting == Moved(SendLine(s), SendEvent(s, step)).waiting;
  }

  lemma LifeIsSendEvent(s: Client, step: Step)
    requires Sound(s) && Enabled(s, step) && IsLifeStep(step) && SendsPlaced(s)
    ensures SendsPlaced(Next(s, step)) && Possible(SendLine(s), SendEvent(s, step))
    ensures SendLine(Next(s, step)) == Moved(SendLine(s), SendEvent(s, step))
  {
    hide Indexed, Safe, Visiting, SendersBound, ListsOk, SendLockOk, NoteLockOk, Offers, MarkingOut, AcksHeld;
    var n := Next(s, step);
    assert SendLine(n).waiting == [];
  }

  /** Every step of the machine is an event of the line of the sends. */
  lemma StepIsSendEvent(s: Client, step: Step)
    requires Sound(s) && Enabled(s, step)
    ensures SendsPlaced(s) && SendsPlaced(Next(s, step)) && Possible(SendLine(s), SendEvent(s, step))
    ensures SendLine(Next(s, step)) == Moved(SendLine(s), SendEvent(s, step))
  {
    hide Enabled, Next, Idle, Visiting, SendersBound, ListsOk, SendLockOk, NoteLockOk, Offers, MarkingOut,
         AcksHeld, Heap;
    hide SendLine, SendsPlaced, SendEvent, Possible, Moved;
    SoundPlaced(s);
    if IsLifeStep(step) {
      LifeIsSendEvent(s, step);
    } else if SendSettles(step) {
      SendSettledIsEvent(s, step);
    } else {
      SendJoinedIsEvent(s, step);
    }
  }

  // ---------- the notifications ----------

  predicate NotePlaced(s: Client, c: NoteCall) { c.NotePut? ==> c.id in s.acks && s.acks[c.id].phase.Noting? }

  function NoteMutation(s: Client, c: NoteCall): Mutation<Note>
    requires NotePlaced(s, c)
  {
    match c
    case NotePut(id) => Put(Entry(id, s.acks[id].note, false))
    case NoteDrop(_, id) => Drop(id)
  }

  predicate NotesPlaced(s: Client) { forall p :: 0 <= p < |s.noteLock| ==> NotePlaced(s, s.noteLock[p]) }

  function NoteLine(s: Client): Line<Note>
    requires NotesPlaced(s)
  {
    Line(s.notes, seq(|s.noteLock|, p requires 0 <= p < |s.noteLock| => NoteMutation(s, s.noteLock[p])))
  }

  /** What a step is for the line of the notifications. */
  function NoteEvent(s: Client, step: Step): Event<Note>
    requires Enabled(s, step)
  {
    match step
    case Echo(id, eventId) =>
      if id in s.acks then Stay else Join(Put(Entry(id, Note(s.records[s.pending[id]].body.thread, eventId), false)))
    case Notify(f, _, ok) => if ok then Join(Drop(s.flushes[f].visit.id)) else Stay
    case StoreNote(_, ok) => if ok then Take(false) else Fault
    case DropNote(_, ok) => if ok then Take(false) else Fault
    case Crash => Restart
    case _ => Stay
  }

  lemma SoundNotesPlaced(s: Client)
    requires Sound(s)
    ensures NotesPlaced(s)
  {
    hide Idle, Visiting, SendersBound, ListsOk, SendLockOk, Offers, MarkingOut, AcksHeld, Safe, Once;
    forall p | 0 <= p < |s.noteLock|
      ensures NotePlaced(s, s.noteLock[p])
    {
      assert s.noteLock[p] in s.noteLock && NoteCallOk(s, s.noteLock[p]);
    }
  }

  /** A note does not change while it waits. */
  lemma NoteMutationStays(s: Client, step: Step, c: NoteCall)
    requires Enabled(s, step) && !IsLifeStep(step) && NotePlaced(s, c) && (NoteSettles(step) ==> c != s.noteLock[0])
    ensures NotePlaced(Next(s, step), c) && NoteMutation(Next(s, step), c) == NoteMutation(s, c)
  {
    hide Mutate, HasId, SenderStep, SubmitStep, NotifyStep;
    Frames(s, step);
  }

  lemma NoteSettledIsEvent(s: Client, step: Step)
    requires Enabled(s, step) && NoteSettles(step) && NotesPlaced(s) && Once(s.noteLock)
    ensures NotesPlaced(Next(s, step)) && Possible(NoteLine(s), NoteEvent(s, step))
    ensures NoteLine(Next(s, step)) == Moved(NoteLine(s), NoteEvent(s, step))
  {
    hide Next, Mutate;
    var n := Next(s, step);
    NoteSettled(s, step);
    NoteTakenIs(s, step);
    forall p | 0 <= p < |n.noteLock|
      ensures NotePlaced(n, n.noteLock[p]) && NoteMutation(n, n.noteLock[p]) == NoteLine(s).waiting[p + 1]
    {
      NoteMutationStays(s, step, s.noteLock[p + 1]);
    }
    assert NoteLine(n).waiting == NoteLine(s).waiting[1..];
  }

  lemma NoteTakenIs(s: Client, step: Step)
    requires Enabled(s, step) && NoteSettles(step) && NotesPlaced(s)
    ensures s.noteLock != [] && (NoteEvent(s, step).Fault? || NoteEvent(s, step).Take?)
    ensures NoteEvent(s, step).Fault? ==> NoteTaken(s, step).None?
    ensures NoteEvent(s, step).Take? ==> NoteTaken(s, step) == Some(Resolve(NoteMutation(s, s.noteLock[0]), NoteEvent(s, step).submitted))
  {
    hide Mutate;
    assert NotePlaced(s, s.noteLock[0]);
  }

  lemma NoteJoinedIs(s: Client, step: Step)
    requires Enabled(s, step) && !NoteSettles(step) && !IsLifeStep(step)
    ensures NoteEvent(s, step).Stay? || NoteEvent(s, step).Join?
    ensures NoteEvent(s, step).Stay? ==> NoteJoins(s, step) == []
    ensures NoteEvent(s, step).Join? ==>
      && |NoteJoins(s, step)| == 1 && NotePlaced(Next(s, step), NoteJoins(s, step)[0])
      && NoteMutation(Next(s, step), NoteJoins(s, step)[0]) == Resolve(NoteEvent(s, step).mutation, false)
  {
    hide Mutate, HasId;
  }

  lemma NoteJoinedIsEvent(s: Client, step: Step)
    requires Enabled(s, step) && !NoteSettles(step) && !IsLifeStep(step) && NotesPlaced(s)
    ensures NotesPlaced(Next(s, step)) && Possible(NoteLine(s), NoteEvent(s, step))
    ensures NoteLine(Next(s, step)) == Moved(NoteLine(s), NoteEvent(s, step))
  {
    hide Next, Mutate, NoteEvent, NoteMutation;
    var n := Next(s, step);
    NoteJoined(s, step);
    NoteJoinedIs(s, step);
    forall p | 0 <= p < |n.noteLock|
      ensures NotePlaced(n, n.noteLock[p])
      ensures NoteMutation(n, n.noteLock[p]) == Moved(NoteLine(s), NoteEvent(s, step)).waiting[p]
    {
      if p < |s.noteLock| {
        NoteMutationStays(s, step, s.noteLock[p]);
      }
    }
    assert NoteLine(n).waiting == Moved(NoteLine(s), NoteEvent(s, step)).waiting;
  }

  lemma LifeIsNoteEvent(s: Client, step: Step)
    requires Sound(s) && Enabled(s, step) && IsLifeStep(step) && NotesPlaced(s)
    ensures NotesPlaced(Next(s, step)) && Possible(NoteLine(s), NoteEvent(s, step))
    ensures NoteLine(Next(s, step)) == Moved(NoteLine(s), NoteEvent(s, step))
  {
    hide Indexed, Safe, Visiting, SendersBound, ListsOk, SendLockOk, NoteLockOk, Offers, MarkingOut, AcksHeld;
    var n := Next(s, step);
    assert NoteLine(n).waiting == [];
  }

  /** And of the line of the notifications. */
  lemma StepIsNoteEvent(s: Client, step: Step)
    requires Sound(s) && Enabled(s, step)
    ensures NotesPlaced(s) && NotesPlaced(Next(s, step)) && Possible(NoteLine(s), NoteEvent(s, step))
    ensures NoteLine(Next(s, step)) == Moved(NoteLine(s), NoteEvent(s, step))
  {
    hide Enabled, Next, Idle, Visiting, SendersBound, ListsOk, SendLockOk, Offers, MarkingOut, AcksHeld, Safe;
    hide NoteLine, NotesPlaced, NoteEvent, Possible, Moved;
    SoundNotesPlaced(s);
    if IsLifeStep(step) {
      LifeIsNoteEvent(s, step);
    } else if NoteSettles(step) {
      NoteSettledIsEvent(s, step);
    } else {
      NoteJoinedIsEvent(s, step);
    }
  }

  // ---------- whole runs ----------

  function SendEvents(s: Client, steps: seq<Step>): (events: seq<Event<Body>>)
    requires Legal(s, steps)
    ensures |events| == |steps|
    decreases |steps|
  {
    if steps == [] then [] else [SendEvent(s, steps[0])] + SendEvents(Next(s, steps[0]), steps[1..])
  }

  function NoteEvents(s: Client, steps: seq<Step>): (events: seq<Event<Note>>)
    requires Legal(s, steps)
    ensures |events| == |steps|
    decreases |steps|
  {
    if steps == [] then [] else [NoteEvent(s, steps[0])] + NoteEvents(Next(s, steps[0]), steps[1..])
  }

  /** Over every run, crashes included, both queues change as lines of calls. */
  lemma {:induction false} RunIsLines(s: Client, steps: seq<Step>)
    requires Sound(s) && Legal(s, steps)
    ensures SendsPlaced(s) && SendsPlaced(After(s, steps)) && Serves(SendLine(s), SendEvents(s, steps), SendLine(After(s, steps)))
    ensures NotesPlaced(s) && NotesPlaced(After(s, steps)) && Serves(NoteLine(s), NoteEvents(s, steps), NoteLine(After(s, steps)))
    decreases |steps|
  {
    hide Sound, Enabled, Next, SendLine, NoteLine, SendEvent, NoteEvent, Possible, Moved, SendsPlaced, NotesPlaced;
    SoundPlaced(s);
    SoundNotesPlaced(s);
    if steps != [] {
      var n := Next(s, steps[0]);
      StepIsSendEvent(s, steps[0]);
      StepIsNoteEvent(s, steps[0]);
      StepSound(s, steps[0]);
      RunIsLines(n, steps[1..]);
      assert SendEvents(s, steps)[1..] == SendEvents(n, steps[1..]);
      assert NoteEvents(s, steps)[1..] == NoteEvents(n, steps[1..]);
    }
  }

  lemma {:induction false} NoRestart(s: Client, steps: seq<Step>)
    requires Legal(s, steps) && Crash !in steps
    ensures forall i :: 0 <= i < |steps| ==> !SendEvents(s, steps)[i].Restart? && !NoteEvents(s, steps)[i].Restart?
    decreases |steps|
  {
    hide Enabled, Next;
    if steps != [] {
      assert steps[0] in steps;
      var n := Next(s, steps[0]);
      NoRestart(n, steps[1..]);
      forall i | 0 <= i < |steps|
        ensures !SendEvents(s, steps)[i].Restart? && !NoteEvents(s, steps)[i].Restart?
      {
        if i > 0 {
          assert SendEvents(s, steps)[i] == SendEvents(n, steps[1..])[i - 1];
          assert NoteEvents(s, steps)[i] == NoteEvents(n, steps[1..])[i - 1];
        }
      }
    }
  }

  lemma StartsServed<B>(store: seq<Entry<B>>, events: seq<Event<B>>, end: Line<B>) returns (calls: seq<Outbox.Step<B>>)
    requires Serves(Line(store, []), events, end) && forall i :: 0 <= i < |events| ==> !events[i].Restart?
    ensures Outbox.Legal(Outbox.Initial(store), calls) && View(Outbox.After(Outbox.Initial(store), calls)) == end
  {
    OutboxRuns.InitialInv(store);
    calls := LineIsRun(store, Outbox.Initial(store), events, end);
  }

  /** Whatever one process does, two runs of mutateOutbox over the queues that it found do the same to them, with the
      same calls waiting at the end. */
  lemma ProcessUsesOutboxes(s: Client, steps: seq<Step>) returns (sends: seq<Outbox.Step<Body>>, notes: seq<Outbox.Step<Note>>)
    requires Sound(s) && s.sendLock == [] && s.noteLock == [] && Legal(s, steps) && Crash !in steps
    ensures Outbox.Legal(Outbox.Initial(s.sends), sends) && SendsPlaced(After(s, steps))
    ensures View(Outbox.After(Outbox.Initial(s.sends), sends)) == SendLine(After(s, steps))
    ensures Outbox.Legal(Outbox.Initial(s.notes), notes) && NotesPlaced(After(s, steps))
    ensures View(Outbox.After(Outbox.Initial(s.notes), notes)) == NoteLine(After(s, steps))
  {
    hide Sound, Legal, After;
    RunIsLines(s, steps);
    NoRestart(s, steps);
    sends := StartsServed(s.sends, SendEvents(s, steps), SendLine(After(s, steps)));
    notes := StartsServed(s.notes, NoteEvents(s, steps), NoteLine(After(s, steps)));
  }
}
