/** Which records a process sends: never one twice, only where it says, and when one logical id goes out once. */
module DeliverySends {
  import opened Wrappers
  import opened OutboxRecords
  import opened Delivery
  import opened DeliveryRuns

  // ---------- submitting ----------

  predicate SubmitOk(s: Client, id: string)
    requires id in s.submits
  {
    var t := s.submits[id];
    && s.born <= t.record < |s.records|
    && s.records[t.record].id == id
    && s.records[t.record].body.destination.Some? && t.room == s.records[t.record].body.destination.value.room
    && (t.phase.Sending? ==> t.phase.bound == s.records[t.record].body.destination.value.partner)
    && (!t.phase.Marking? ==> !s.records[t.record].submitted)
  }

  predicate PostedOk(s: Client, p: Posted) {
    && p.record < |s.records|
    && s.records[p.record].id == p.id && s.records[p.record].body.destination == Some(Destination(p.partner, p.room))
    && s.records[p.record].submitted
  }

  predicate Heap(s: Client) {
    && s.born <= |s.records|
    && (!s.running ==> s.senders == [] && s.submits == map[])
    && (forall id :: id in s.pending ==> s.born <= s.pending[id] < |s.records| && s.records[s.pending[id]].id == id)
    && (forall i :: 0 <= i < |s.senders| ==> s.born <= s.senders[i].record < |s.records|)
  }

  predicate Safe(s: Client) {
    && Heap(s)
    && (forall id :: id in s.submits ==> SubmitOk(s, id))
    && (forall i :: 0 <= i < |s.posted| ==> PostedOk(s, s.posted[i]))
    && (forall i, j :: 0 <= i < j < |s.posted| ==> s.posted[i].record != s.posted[j].record)
  }

  /** Records keep their id and body, and stay submitted. */
  predicate Grows(a: seq<Record>, b: seq<Record>) {
    |a| <= |b| && forall i :: 0 <= i < |a| ==>
      b[i].id == a[i].id && b[i].body == a[i].body && (a[i].submitted ==> b[i].submitted)
  }

  lemma {:induction false} IndexedExact(items: seq<Entry<Body>>, base: nat, id: string)
    ensures id in Indexed(items, base) ==>
      base <= Indexed(items, base)[id] < base + |items| && items[Indexed(items, base)[id] - base].id == id
    ensures HasId(items, id) <==> id in Indexed(items, base)
  {
    if items != [] {
      var n := |items| - 1;
      IndexedExact(items[..n], base, id);
      if HasId(items[..n], id) {
        var i :| 0 <= i < n && items[..n][i].id == id;
        assert items[i].id == id;
      }
      if HasId(items, id) && items[n].id != id {
        var i :| 0 <= i < |items| && items[i].id == id;
        assert items[..n][i].id == id;
      }
    }
  }

  lemma RecordsGrow(s: Client, step: Step)
    requires Enabled(s, step)
    ensures Grows(s.records, Next(s, step).records)
  {
    hide Mutate, HasId, Indexed, Submitting, AckStep, NotifyStep;
    Frames(s, step);
    if step.AfterStore? || step.FlushPending? {
      SubmittingFrame(s, step);
    }
  }

  predicate PendingOk(s: Client, id: string)
    requires id in s.pending
  {
    s.born <= s.pending[id] < |s.records| && s.records[s.pending[id]].id == id
  }

  /** A record in memory keeps its place and its id while the process runs. */
  lemma RecordStays(s: Client, step: Step, i: nat)
    requires Enabled(s, step) && !IsLifeStep(step) && s.born <= i < |s.records|
    ensures var n := Next(s, step); n.born <= i < |n.records| && n.records[i].id == s.records[i].id
  {
    hide Next;
    RecordsGrow(s, step);
    Frames(s, step);
  }

  lemma LifePending(s: Client, step: Step, id: string)
    requires IsLifeStep(step) && Enabled(s, step) && id in LifeStep(s, step).pending
    ensures PendingOk(LifeStep(s, step), id)
  {
    hide Indexed;
    if step.Boot? {
      IndexedExact(s.sends, |s.records|, id);
    }
  }

  /** A logical id in memory leads to a record of the running process. */
  lemma PendingChange(s: Client, step: Step, id: string)
    requires Safe(s) && Enabled(s, step) && !IsLifeStep(step) && id in Next(s, step).pending
    ensures var i := Next(s, step).pending[id]; s.born <= i < |s.records| && s.records[i].id == id
  {
    hide LifeStep, SenderStep, SubmitStep, AckStep, NotifyStep, PostedOk;
    Frames(s, step);
    if IsSenderStep(step) {
      SenderPending(s, step, id);
    } else if IsSubmitStep(step) {
      SubmitPending(s, step, id);
    } else if IsAckStep(step) {
      AckPending(s, step, id);
    }
  }

  lemma SenderPending(s: Client, step: Step, id: string)
    requires Heap(s) && Enabled(s, step) && IsSenderStep(step) && id in SenderStep(s, step).pending
    ensures var i := SenderStep(s, step).pending[id]; s.born <= i < |s.records| && s.records[i].id == id
  {
    hide Mutate, HasId;
  }

  lemma SubmitPending(s: Client, step: Step, id: string)
    requires Safe(s) && Enabled(s, step) && IsSubmitStep(step) && id in SubmitStep(s, step).pending
    ensures var i := SubmitStep(s, step).pending[id]; s.born <= i < |s.records| && s.records[i].id == id
  {
    hide Mutate, HasId, PostedOk;
    if step.Transmit? {
      assert SubmitOk(s, step.id);
    }
  }

  lemma AckPending(s: Client, step: Step, id: string)
    requires Heap(s) && Enabled(s, step) && IsAckStep(step) && id in AckStep(s, step).pending
    ensures var i := AckStep(s, step).pending[id]; s.born <= i < |s.records| && s.records[i].id == id
  {
    hide Mutate, HasId;
  }

  lemma PendingKeeps(s: Client, step: Step, id: string)
    requires Safe(s) && Enabled(s, step) && id in Next(s, step).pending
    ensures PendingOk(Next(s, step), id)
  {
    hide LifeStep, SenderStep, SubmitStep, AckStep, NotifyStep, Safe;
    if IsLifeStep(step) {
      LifePending(s, step, id);
    } else {
      PendingChange(s, step, id);
      RecordStays(s, step, Next(s, step).pending[id]);
    }
  }

  lemma SendersKeep(s: Client, step: Step, i: nat)
    requires Safe(s) && Enabled(s, step) && i < |Next(s, step).senders|
    ensures Next(s, step).born <= Next(s, step).senders[i].record < |Next(s, step).records|
  {
    hide Mutate, HasId, Indexed, SubmitStep, AckStep, NotifyStep, SubmitOk, PostedOk;
    RecordsGrow(s, step);
    Frames(s, step);
  }

  lemma HeapKeeps(s: Client, step: Step)
    requires Safe(s) && Enabled(s, step)
    ensures Heap(Next(s, step))
  {
    hide Next, Enabled, SubmitOk, PostedOk;
    var n := Next(s, step);
    BornKeeps(s, step);
    forall id | id in n.pending
      ensures PendingOk(n, id)
    {
      PendingKeeps(s, step, id);
    }
    forall i | 0 <= i < |n.senders|
      ensures n.born <= n.senders[i].record < |n.records|
    {
      SendersKeep(s, step, i);
    }
  }

  lemma BornKeeps(s: Client, step: Step)
    requires Safe(s) && Enabled(s, step)
    ensures var n := Next(s, step); n.born <= |n.records| && (!n.running ==> n.senders == [] && n.submits == map[])
  {
    hide Mutate, HasId, Indexed, AckStep, NotifyStep, SubmitOk, PostedOk;
    Frames(s, step);
    RecordsGrow(s, step);
  }

  lemma SubmittingOk(s: Client, record: nat, view: RoomView, id: string)
    requires s.born <= record < |s.records| && id in Submitting(s, record, view).submits
    requires id in s.submits ==> SubmitOk(s, id)
    ensures SubmitOk(Submitting(s, record, view), id)
  {
  }

  lemma SenderSubmits(s: Client, step: Step, id: string)
    requires Safe(s) && IsSenderStep(step) && Enabled(s, step) && id in SenderStep(s, step).submits
    ensures SubmitOk(SenderStep(s, step), id)
  {
    hide Mutate, HasId, PostedOk, Submitting;
    if step.AfterStore? {
      var i := step.sender;
      var record := s.senders[i].record;
      var m := s.(senders := s.senders[i := s.senders[i].(phase := Ended)], pending := s.pending[s.records[record].id := record]);
      SubmittingOk(m, record, step.view, id);
    } else {
      assert SubmitOk(s, id);
    }
  }

  lemma BindSubmits(s: Client, x: string, ok: bool, id: string)
    requires Safe(s) && Enabled(s, Bind(x, ok)) && id in SubmitStep(s, Bind(x, ok)).submits
    ensures SubmitOk(SubmitStep(s, Bind(x, ok)), id)
  {
    hide PostedOk, Heap;
    assert SubmitOk(s, x) && SubmitOk(s, id);
  }

  lemma TransmitSubmits(s: Client, x: string, ok: bool, id: string)
    requires Safe(s) && Enabled(s, Transmit(x, ok)) && id in SubmitStep(s, Transmit(x, ok)).submits
    ensures SubmitOk(SubmitStep(s, Transmit(x, ok)), id)
  {
    hide PostedOk, Heap;
    assert SubmitOk(s, x) && SubmitOk(s, id);
  }

  lemma MarkSubmits(s: Client, x: string, ok: bool, id: string)
    requires Safe(s) && Enabled(s, MarkSubmitted(x, ok)) && id in SubmitStep(s, MarkSubmitted(x, ok)).submits
    ensures SubmitOk(SubmitStep(s, MarkSubmitted(x, ok)), id)
  {
    hide PostedOk, Heap, Mutate;
    assert SubmitOk(s, id);
  }

  lemma SubmitSubmits(s: Client, step: Step, id: string)
    requires Safe(s) && IsSubmitStep(step) && Enabled(s, step) && id in SubmitStep(s, step).submits
    ensures SubmitOk(SubmitStep(s, step), id)
  {
    hide Mutate, HasId, PostedOk, Submitting;
    match step {
      case FlushPending(x, view) => SubmittingOk(s, s.pending[x], view, id);
      case Bind(x, ok) => BindSubmits(s, x, ok, id);
      case Transmit(x, ok) => TransmitSubmits(s, x, ok, id);
      case MarkSubmitted(x, ok) => MarkSubmits(s, x, ok, id);
      case _ =>
    }
  }

  lemma SubmitKeeps(s: Client, step: Step, id: string)
    requires Safe(s) && Enabled(s, step) && id in Next(s, step).submits
    ensures SubmitOk(Next(s, step), id)
  {
    hide Mutate, SenderStep, SubmitStep, AckStep, NotifyStep, PostedOk, Indexed;
    if IsSenderStep(step) {
      SenderSubmits(s, step, id);
    } else if IsSubmitStep(step) {
      SubmitSubmits(s, step, id);
    } else {
      Frames(s, step);
    }
  }

  lemma PostedFrame(s: Client, n: Client, p: Posted)
    requires PostedOk(s, p) && Grows(s.records, n.records)
    ensures PostedOk(n, p)
  {
  }

  lemma PostedChange(s: Client, step: Step)
    requires Enabled(s, step) && !(step.Transmit? && step.ok)
    ensures Next(s, step).posted == s.posted
  {
    hide Mutate, HasId, Indexed, LifeStep, SenderStep, AckStep, NotifyStep;
    Frames(s, step);
  }

  /** A record that is sent was not sent before, and goes where it says. */
  lemma TransmitPosts(s: Client, id: string)
    requires Safe(s) && Enabled(s, Transmit(id, true))
    ensures var n := Next(s, Transmit(id, true));
      && |n.posted| == |s.posted| + 1 && n.posted[..|s.posted|] == s.posted && PostedOk(n, n.posted[|s.posted|])
      && forall j :: 0 <= j < |s.posted| ==> s.posted[j].record != n.posted[|s.posted|].record
  {
    assert SubmitOk(s, id);
    forall j | 0 <= j < |s.posted|
      ensures s.posted[j].record != s.submits[id].record
    {
      assert PostedOk(s, s.posted[j]);
    }
  }

  lemma PostedKeeps(s: Client, step: Step)
    requires Safe(s) && Enabled(s, step)
    ensures var n := Next(s, step);
      && (forall i :: 0 <= i < |n.posted| ==> PostedOk(n, n.posted[i]))
      && (forall i, j :: 0 <= i < j < |n.posted| ==> n.posted[i].record != n.posted[j].record)
  {
    hide Next, Enabled, PostedOk, SubmitOk, Heap, Grows;
    var n := Next(s, step);
    RecordsGrow(s, step);
    if step.Transmit? && step.ok {
      TransmitPosts(s, step.id);
    } else {
      PostedChange(s, step);
    }
    forall i | 0 <= i < |s.posted|
      ensures PostedOk(n, s.posted[i])
    {
      PostedFrame(s, n, s.posted[i]);
    }
    forall i | 0 <= i < |n.posted|
      ensures PostedOk(n, n.posted[i])
    {
      if i < |s.posted| {
        assert n.posted[i] == s.posted[i];
      }
    }
  }

  lemma StepSafe(s: Client, step: Step)
    requires Safe(s) && Enabled(s, step)
    ensures Safe(Next(s, step))
  {
    hide Next, Enabled, SubmitOk, PostedOk, Heap;
    var n := Next(s, step);
    HeapKeeps(s, step);
    forall id | id in n.submits
      ensures SubmitOk(n, id)
    {
      SubmitKeeps(s, step, id);
    }
    PostedKeeps(s, step);
  }

  lemma {:induction false} RunSafe(s: Client, steps: seq<Step>)
    requires Safe(s) && Legal(s, steps)
    ensures Safe(After(s, steps)) && Grows(s.records, After(s, steps).records)
    decreases |steps|
  {
    hide Safe, Enabled, Next;
    if steps != [] {
      StepSafe(s, steps[0]);
      RecordsGrow(s, steps[0]);
      RunSafe(Next(s, steps[0]), steps[1..]);
    }
  }

  lemma InitialSafe(sends: seq<Entry<Body>>, notes: seq<Entry<Note>>, offered: set<string>)
    ensures Safe(Initial(sends, notes, offered))
  {
  }

  /** Submit safety: no pending record is sent twice in its process, and each goes to the room and, through its
      own bind, to the partner that the record names; a record without a destination is never sent. */
  lemma SubmitSafety(sends: seq<Entry<Body>>, notes: seq<Entry<Note>>, offered: set<string>, steps: seq<Step>)
    requires Legal(Initial(sends, notes, offered), steps)
    ensures var s := After(Initial(sends, notes, offered), steps);
      && (forall i, j :: 0 <= i < j < |s.posted| ==> s.posted[i].record != s.posted[j].record)
      && forall i :: 0 <= i < |s.posted| ==>
           var p := s.posted[i];
           p.record < |s.records| && s.records[p.record].id == p.id
           && s.records[p.record].body.destination == Some(Destination(p.partner, p.room))
  {
    hide Next, Enabled;
    InitialSafe(sends, notes, offered);
    RunSafe(Initial(sends, notes, offered), steps);
    var s := After(Initial(sends, notes, offered), steps);
    forall i | 0 <= i < |s.posted|
      ensures PostedOk(s, s.posted[i])
    {
    }
  }

  // ---------- across crashes ----------

  /** Everything stored or in memory goes back to a send that was asked for, or to the first store. */
  predicate Traced(s: Client) {
    && (forall i :: 0 <= i < |s.records| ==> (s.records[i].id, s.records[i].body) in s.calls)
    && (forall i :: 0 <= i < |s.sends| ==> (s.sends[i].id, s.sends[i].body) in s.calls)
  }

  lemma EntryTraced(s: Client, m: Mutation<Body>, i: nat)
    requires Traced(s) && i < |Mutate(s.sends, m)| && (m.Put? ==> (m.entry.id, m.entry.body) in s.calls)
    ensures (Mutate(s.sends, m)[i].id, Mutate(s.sends, m)[i].body) in s.calls
  {
    hide Without, Marked;
    var e := Mutate(s.sends, m)[i];
    match m {
      case Put(entry) =>
        if i < |Without(s.sends, entry.id)| {
          assert Without(s.sends, entry.id)[i] == e;
          WithoutMember(s.sends, entry.id, e);
        }
      case Drop(id) => WithoutMember(s.sends, id, e);
      case Mark(id) => MarkedExact(s.sends, id);
    }
  }

  lemma RecordsTraced(s: Client, step: Step)
    requires Traced(s) && Enabled(s, step)
    ensures var n := Next(s, step); forall i :: 0 <= i < |n.records| ==> (n.records[i].id, n.records[i].body) in n.calls
  {
    hide Mutate, HasId, Indexed, Submitting, AckStep, NotifyStep;
    Frames(s, step);
    RecordsGrow(s, step);
    if step.AfterStore? || step.FlushPending? {
      SubmittingFrame(s, step);
    }
  }

  lemma SendsTraced(s: Client, step: Step)
    requires Traced(s) && Heap(s) && Enabled(s, step)
    ensures var n := Next(s, step); forall i :: 0 <= i < |n.sends| ==> (n.sends[i].id, n.sends[i].body) in n.calls
  {
    hide Mutate, HasId, Submitting, LifeStep, NotifyStep;
    Frames(s, step);
    var n := Next(s, step);
    forall i | 0 <= i < |n.sends|
      ensures (n.sends[i].id, n.sends[i].body) in n.calls
    {
      match step {
        case StoreSend(k, ok, submitted) => if ok { EntryTraced(s, Put(EntryOf(s.records[s.senders[k].record], submitted)), i); }
        case MarkSubmitted(id, ok) => if ok { EntryTraced(s, Mark(id), i); }
        case DropSend(id, ok) => if ok { EntryTraced(s, Drop(id), i); }
        case AfterStore(_, _) => SubmittingFrame(s, step);
        case FlushPending(_, _) => SubmittingFrame(s, step);
        case _ =>
      }
    }
  }

  lemma StepTraced(s: Client, step: Step)
    requires Traced(s) && Safe(s) && Enabled(s, step)
    ensures Traced(Next(s, step))
  {
    hide Next, Enabled;
    RecordsTraced(s, step);
    SendsTraced(s, step);
  }

  lemma {:induction false} RunTraced(s: Client, steps: seq<Step>)
    requires Traced(s) && Safe(s) && Legal(s, steps)
    ensures Traced(After(s, steps))
    decreases |steps|
  {
    hide Safe, Traced, Enabled, Next;
    if steps != [] {
      StepSafe(s, steps[0]);
      StepTraced(s, steps[0]);
      RunTraced(Next(s, steps[0]), steps[1..]);
    }
  }

  /** Whatever is sent, in this process or in a later one, is a send that was asked for with exactly this room
      and partner, or that was already stored with them. */
  lemma SentAsAsked(sends: seq<Entry<Body>>, notes: seq<Entry<Note>>, offered: set<string>, steps: seq<Step>, i: nat)
    requires Legal(Initial(sends, notes, offered), steps) && i < |After(Initial(sends, notes, offered), steps).posted|
    ensures var s := After(Initial(sends, notes, offered), steps);
      var p := s.posted[i];
      exists thread :: (p.id, Body(thread, Some(Destination(p.partner, p.room)))) in s.calls
  {
    hide Next, Enabled;
    var first := Initial(sends, notes, offered);
    InitialSafe(sends, notes, offered);
    assert Traced(first);
    RunSafe(first, steps);
    RunTraced(first, steps);
    var s := After(first, steps);
    var p := s.posted[i];
    assert PostedOk(s, p);
    var r := s.records[p.record];
    assert r.body == Body(r.body.thread, Some(Destination(p.partner, p.room)));
  }

  /** The record that a call of submitPending is about. */
  function Submitted(s: Client, step: Step): nat
    requires Enabled(s, step) && (step.AfterStore? || step.FlushPending?)
  {
    if step.AfterStore? then s.senders[step.sender].record else s.pending[step.id]
  }

  /** A call of submitPending starts a task exactly for an unsent record with a destination, in a running process without
      a task for its id, when the prepared room is the recorded one and is bound to the recorded thread and partner. */
  lemma SubmitStartsIff(s: Client, step: Step, id: string)
    requires Enabled(s, step) && (step.AfterStore? || step.FlushPending?) && id !in s.submits
    ensures var r := s.records[Submitted(s, step)];
      id in Next(s, step).submits <==>
        && id == r.id && s.running && !r.submitted && r.body.destination.Some?
        && step.view.room == Some(r.body.destination.value.room)
        && step.view.thread == Some((r.body.thread, r.body.destination.value.partner))
    ensures id in Next(s, step).submits ==>
      Next(s, step).submits[id] == Submit(Submitted(s, step), s.records[Submitted(s, step)].body.destination.value.room, Binding)
  {
  }

  /** A process starts, and a flush loads, exactly from a queue of at most 256 records. */
  lemma LoadsIff(s: Client)
    ensures Enabled(s, Boot) <==> !s.running && |s.sends| <= 256
    ensures Enabled(s, LoadNotes) <==> s.running && |s.notes| <= 256
  {
  }
}
