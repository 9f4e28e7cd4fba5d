/** What every run of the delivery machine keeps, over any interleaving and any crashes and restarts. */
module DeliveryRuns {
  import opened Wrappers
  import opened OutboxRecords
  import opened Delivery

  // ---------- the queues ----------

  lemma WithoutIds<B>(items: seq<Entry<B>>, id: string, other: string)
    ensures HasId(Without(items, id), other) <==> HasId(items, other) && other != id
  {
    var rest := Without(items, id);
    if HasId(rest, other) {
      var i :| 0 <= i < |rest| && rest[i].id == other;
      WithoutMember(items, id, rest[i]);
    }
    if HasId(items, other) && other != id {
      var i :| 0 <= i < |items| && items[i].id == other;
      WithoutMember(items, id, items[i]);
      assert items[i] in rest;
    }
  }

  lemma PutIds<B>(items: seq<Entry<B>>, e: Entry<B>, other: string)
    ensures HasId(Mutate(items, Put(e)), other) <==> HasId(items, other) || other == e.id
  {
    var rest := Without(items, e.id);
    var all := rest + [e];
    WithoutIds(items, e.id, other);
    if HasId(rest, other) {
      var i :| 0 <= i < |rest| && rest[i].id == other;
      assert all[i].id == other;
    }
    assert all[|rest|] == e;
    if HasId(all, other) {
      var i :| 0 <= i < |all| && all[i].id == other;
      if i < |rest| {
        assert rest[i].id == other;
      }
    }
  }

  lemma MarkIds<B>(items: seq<Entry<B>>, id: string, other: string)
    ensures HasId(Mutate(items, Mark(id)), other) <==> HasId(items, other)
  {
    MarkedExact(items, id);
    var marked := Marked(items, id);
    if HasId(items, other) {
      var i :| 0 <= i < |items| && items[i].id == other;
      assert marked[i].id == other;
    }
    if HasId(marked, other) {
      var i :| 0 <= i < |marked| && marked[i].id == other;
      assert items[i].id == other;
    }
  }

  // ---------- what a step leaves alone ----------

  lemma LifeFrame(s: Client, step: Step)
    requires IsLifeStep(step) && Enabled(s, step)
    ensures var n := LifeStep(s, step);
      n == s.(running := n.running, born := n.born, records := n.records, pending := n.pending, senders := n.senders,
              submits := n.submits, acks := n.acks, notifying := n.notifying, flushes := n.flushes,
              sendLock := n.sendLock, noteLock := n.noteLock)
  {
    hide Indexed;
  }

  lemma SenderFrame(s: Client, step: Step)
    requires IsSenderStep(step) && Enabled(s, step)
    ensures var n := SenderStep(s, step);
      n == s.(records := n.records, senders := n.senders, calls := n.calls, sends := n.sends, enqueued := n.enqueued,
              pending := n.pending, submits := n.submits, sendLock := n.sendLock)
  {
    hide Mutate;
  }

  lemma SubmitFrame(s: Client, step: Step)
    requires IsSubmitStep(step) && Enabled(s, step)
    ensures var n := SubmitStep(s, step);
      n == s.(submits := n.submits, posted := n.posted, records := n.records, pending := n.pending, sends := n.sends,
              sendLock := n.sendLock, offered := n.offered)
  {
    hide Mutate;
  }

  lemma AckFrame(s: Client, step: Step)
    requires IsAckStep(step) && Enabled(s, step)
    ensures var n := AckStep(s, step);
      n == s.(acks := n.acks, notes := n.notes, noted := n.noted, sends := n.sends, pending := n.pending,
              sendLock := n.sendLock, noteLock := n.noteLock)
  {
    hide Mutate;
  }

  lemma AskedFrame(s: Client, id: string)
    ensures var n := Asked(s, id); n == s.(accepted := n.accepted, asked := n.asked)
  {
  }

  lemma VisitedFrame(s: Client, f: nat, id: string)
    requires f < |s.flushes|
    ensures var n := Visited(s, f, id); n == s.(flushes := n.flushes, notifying := n.notifying)
  {
  }

  lemma NotifyFrame(s: Client, step: Step)
    requires IsNotifyStep(step) && Enabled(s, step)
    ensures var n := NotifyStep(s, step);
      n == s.(notifying := n.notifying, flushes := n.flushes, accepted := n.accepted, asked := n.asked, notes := n.notes,
              noteLock := n.noteLock)
  {
    hide Mutate, Asked, Visited;
    match step {
      case Notify(f, reached, ok) =>
        var id := s.flushes[f].visit.id;
        AskedFrame(s, id);
        var t := if reached then Asked(s, id) else s;
        VisitedFrame(t, f, id);
      case DropNote(f, ok) =>
        var id := s.flushes[f].visit.id;
        var t := s.(noteLock := s.noteLock[1..]);
        VisitedFrame(if ok then t.(notes := Mutate(t.notes, Drop(id))) else t, f, id);
      case _ =>
    }
  }

  /** Each field changes only in the steps of some of the functions. */
  lemma Frames(s: Client, step: Step)
    requires Enabled(s, step)
    ensures var n := Next(s, step);
      && (IsNotifyStep(step) || (n.accepted == s.accepted && n.asked == s.asked))
      && (IsNotifyStep(step) || IsAckStep(step) || n.notes == s.notes)
      && (IsAckStep(step) || n.noted == s.noted)
      && (IsSubmitStep(step) || (n.posted == s.posted && n.offered == s.offered))
      && (IsSenderStep(step) || (n.calls == s.calls && n.enqueued == s.enqueued))
      && (IsSenderStep(step) || IsSubmitStep(step) || IsAckStep(step) || n.sends == s.sends)
    ensures var n := Next(s, step);
      !IsLifeStep(step) ==>
      && n.born == s.born && n.running == s.running
      && (IsSenderStep(step) || n.senders == s.senders)
      && (IsAckStep(step) || n.acks == s.acks)
      && (IsNotifyStep(step) || (n.notifying == s.notifying && n.flushes == s.flushes))
      && (IsSenderStep(step) || IsSubmitStep(step) || (n.records == s.records && n.submits == s.submits))
      && (IsSenderStep(step) || IsSubmitStep(step) || IsAckStep(step) || (n.pending == s.pending && n.sendLock == s.sendLock))
      && (IsAckStep(step) || IsNotifyStep(step) || n.noteLock == s.noteLock)
  {
    hide LifeStep, SenderStep, SubmitStep, AckStep, NotifyStep;
    if IsLifeStep(step) {
      LifeFrame(s, step);
    } else if IsSenderStep(step) {
      SenderFrame(s, step);
    } else if IsSubmitStep(step) {
      SubmitFrame(s, step);
    } else if IsAckStep(step) {
      AckFrame(s, step);
    } else {
      NotifyFrame(s, step);
    }
  }

  // ---------- conservation ----------

  /** The id is in one of the durable queues, or the endpoint has accepted it. */
  predicate Accounted(s: Client, id: string) { HasId(s.sends, id) || Settled(s, id) }

  predicate Settled(s: Client, id: string) { HasId(s.notes, id) || id in s.accepted }

  ghost predicate Conserved(s: Client) {
    && (forall id :: id in s.enqueued ==> Accounted(s, id))
    && (forall id :: id in s.acks && !s.acks[id].phase.Noting? ==> Settled(s, id) && id in s.noted)
    && (forall f :: 0 <= f < |s.flushes| ==> FlushOk(s, s.flushes[f]))
    && (forall id :: id in s.accepted ==> id in s.noted)
    && (forall id :: HasId(s.notes, id) ==> id in s.noted)
  }

  /** A flush visits ids that were stored, and clears only accepted ones. */
  predicate FlushOk(s: Client, f: Flush) {
    && (forall i :: 0 <= i < |f.rest| ==> f.rest[i] in s.noted)
    && (f.visit.Requesting? ==> f.visit.id in s.noted)
    && (f.visit.Clearing? ==> f.visit.id in s.accepted)
  }

  lemma DropIds<B>(items: seq<Entry<B>>, id: string, other: string)
    ensures HasId(Mutate(items, Drop(id)), other) <==> HasId(items, other) && other != id
  {
    WithoutIds(items, id, other);
  }

  lemma SendsIds(s: Client, step: Step, id: string)
    requires Enabled(s, step)
    ensures HasId(s.sends, id) ==> HasId(Next(s, step).sends, id) || (step == DropSend(id, true))
    ensures id in Next(s, step).enqueued ==> id in s.enqueued || HasId(Next(s, step).sends, id)
  {
    hide Mutate, HasId, Submitting;
    Frames(s, step);
    match step {
      case StoreSend(i, ok, submitted) => PutIds(s.sends, EntryOf(s.records[s.senders[i].record], submitted), id);
      case MarkSubmitted(x, ok) => MarkIds(s.sends, x, id);
      case DropSend(x, ok) => DropIds(s.sends, x, id);
      case AfterStore(_, _) => SubmittingFrame(s, step);
      case FlushPending(_, _) => SubmittingFrame(s, step);
      case _ =>
    }
  }

  /** A call of submitPending changes nothing but the table of tasks. */
  lemma SubmittingFrame(s: Client, step: Step)
    requires Enabled(s, step) && (step.AfterStore? || step.FlushPending?)
    ensures var n := Next(s, step); n == s.(submits := n.submits, senders := n.senders, pending := n.pending)
  {
    hide Mutate, HasId;
  }

  /** The step removes the notification of `id` from its store. */
  predicate Clears(s: Client, step: Step, id: string) {
    step.DropNote? && step.ok && step.flush < |s.flushes| && s.flushes[step.flush].visit == Clearing(id)
  }

  lemma NotesIds(s: Client, step: Step, id: string)
    requires Enabled(s, step)
    ensures HasId(s.notes, id) ==> HasId(Next(s, step).notes, id) || Clears(s, step, id)
    ensures HasId(Next(s, step).notes, id) ==> HasId(s.notes, id) || step == StoreNote(id, true)
    ensures step == StoreNote(id, true) ==> HasId(Next(s, step).notes, id)
    ensures id in Next(s, step).noted <==> id in s.noted || step == StoreNote(id, true)
    ensures s.accepted <= Next(s, step).accepted
  {
    hide Mutate, HasId, LifeStep, SenderStep, SubmitStep, AckStep, NotifyStep;
    Frames(s, step);
    if IsAckStep(step) {
      AckNotes(s, step, id);
    } else if IsNotifyStep(step) {
      NotifyNotes(s, step, id);
    }
  }

  lemma AckNotes(s: Client, step: Step, id: string)
    requires Enabled(s, step) && IsAckStep(step)
    ensures HasId(AckStep(s, step).notes, id) <==> HasId(s.notes, id) || step == StoreNote(id, true)
    ensures id in AckStep(s, step).noted <==> id in s.noted || step == StoreNote(id, true)
  {
    hide Mutate, HasId;
    if step.StoreNote? && step.ok {
      PutIds(s.notes, Entry(step.id, s.acks[step.id].note, false), id);
    }
  }

  lemma NotifyNotes(s: Client, step: Step, id: string)
    requires Enabled(s, step) && IsNotifyStep(step)
    ensures var n := NotifyStep(s, step);
      && (HasId(n.notes, id) <==> HasId(s.notes, id) && !Clears(s, step, id)) && s.accepted <= n.accepted
  {
    hide Mutate, HasId;
    if step.DropNote? && step.ok {
      DropIds(s.notes, s.flushes[step.flush].visit.id, id);
    }
  }

  /** One step keeps an accounted id accounted and a settled id settled. */
  lemma StepAccounts(s: Client, step: Step, id: string)
    requires Conserved(s) && Enabled(s, step)
    ensures Settled(s, id) ==> Settled(Next(s, step), id)
    ensures Accounted(s, id) ==> Accounted(Next(s, step), id)
  {
    hide Next, HasId;
    NotesIds(s, step, id);
    SendsIds(s, step, id);
  }

  lemma AcksChange(s: Client, step: Step, id: string)
    requires Enabled(s, step) && id in Next(s, step).acks && !Next(s, step).acks[id].phase.Noting?
    ensures step == StoreNote(id, true) || (id in s.acks && !s.acks[id].phase.Noting?)
  {
    hide Mutate, HasId, SenderStep, SubmitStep, NotifyStep, Indexed;
    Frames(s, step);
  }

  lemma StepAcks(s: Client, step: Step, id: string)
    requires Conserved(s) && Enabled(s, step) && id in Next(s, step).acks && !Next(s, step).acks[id].phase.Noting?
    ensures Settled(Next(s, step), id) && id in Next(s, step).noted
  {
    hide Next, HasId;
    AcksChange(s, step, id);
    NotesIds(s, step, id);
    if step != StoreNote(id, true) {
      StepAccounts(s, step, id);
    }
  }

  lemma StepConserves(s: Client, step: Step)
    requires Conserved(s) && Enabled(s, step)
    ensures Conserved(Next(s, step))
  {
    hide Next, HasId, Accounted, Settled;
    var n := Next(s, step);
    forall id | id in n.enqueued
      ensures Accounted(n, id)
    {
      SendsIds(s, step, id);
      if id in s.enqueued {
        StepAccounts(s, step, id);
      } else {
        StoredAccounted(n, id);
      }
    }
    forall id | id in n.acks && !n.acks[id].phase.Noting?
      ensures Settled(n, id) && id in n.noted
    {
      StepAcks(s, step, id);
    }
    forall id | HasId(n.notes, id)
      ensures id in n.noted
    {
      NotesIds(s, step, id);
    }
    StepFlushes(s, step);
    StepAccepted(s, step);
  }

  lemma StoredAccounted(s: Client, id: string)
    requires HasId(s.sends, id)
    ensures Accounted(s, id)
  {
  }

  lemma StepAccepted(s: Client, step: Step)
    requires Conserved(s) && Enabled(s, step)
    ensures forall id :: id in Next(s, step).accepted ==> id in Next(s, step).noted
  {
    hide Mutate, HasId, LifeStep, SenderStep, SubmitStep, AckStep;
    Frames(s, step);
    NotedGrows(s, step);
    if step.Notify? {
      assert FlushOk(s, s.flushes[step.flush]);
    }
  }

  lemma FlushGrows(s: Client, n: Client, f: Flush)
    requires FlushOk(s, f) && s.noted <= n.noted && s.accepted <= n.accepted
    ensures FlushOk(n, f)
  {
  }

  lemma LoadFlush(s: Client, f: nat)
    requires Conserved(s) && Enabled(s, LoadNotes) && f < |NotifyStep(s, LoadNotes).flushes|
    ensures FlushOk(NotifyStep(s, LoadNotes), NotifyStep(s, LoadNotes).flushes[f])
  {
    ListedNotes(s);
    if f < |s.flushes| {
      assert FlushOk(s, s.flushes[f]);
    }
  }

  lemma DeliverFlush(s: Client, g: nat, f: nat)
    requires Conserved(s) && Enabled(s, Deliver(g)) && f < |NotifyStep(s, Deliver(g)).flushes|
    ensures FlushOk(NotifyStep(s, Deliver(g)), NotifyStep(s, Deliver(g)).flushes[f])
  {
    assert FlushOk(s, s.flushes[f]);
  }

  lemma NotifyFlush(s: Client, step: Step, f: nat)
    requires Conserved(s) && Enabled(s, step) && step.Notify? && f < |NotifyStep(s, step).flushes|
    ensures FlushOk(NotifyStep(s, step), NotifyStep(s, step).flushes[f])
  {
    hide FlushOk;
    var g := step.flush;
    var n := NotifyStep(s, step);
    assert FlushOk(s, s.flushes[f]);
    if f == g {
      VisitEnds(s, n, s.flushes[f], if step.ok then Clearing(s.flushes[f].visit.id) else Between);
    } else {
      FlushGrows(s, n, s.flushes[f]);
    }
  }

  lemma VisitEnds(s: Client, n: Client, f: Flush, visit: Visit)
    requires FlushOk(s, f) && s.noted <= n.noted && s.accepted <= n.accepted
    requires visit.Between? || (visit.Clearing? && visit.id in n.accepted)
    ensures FlushOk(n, f.(visit := visit))
  {
  }

  lemma DropFlush(s: Client, step: Step, f: nat)
    requires Conserved(s) && Enabled(s, step) && step.DropNote? && f < |NotifyStep(s, step).flushes|
    ensures FlushOk(NotifyStep(s, step), NotifyStep(s, step).flushes[f])
  {
    hide Mutate;
    assert FlushOk(s, s.flushes[f]);
  }

  lemma ListedNotes(s: Client)
    requires Conserved(s)
    ensures forall i :: 0 <= i < |IdList(s.notes)| ==> IdList(s.notes)[i] in s.noted
  {
    forall i | 0 <= i < |IdList(s.notes)|
      ensures IdList(s.notes)[i] in s.noted
    {
      assert HasId(s.notes, s.notes[i].id);
    }
  }

  lemma StepFlushes(s: Client, step: Step)
    requires Conserved(s) && Enabled(s, step)
    ensures forall f :: 0 <= f < |Next(s, step).flushes| ==> FlushOk(Next(s, step), Next(s, step).flushes[f])
  {
    hide Mutate, HasId, SenderStep, SubmitStep, AckStep, NotifyStep, FlushOk, Indexed;
    var n := Next(s, step);
    Frames(s, step);
    NotesIds(s, step, "");
    NotedGrows(s, step);
    forall f | 0 <= f < |n.flushes|
      ensures FlushOk(n, n.flushes[f])
    {
      if step.LoadNotes? {
        LoadFlush(s, f);
      } else if step.Deliver? {
        DeliverFlush(s, step.flush, f);
      } else if step.Notify? {
        NotifyFlush(s, step, f);
      } else if step.DropNote? {
        DropFlush(s, step, f);
      } else if !step.Crash? {
        FlushGrows(s, n, s.flushes[f]);
      }
    }
  }

  lemma {:induction false} RunConserves(s: Client, steps: seq<Step>)
    requires Conserved(s) && Legal(s, steps)
    ensures Conserved(After(s, steps))
    decreases |steps|
  {
    hide Conserved, Enabled, Next;
    if steps != [] {
      StepConserves(s, steps[0]);
      RunConserves(Next(s, steps[0]), steps[1..]);
    }
  }

  lemma InitialConserved(sends: seq<Entry<Body>>, notes: seq<Entry<Note>>, offered: set<string>)
    ensures Conserved(Initial(sends, notes, offered))
  {
  }

  /** Crash-safe conservation: after any run every id whose enqueue completed is in the send outbox, in the
      notification outbox, or accepted by the notify endpoint. */
  lemma NothingIsLost(sends: seq<Entry<Body>>, notes: seq<Entry<Note>>, offered: set<string>, steps: seq<Step>, id: string)
    requires Legal(Initial(sends, notes, offered), steps) && id in After(Initial(sends, notes, offered), steps).enqueued
    ensures var s := After(Initial(sends, notes, offered), steps);
      HasId(s.sends, id) || HasId(s.notes, id) || id in s.accepted
  {
    InitialConserved(sends, notes, offered);
    RunConserves(Initial(sends, notes, offered), steps);
    assert Accounted(After(Initial(sends, notes, offered), steps), id);
  }

  /** The endpoint accepts only what had become durable in the notification outbox. */
  lemma AcceptedWasDurable(sends: seq<Entry<Body>>, notes: seq<Entry<Note>>, offered: set<string>, steps: seq<Step>, id: string)
    requires Legal(Initial(sends, notes, offered), steps) && id in After(Initial(sends, notes, offered), steps).accepted
    ensures id in After(Initial(sends, notes, offered), steps).noted
  {
    InitialConserved(sends, notes, offered);
    RunConserves(Initial(sends, notes, offered), steps);
  }

  lemma NotedGrows(s: Client, step: Step)
    requires Enabled(s, step)
    ensures s.noted <= Next(s, step).noted
  {
    hide LifeStep, SenderStep, SubmitStep, NotifyStep, Mutate;
    Frames(s, step);
  }

  // ---------- a removal and its acknowledgement ----------

  /** The state behind the first `k` steps. */
  function StateAt(s: Client, steps: seq<Step>, k: nat): Client
    requires Legal(s, steps) && k <= |steps|
    decreases k
  {
    if k == 0 then s else StateAt(Next(s, steps[0]), steps[1..], k - 1)
  }

  lemma {:induction false} StateNext(s: Client, steps: seq<Step>, k: nat)
    requires Legal(s, steps) && k < |steps|
    ensures Enabled(StateAt(s, steps, k), steps[k]) && StateAt(s, steps, k + 1) == Next(StateAt(s, steps, k), steps[k])
    decreases k
  {
    hide Enabled, Next;
    if k > 0 {
      StateNext(Next(s, steps[0]), steps[1..], k - 1);
    }
  }

  /** The acknowledgement of `id` removes the stored send now. */
  predicate IsDropping(s: Client, id: string) { id in s.acks && s.acks[id].phase.Dropping? }

  /** An acknowledgement gets there by storing its note, and does not change before it is through. */
  lemma DroppingFrom(s: Client, step: Step, id: string)
    requires Enabled(s, step) && IsDropping(Next(s, step), id)
    ensures if step == StoreNote(id, true)
      then Entry(id, Next(s, step).acks[id].note, false) in Next(s, step).notes
      else IsDropping(s, id) && Next(s, step).acks[id] == s.acks[id]
  {
    hide HasId, SenderStep, SubmitStep, NotifyStep, Indexed, Without;
    Frames(s, step);
  }

  /** From step `j` to step `k` one acknowledgement of `id` has stored its note and waits to remove the send. */
  ghost predicate NotedBy(s: Client, steps: seq<Step>, j: nat, k: nat, id: string)
    requires Legal(s, steps) && k <= |steps|
  {
    && j < k && steps[j] == StoreNote(id, true) && IsDropping(StateAt(s, steps, k), id)
    && (forall m :: j < m <= k ==> IsDropping(StateAt(s, steps, m), id) && StateAt(s, steps, m).acks[id] == StateAt(s, steps, k).acks[id])
    && Entry(id, StateAt(s, steps, k).acks[id].note, false) in StateAt(s, steps, j + 1).notes
  }

  lemma {:induction false} DroppingSince(s: Client, steps: seq<Step>, k: nat, id: string) returns (j: nat)
    requires Legal(s, steps) && k <= |steps| && !IsDropping(s, id) && IsDropping(StateAt(s, steps, k), id)
    ensures NotedBy(s, steps, j, k, id)
    decreases k
  {
    hide Enabled, Next, IsDropping, Legal;
    StateNext(s, steps, k - 1);
    DroppingFrom(StateAt(s, steps, k - 1), steps[k - 1], id);
    if steps[k - 1] == StoreNote(id, true) {
      j := k - 1;
    } else {
      j := DroppingSince(s, steps, k - 1, id);
    }
  }

  /** A stored send stays in its outbox until its notification is durable: each removal, at any step of any run, is by
      an acknowledgement that has stored its own note before, in an earlier step of the same process. As long as the
      notification queue refuses that note, because it is full or for another reason, the send is not removed. */
  lemma StaysUntilNoted(sends: seq<Entry<Body>>, notes: seq<Entry<Note>>, offered: set<string>, steps: seq<Step>, k: nat, id: string)
      returns (j: nat)
    requires Legal(Initial(sends, notes, offered), steps) && k < |steps|
    requires HasId(StateAt(Initial(sends, notes, offered), steps, k).sends, id)
    requires !HasId(StateAt(Initial(sends, notes, offered), steps, k + 1).sends, id)
    ensures steps[k] == DropSend(id, true) && NotedBy(Initial(sends, notes, offered), steps, j, k, id)
  {
    hide Next, HasId, Legal;
    var s := Initial(sends, notes, offered);
    StateNext(s, steps, k);
    SendsIds(StateAt(s, steps, k), steps[k], id);
    assert IsDropping(StateAt(s, steps, k), id);
    j := DroppingSince(s, steps, k, id);
  }
}
