/** What can still happen from a reachable state: the facts and the building blocks of continuations. */
module DeliveryFutures {
  import opened Wrappers
  import opened OutboxRecords
  import opened Delivery
  import opened DeliveryRuns
  import opened DeliverySends
  import opened DeliveryLocks
  import opened DeliveryOnce

  // ---------- more invariants ----------

  /** A stopped process has nothing in memory. */
  predicate Idle(s: Client) {
    !s.running ==>
      s.pending == map[] && s.acks == map[] && s.flushes == [] && s.notifying == {} && s.sendLock == [] && s.noteLock == []
  }

  predicate Bound(s: Client, k: nat)
    requires k < |s.senders|
  {
    s.senders[k].record < |s.records| && s.records[s.senders[k].record].body.destination.Some?
  }

  predicate SendersBound(s: Client) { forall k :: 0 <= k < |s.senders| ==> Bound(s, k) }

  function VisitOf(f: Flush): Option<string> { if f.visit.Between? then None else Some(f.visit.id) }

  predicate Visits(s: Client, id: string) { exists f :: 0 <= f < |s.flushes| && VisitOf(s.flushes[f]) == Some(id) }

  /** An id of pendingNotificationIds is being delivered by some flush. */
  predicate Visiting(s: Client) { forall id :: id in s.notifying ==> Visits(s, id) }

  /** Whatever was submitted, acknowledged or got as far as its native call has been offered to the native side. */
  predicate Offers(s: Client) {
    && (forall id :: id in s.acks ==> id in s.offered)
    && (forall id :: id in s.submits && !s.submits[id].phase.Binding? ==> id in s.offered)
    && (forall i :: 0 <= i < |s.records| && s.records[i].submitted ==> s.records[i].id in s.offered)
    && (forall i :: 0 <= i < |s.sends| && s.sends[i].submitted ==> s.sends[i].id in s.offered)
  }

  predicate MarkedOut(s: Client, id: string)
    requires id in s.submits
  {
    s.submits[id].phase.Marking? ==> Out(s, s.submits[id].record)
  }

  /** A task that marks has sent its record. */
  predicate MarkingOut(s: Client) { forall id :: id in s.submits ==> MarkedOut(s, id) }

  /** Whatever is being acknowledged is in memory. */
  predicate AcksHeld(s: Client) { forall id :: id in s.acks ==> id in s.pending }

  predicate ListsOk(s: Client) { Fits(s.sends) && Fits(s.notes) && DistinctIds(s.sends) && DistinctIds(s.notes) }

  ghost predicate Sound(s: Client) {
    && Safe(s) && Idle(s) && SendersBound(s) && Visiting(s) && ListsOk(s)
    && SendLockOk(s) && NoteLockOk(s) && Offers(s) && MarkingOut(s) && AcksHeld(s)
  }

  lemma StepIdle(s: Client, step: Step)
    requires Safe(s) && Idle(s) && Enabled(s, step)
    ensures Idle(Next(s, step))
  {
    hide Mutate, HasId, Indexed, SenderStep, SubmitStep, AckStep, NotifyStep, SubmitOk, PostedOk;
    Frames(s, step);
    if !s.running && !IsLifeStep(step) {
      StoppedIsIdle(s, step);
    }
  }

  /** A stopped process takes no step but to start. */
  lemma StoppedIsIdle(s: Client, step: Step)
    requires Safe(s) && Idle(s) && !s.running && !IsLifeStep(step)
    ensures !Enabled(s, step)
  {
    hide Mutate, HasId;
  }

  lemma OfferedGrows(s: Client, step: Step)
    requires Enabled(s, step)
    ensures s.offered <= Next(s, step).offered
  {
    hide Mutate, HasId, LifeStep, SenderStep, AckStep, NotifyStep;
    Frames(s, step);
  }

  lemma OffersAcks(s: Client, step: Step)
    requires Offers(s) && Enabled(s, step)
    ensures forall id :: id in Next(s, step).acks ==> id in Next(s, step).offered
  {
    hide Mutate, HasId, Indexed, SenderStep, SubmitStep, NotifyStep;
    Frames(s, step);
    OfferedGrows(s, step);
  }

  lemma OffersSubmits(s: Client, step: Step, id: string)
    requires Offers(s) && Enabled(s, step) && id in Next(s, step).submits && !Next(s, step).submits[id].phase.Binding?
    ensures id in Next(s, step).offered
  {
    hide Mutate, HasId, Indexed, SenderStep, SubmitStep, AckStep, NotifyStep;
    Frames(s, step);
    OfferedGrows(s, step);
    if IsSenderStep(step) {
      SenderOffers(s, step, id);
    } else if IsSubmitStep(step) {
      SubmitOffers(s, step, id);
    }
  }

  lemma SenderOffers(s: Client, step: Step, id: string)
    requires Enabled(s, step) && IsSenderStep(step) && id in SenderStep(s, step).submits && !SenderStep(s, step).submits[id].phase.Binding?
    ensures id in s.submits && !s.submits[id].phase.Binding?
  {
    hide Mutate, HasId;
  }

  lemma SubmitOffers(s: Client, step: Step, id: string)
    requires Enabled(s, step) && IsSubmitStep(step) && id in SubmitStep(s, step).submits && !SubmitStep(s, step).submits[id].phase.Binding?
    ensures id in SubmitStep(s, step).offered || (id in s.submits && !s.submits[id].phase.Binding?)
  {
    hide Mutate, HasId;
  }

  lemma OffersRecords(s: Client, step: Step)
    requires Offers(s) && Safe(s) && Enabled(s, step)
    ensures var n := Next(s, step); forall i :: 0 <= i < |n.records| && n.records[i].submitted ==> n.records[i].id in n.offered
  {
    hide Mutate, HasId, Indexed, Submitting, AckStep, NotifyStep, PostedOk;
    Frames(s, step);
    OfferedGrows(s, step);
    if step.AfterStore? || step.FlushPending? {
      SubmittingFrame(s, step);
    } else if step.Transmit? {
      assert SubmitOk(s, step.id);
    }
  }

  lemma EntryOffered(s: Client, m: Mutation<Body>, i: nat)
    requires Offers(s) && i < |Mutate(s.sends, m)| && Mutate(s.sends, m)[i].submitted
    requires m.Put? && m.entry.submitted ==> m.entry.id in s.offered
    requires m.Mark? ==> m.id in s.offered
    ensures Mutate(s.sends, m)[i].id in s.offered
  {
    hide Without, Marked;
    var e := Mutate(s.sends, m)[i];
    match m {
      case Put(entry) =>
        if i < |Without(s.sends, entry.id)| {
          assert Without(s.sends, entry.id)[i] == e;
          WithoutMember(s.sends, entry.id, e);
        }
      case Drop(id) => WithoutMember(s.sends, id, e);
      case Mark(id) => MarkedExact(s.sends, id);
    }
  }

  lemma OffersSends(s: Client, step: Step)
    requires Offers(s) && Enabled(s, step)
    ensures var n := Next(s, step); forall i :: 0 <= i < |n.sends| && n.sends[i].submitted ==> n.sends[i].id in n.offered
  {
    hide Next, Enabled, Mutate;
    OfferedGrows(s, step);
    var n := Next(s, step);
    if IsLifeStep(step) {
      Frames(s, step);
    } else if SendSettles(step) {
      SendSettled(s, step);
      var m := SendTaken(s, step);
      if m.Some? {
        OfferedTaken(s, step);
        forall i | 0 <= i < |n.sends| && n.sends[i].submitted
          ensures n.sends[i].id in n.offered
        {
          EntryOffered(s, m.value, i);
        }
      }
    } else {
      SendJoined(s, step);
    }
  }

  lemma OfferedTaken(s: Client, step: Step)
    requires Offers(s) && Enabled(s, step) && SendSettles(step) && SendTaken(s, step).Some?
    ensures var m := SendTaken(s, step).value;
      && (m.Put? && m.entry.submitted ==> m.entry.id in s.offered)
      && (m.Mark? ==> m.id in s.offered)
  {
    hide Mutate, HasId;
  }

  lemma StepOffers(s: Client, step: Step)
    requires Offers(s) && Safe(s) && Enabled(s, step)
    ensures Offers(Next(s, step))
  {
    hide Next, Enabled, Safe;
    var n := Next(s, step);
    OffersAcks(s, step);
    OffersRecords(s, step);
    OffersSends(s, step);
    forall id | id in n.submits && !n.submits[id].phase.Binding?
      ensures id in n.offered
    {
      OffersSubmits(s, step, id);
    }
  }

  lemma OutStays(s: Client, step: Step, i: nat)
    requires Safe(s) && Enabled(s, step) && Out(s, i)
    ensures Out(Next(s, step), i)
  {
    hide Next, Enabled, Safe;
    var n := Next(s, step);
    var k :| 0 <= k < |s.posted| && s.posted[k].record == i;
    if step.Transmit? && step.ok {
      TransmitPosts(s, step.id);
      assert n.posted[k] == n.posted[..|s.posted|][k];
    } else {
      PostedChange(s, step);
    }
    assert n.posted[k].record == i;
  }

  lemma MarkingFrom(s: Client, step: Step, id: string)
    requires Enabled(s, step) && id in Next(s, step).submits && Next(s, step).submits[id].phase.Marking?
    ensures step == Transmit(id, true)
         || (id in s.submits && s.submits[id].phase.Marking? && s.submits[id].record == Next(s, step).submits[id].record)
  {
    hide Mutate, HasId, Indexed, SenderStep, SubmitStep, AckStep, NotifyStep;
    Frames(s, step);
    if IsSenderStep(step) {
      SenderMarking(s, step, id);
    } else if IsSubmitStep(step) {
      SubmitMarking(s, step, id);
    }
  }

  lemma SenderMarking(s: Client, step: Step, id: string)
    requires Enabled(s, step) && IsSenderStep(step) && id in SenderStep(s, step).submits && SenderStep(s, step).submits[id].phase.Marking?
    ensures id in s.submits && s.submits[id] == SenderStep(s, step).submits[id]
  {
    hide Mutate, HasId;
  }

  lemma SubmitMarking(s: Client, step: Step, id: string)
    requires Enabled(s, step) && IsSubmitStep(step) && id in SubmitStep(s, step).submits && SubmitStep(s, step).submits[id].phase.Marking?
    ensures step == Transmit(id, true) || (id in s.submits && s.submits[id] == SubmitStep(s, step).submits[id])
  {
    hide Mutate, HasId;
  }

  lemma TransmitMarks(s: Client, id: string)
    requires Enabled(s, Transmit(id, true))
    ensures var n := Next(s, Transmit(id, true)); id in n.submits && Out(n, n.submits[id].record)
  {
    var n := Next(s, Transmit(id, true));
    assert n.posted[|s.posted|].record == n.submits[id].record;
  }

  lemma StepMarkingOut(s: Client, step: Step)
    requires Safe(s) && MarkingOut(s) && Enabled(s, step)
    ensures MarkingOut(Next(s, step))
  {
    hide Next, Enabled, Safe, Out;
    var n := Next(s, step);
    forall id | id in n.submits
      ensures MarkedOut(n, id)
    {
      if n.submits[id].phase.Marking? {
        MarkingFrom(s, step, id);
        if step == Transmit(id, true) {
          TransmitMarks(s, id);
        } else {
          assert MarkedOut(s, id);
          OutStays(s, step, s.submits[id].record);
        }
      }
    }
  }

  lemma StepAcksHeld(s: Client, step: Step)
    requires Idle(s) && AcksHeld(s) && Enabled(s, step)
    ensures AcksHeld(Next(s, step))
  {
    hide Mutate, HasId, Indexed, SenderStep, SubmitStep, NotifyStep;
    Frames(s, step);
    if IsSenderStep(step) || IsSubmitStep(step) {
      PendingGrows(s, step);
    }
  }

  lemma PendingGrows(s: Client, step: Step)
    requires Enabled(s, step) && (IsSenderStep(step) || IsSubmitStep(step))
    ensures forall id :: id in s.pending ==> id in Next(s, step).pending
  {
    hide Mutate, HasId;
  }

  lemma StepSendersBound(s: Client, step: Step)
    requires Safe(s) && SendersBound(s) && Enabled(s, step)
    ensures SendersBound(Next(s, step))
  {
    hide Mutate, HasId, Indexed, SubmitStep, AckStep, NotifyStep, SubmitOk, PostedOk, Visits, Submitting;
    Frames(s, step);
    RecordsGrow(s, step);
    var n := Next(s, step);
    if step.AfterStore? {
      AfterStoreSenders(s, step);
    }
    forall k | 0 <= k < |n.senders|
      ensures Bound(n, k)
    {
      if k < |s.senders| {
        assert Bound(s, k);
      }
    }
  }

  lemma VisitKept(s: Client, n: Client, f: nat, id: string)
    requires f < |s.flushes| && |n.flushes| == |s.flushes| && Visits(s, id)
    requires forall g :: 0 <= g < |s.flushes| && g != f ==> n.flushes[g] == s.flushes[g]
    requires VisitOf(s.flushes[f]) == Some(id) ==> VisitOf(n.flushes[f]) == Some(id)
    ensures Visits(n, id)
  {
    var g :| 0 <= g < |s.flushes| && VisitOf(s.flushes[g]) == Some(id);
    assert VisitOf(n.flushes[g]) == Some(id);
  }

  lemma LoadVisits(s: Client, id: string)
    requires Enabled(s, LoadNotes) && Visits(s, id)
    ensures Visits(NotifyStep(s, LoadNotes), id)
  {
    var g :| 0 <= g < |s.flushes| && VisitOf(s.flushes[g]) == Some(id);
    assert VisitOf(NotifyStep(s, LoadNotes).flushes[g]) == Some(id);
  }

  lemma DeliverVisits(s: Client, f: nat, id: string)
    requires Enabled(s, Deliver(f)) && Visiting(s) && id in NotifyStep(s, Deliver(f)).notifying
    ensures Visits(NotifyStep(s, Deliver(f)), id)
  {
    var n := NotifyStep(s, Deliver(f));
    if id in s.notifying {
      VisitKept(s, n, f, id);
    } else {
      assert VisitOf(n.flushes[f]) == Some(id);
    }
  }

  lemma NotifyVisits(s: Client, f: nat, reached: bool, ok: bool, id: string)
    requires Enabled(s, Notify(f, reached, ok)) && Visiting(s) && id in NotifyStep(s, Notify(f, reached, ok)).notifying
    ensures Visits(NotifyStep(s, Notify(f, reached, ok)), id)
  {
    hide Visits;
    VisitKept(s, NotifyStep(s, Notify(f, reached, ok)), f, id);
  }

  lemma DropVisits(s: Client, f: nat, ok: bool, id: string)
    requires Enabled(s, DropNote(f, ok)) && Visiting(s) && id in NotifyStep(s, DropNote(f, ok)).notifying
    ensures Visits(NotifyStep(s, DropNote(f, ok)), id)
  {
    hide Visits, Mutate;
    VisitKept(s, NotifyStep(s, DropNote(f, ok)), f, id);
  }

  lemma StepVisiting(s: Client, step: Step)
    requires Visiting(s) && Enabled(s, step)
    ensures Visiting(Next(s, step))
  {
    hide Mutate, HasId, Indexed, SenderStep, SubmitStep, AckStep, NotifyStep, Visits;
    Frames(s, step);
    var n := Next(s, step);
    forall id | id in n.notifying
      ensures Visits(n, id)
    {
      if step.LoadNotes? {
        LoadNotifying(s);
        LoadVisits(s, id);
      } else if step.Deliver? {
        DeliverVisits(s, step.flush, id);
      } else if step.Notify? {
        NotifyVisits(s, step.flush, step.reached, step.ok, id);
      } else if step.DropNote? {
        DropVisits(s, step.flush, step.ok, id);
      } else {
        SameVisits(s, n, id);
      }
    }
  }

  lemma LoadNotifying(s: Client)
    requires Enabled(s, LoadNotes)
    ensures NotifyStep(s, LoadNotes).notifying == s.notifying
  {
  }

  lemma SameVisits(s: Client, n: Client, id: string)
    requires Visits(s, id) && n.flushes == s.flushes
    ensures Visits(n, id)
  {
  }

  lemma StepSound(s: Client, step: Step)
    requires Sound(s) && Enabled(s, step)
    ensures Sound(Next(s, step))
  {
    hide Next, Enabled, Safe, Idle, SendersBound, Visiting, Fits, DistinctIds, SendLockOk, NoteLockOk, Offers,
         MarkingOut, AcksHeld;
    StepSafe(s, step);
    StepIdle(s, step);
    StepSendersBound(s, step);
    StepVisiting(s, step);
    StepListsOk(s, step);
    StepSendLock(s, step);
    StepNoteLock(s, step);
    StepOffers(s, step);
    StepMarkingOut(s, step);
    StepAcksHeld(s, step);
  }

  lemma {:induction false} RunSound(s: Client, steps: seq<Step>)
    requires Sound(s) && Legal(s, steps)
    ensures Sound(After(s, steps))
    decreases |steps|
  {
    hide Sound, Enabled, Next;
    if steps != [] {
      StepSound(s, steps[0]);
      RunSound(Next(s, steps[0]), steps[1..]);
    }
  }

  /** What earlier processes may have left behind. */
  predicate LeftBehind(sends: seq<Entry<Body>>, notes: seq<Entry<Note>>, offered: set<string>) {
    && Fits(sends) && Fits(notes) && DistinctIds(sends) && DistinctIds(notes)
    && forall i :: 0 <= i < |sends| && sends[i].submitted ==> sends[i].id in offered
  }

  lemma InitialSound(sends: seq<Entry<Body>>, notes: seq<Entry<Note>>, offered: set<string>)
    requires LeftBehind(sends, notes, offered)
    ensures Sound(Initial(sends, notes, offered))
  {
    InitialSafe(sends, notes, offered);
  }

  // ---------- continuations ----------

  /** No new send of `id` is asked for. */
  predicate Quiet(steps: seq<Step>, id: string) { forall i :: 0 <= i < |steps| ==> !(steps[i].Send? && steps[i].id == id) }

  ghost predicate Via(s: Client, id: string, steps: seq<Step>, n: Client) {
    Legal(s, steps) && Quiet(steps, id) && After(s, steps) == n
  }

  /** Some continuation without another send of `id` leads to `n`. */
  ghost predicate Reaches(s: Client, id: string, n: Client) { exists steps :: Via(s, id, steps, n) }

  lemma ReachesSelf(s: Client, id: string)
    ensures Reaches(s, id, s)
  {
    assert Via(s, id, [], s);
  }

  lemma {:induction false} Extend(s: Client, steps: seq<Step>, step: Step)
    requires Legal(s, steps) && Enabled(After(s, steps), step)
    ensures Legal(s, steps + [step]) && After(s, steps + [step]) == Next(After(s, steps), step)
    decreases |steps|
  {
    hide Enabled, Next;
    if steps == [] {
      assert [] + [step] == [step] && [step][1..] == [];
    } else {
      Extend(Next(s, steps[0]), steps[1..], step);
      assert (steps + [step])[1..] == steps[1..] + [step];
    }
  }

  lemma {:induction false} Concat(s: Client, first: seq<Step>, second: seq<Step>)
    requires Legal(s, first) && Legal(After(s, first), second)
    ensures Legal(s, first + second) && After(s, first + second) == After(After(s, first), second)
    decreases |first|
  {
    hide Enabled, Next;
    if first == [] {
      assert first + second == second;
    } else {
      Concat(Next(s, first[0]), first[1..], second);
      assert (first + second)[1..] == first[1..] + second;
    }
  }

  /** One more step. */
  lemma Further(s: Client, id: string, m: Client, step: Step)
    requires Reaches(s, id, m) && Enabled(m, step) && !(step.Send? && step.id == id)
    ensures Reaches(s, id, Next(m, step))
  {
    hide Enabled, Next, Legal, After;
    var steps :| Via(s, id, steps, m);
    Extend(s, steps, step);
    assert Via(s, id, steps + [step], Next(m, step));
  }

  lemma Onward(s: Client, id: string, m: Client, n: Client)
    requires Reaches(s, id, m) && Reaches(m, id, n)
    ensures Reaches(s, id, n)
  {
    hide Legal, After;
    var first :| Via(s, id, first, m);
    var second :| Via(m, id, second, n);
    Concat(s, first, second);
    assert Via(s, id, first + second, n);
  }

  lemma ReachesSound(s: Client, id: string, n: Client)
    requires Sound(s) && Reaches(s, id, n)
    ensures Sound(n)
  {
    hide Sound;
    var steps :| Via(s, id, steps, n);
    RunSound(s, steps);
  }
}
