/** When the notify endpoint can be asked for an id again: the exact condition, over all continuations. */
module DeliveryAgain {
  import opened Wrappers
  import opened OutboxRecords
  import opened Delivery
  import opened DeliveryRuns
  import opened DeliverySends
  import opened DeliveryLocks
  import opened DeliveryOnce
  import opened DeliveryFutures
  import opened DeliveryMoves
  import opened DeliveryRoom

  // ---------- what is left of an id ----------

  /** A stored record that was offered to the native side before, or that a new process can offer. */
  predicate EntryDue(s: Client, i: nat, id: string)
    requires i < |s.sends|
  {
    s.sends[i].id == id && (id in s.offered || s.sends[i].body.destination.Some?)
  }

  predicate StoredDue(s: Client, id: string) { exists i :: 0 <= i < |s.sends| && EntryDue(s, i, id) }

  /** A flush still has to visit the id, or its request is under way. */
  predicate FlushDue(s: Client, id: string) {
    exists f :: 0 <= f < |s.flushes| && (id in s.flushes[f].rest || s.flushes[f].visit == Requesting(id))
  }

  /** A send has stored its record of the id, or its waiting call can still be made to fit. */
  predicate SenderDue(s: Client, id: string) {
    exists k :: 0 <= k < |s.senders| && Active(s, k) && s.senders[k].record < |s.records| && s.records[s.senders[k].record].id == id
  }

  predicate SubmitDue(s: Client, id: string) { id in s.submits && !s.submits[id].phase.Marking? }

  predicate Forgetting(s: Client, id: string) { id in s.acks && s.acks[id].phase.Dropped? }

  predicate Sendable(s: Client, i: nat) { i < |s.records| && !s.records[i].submitted && s.records[i].body.destination.Some? }

  /** The id is in memory, and either can still be sent, or was offered and is not just being forgotten. */
  predicate MemoryDue(s: Client, id: string) {
    id in s.pending && (Sendable(s, s.pending[id]) || (id in s.offered && !Forgetting(s, id)))
  }

  /** Something of the id is left that can bring another request. */
  predicate Due(s: Client, id: string) {
    StoredDue(s, id) || HasId(s.notes, id) || FlushDue(s, id) || SenderDue(s, id) || SubmitDue(s, id) || MemoryDue(s, id)
  }

  /** Some continuation without another send of the id makes one more request for it reach the endpoint. */
  ghost predicate AsksAgain(s: Client, id: string) { exists n :: Reaches(s, id, n) && n.asked[id] > s.asked[id] }

  // ---------- nothing left, no request ----------

  /** A mutation keeps the bodies of the records that it does not put. */
  lemma EntryFrom<B>(items: seq<Entry<B>>, m: Mutation<B>, i: nat) returns (j: nat)
    requires i < |Mutate(items, m)| && (m.Put? ==> Mutate(items, m)[i].id != m.entry.id)
    ensures j < |items| && items[j].id == Mutate(items, m)[i].id && items[j].body == Mutate(items, m)[i].body
  {
    hide Without, Marked;
    var e := Mutate(items, m)[i];
    match m {
      case Put(entry) =>
        assert Without(items, entry.id)[i] == e;
        WithoutMember(items, entry.id, e);
        j :| 0 <= j < |items| && items[j] == e;
      case Drop(id) =>
        WithoutMember(items, id, e);
        j :| 0 <= j < |items| && items[j] == e;
      case Mark(id) =>
        MarkedExact(items, id);
        j := i;
    }
  }

  lemma OfferedFrom(s: Client, step: Step, id: string)
    requires Enabled(s, step) && id in Next(s, step).offered
    ensures id in s.offered || SubmitDue(s, id)
  {
    hide Mutate, HasId, LifeStep, SenderStep, AckStep, NotifyStep;
    Frames(s, step);
  }

  lemma StoredFrom(s: Client, step: Step, id: string)
    requires Enabled(s, step) && StoredDue(Next(s, step), id)
    ensures StoredDue(s, id) || SenderDue(s, id) || SubmitDue(s, id)
  {
    hide Next, Enabled, SenderDue, SubmitDue, Mutate;
    var n := Next(s, step);
    var i :| 0 <= i < |n.sends| && EntryDue(n, i, id);
    if id in n.offered {
      OfferedFrom(s, step, id);
    }
    if IsLifeStep(step) {
      Frames(s, step);
      assert !SubmitDue(s, id) ==> EntryDue(s, i, id);
    } else if SendSettles(step) {
      SendSettled(s, step);
      var m := SendTaken(s, step);
      if m.Some? && m.value.Put? && m.value.entry.id == id {
        PutIsDue(s, step, id);
      } else if m.Some? {
        var j := EntryFrom(s.sends, m.value, i);
        assert !SubmitDue(s, id) ==> EntryDue(s, j, id);
      } else {
        assert !SubmitDue(s, id) ==> EntryDue(s, i, id);
      }
    } else {
      SendJoined(s, step);
      assert !SubmitDue(s, id) ==> EntryDue(s, i, id);
    }
  }

  lemma PutIsDue(s: Client, step: Step, id: string)
    requires Enabled(s, step) && SendSettles(step)
    requires var m := SendTaken(s, step); m.Some? && m.value.Put? && m.value.entry.id == id
    ensures SenderDue(s, id)
  {
    hide Mutate, SenderFits;
    HeadFits(s, step);
    assert Active(s, step.sender);
  }

  /** A note comes from an acknowledgement of something in memory. */
  lemma NotedFrom(s: Client, step: Step, id: string)
    requires Sound(s) && Enabled(s, step) && HasId(Next(s, step).notes, id)
    ensures HasId(s.notes, id) || MemoryDue(s, id)
  {
    hide Next, HasId, Safe, Idle, Visiting, SendersBound, ListsOk, SendLockOk, NoteLockOk, MarkingOut;
    NotesIds(s, step, id);
  }

  lemma ListsStored(notes: seq<Entry<Note>>, id: string)
    ensures id in IdList(notes) <==> HasId(notes, id)
  {
    if id in IdList(notes) {
      var i :| 0 <= i < |IdList(notes)| && IdList(notes)[i] == id;
      assert notes[i].id == id;
    }
    if HasId(notes, id) {
      var i :| 0 <= i < |notes| && notes[i].id == id;
      assert IdList(notes)[i] == id;
    }
  }

  lemma FlushLoaded(s: Client, id: string)
    requires Enabled(s, LoadNotes) && !FlushDue(s, id) && !HasId(s.notes, id)
    ensures !FlushDue(NotifyStep(s, LoadNotes), id)
  {
    hide HasId;
    ListsStored(s.notes, id);
    var n := NotifyStep(s, LoadNotes);
    assert forall f :: 0 <= f < |s.flushes| ==> n.flushes[f] == s.flushes[f];
  }

  lemma FlushUpdated(s: Client, n: Client, f: nat, id: string)
    requires f < |s.flushes| == |n.flushes| && n.flushes == s.flushes[f := n.flushes[f]] && !FlushDue(s, id)
    requires id !in n.flushes[f].rest && n.flushes[f].visit != Requesting(id)
    ensures !FlushDue(n, id)
  {
  }

  lemma FlushDelivered(s: Client, f: nat, id: string)
    requires Enabled(s, Deliver(f)) && !FlushDue(s, id)
    ensures !FlushDue(NotifyStep(s, Deliver(f)), id)
  {
    assert id !in s.flushes[f].rest;
    FlushUpdated(s, NotifyStep(s, Deliver(f)), f, id);
  }

  lemma FlushNotified(s: Client, step: Step, id: string)
    requires Enabled(s, step) && step.Notify? && !FlushDue(s, id)
    ensures !FlushDue(NotifyStep(s, step), id) && NotifyStep(s, step).asked[id] == s.asked[id]
  {
    var f := step.flush;
    assert id !in s.flushes[f].rest && s.flushes[f].visit != Requesting(id);
    FlushUpdated(s, NotifyStep(s, step), f, id);
  }

  lemma FlushCleared(s: Client, step: Step, id: string)
    requires Enabled(s, step) && step.DropNote? && !FlushDue(s, id)
    ensures !FlushDue(NotifyStep(s, step), id)
  {
    hide Mutate;
    var f := step.flush;
    assert id !in s.flushes[f].rest;
    FlushUpdated(s, NotifyStep(s, step), f, id);
  }

  lemma OnlyNotifyAsks(s: Client, step: Step)
    requires Enabled(s, step) && !step.Notify?
    ensures Next(s, step).asked == s.asked
  {
    hide Mutate, LifeStep, SenderStep, SubmitStep, AckStep;
    Frames(s, step);
  }

  lemma StillFlushed(s: Client, step: Step, id: string)
    requires Enabled(s, step) && !FlushDue(s, id) && !HasId(s.notes, id)
    ensures !FlushDue(Next(s, step), id) && Next(s, step).asked[id] == s.asked[id]
  {
    hide Mutate, HasId, SenderStep, SubmitStep, AckStep, NotifyStep, FlushDue;
    Frames(s, step);
    if step.Notify? {
      FlushNotified(s, step, id);
    } else {
      OnlyNotifyAsks(s, step);
      if step.LoadNotes? {
        FlushLoaded(s, id);
      } else if step.Deliver? {
        FlushDelivered(s, step.flush, id);
      } else if step.DropNote? {
        FlushCleared(s, step, id);
      } else {
        SameFlushes(s, Next(s, step), id);
      }
    }
  }

  lemma SameFlushes(s: Client, n: Client, id: string)
    requires !FlushDue(s, id) && (n.flushes == s.flushes || n.flushes == [])
    ensures !FlushDue(n, id)
  {
  }

  lemma SenderFrom(s: Client, step: Step, id: string)
    requires Sound(s) && Enabled(s, step) && !(step.Send? && step.id == id) && SenderDue(Next(s, step), id)
    ensures SenderDue(s, id)
  {
    hide Next, Enabled, Safe, Idle, Visiting, SendersBound, SendLockOk, NoteLockOk, Offers, MarkingOut,
         AcksHeld, SenderFits, DistinctIds;
    var n := Next(s, step);
    var k :| 0 <= k < |n.senders| && Active(n, k) && n.senders[k].record < |n.records| && n.records[n.senders[k].record].id == id;
    if IsLifeStep(step) {
      LifeSenders(s, step);
    } else if k < |s.senders| {
      SenderStays(s, step, k);
      ActiveBack(s, step, k);
      RecordsGrow(s, step);
      SenderPlaced(s, k);
      assert Active(s, k);
    } else {
      NewSenderId(s, step, k);
    }
  }

  lemma LifeSenders(s: Client, step: Step)
    requires Sound(s) && Enabled(s, step) && IsLifeStep(step)
    ensures Next(s, step).senders == []
  {
    hide Idle, Visiting, SendersBound, ListsOk, SendLockOk, NoteLockOk, Offers, MarkingOut, AcksHeld, Indexed,
         SubmitOk, PostedOk;
  }

  lemma SenderPlaced(s: Client, k: nat)
    requires Sound(s) && k < |s.senders|
    ensures s.senders[k].record < |s.records|
  {
    hide Idle, Visiting, SendersBound, ListsOk, SendLockOk, NoteLockOk, Offers, MarkingOut, AcksHeld, SubmitOk,
         PostedOk;
  }

  /** A new sender is for the id that was sent. */
  lemma NewSenderId(s: Client, step: Step, k: nat)
    requires Sound(s) && Enabled(s, step) && !IsLifeStep(step) && |s.senders| <= k < |Next(s, step).senders|
    ensures var n := Next(s, step); step.Send? && n.senders[k].record < |n.records| && n.records[n.senders[k].record].id == step.id
  {
    hide Mutate, HasId, Submitting, SubmitStep, AckStep, NotifyStep, SubmitOk, PostedOk;
    hide Idle, Visiting, SendersBound, ListsOk, SendLockOk, NoteLockOk, Offers, MarkingOut, AcksHeld;
    Frames(s, step);
    if step.AfterStore? {
      AfterStoreSenders(s, step);
    }
  }

  lemma SubmitFrom(s: Client, step: Step, id: string)
    requires Sound(s) && Enabled(s, step) && SubmitDue(Next(s, step), id)
    ensures SubmitDue(s, id) || SenderDue(s, id) || MemoryDue(s, id)
  {
    hide Mutate, HasId, Indexed, SenderStep, SubmitStep, AckStep, NotifyStep, PostedOk, Visiting, Idle,
         SendersBound, ListsOk, SendLockOk, NoteLockOk, Offers, MarkingOut, AcksHeld;
    Frames(s, step);
    if IsSenderStep(step) {
      SenderSubmitFrom(s, step, id);
    } else if IsSubmitStep(step) {
      SubmitSubmitFrom(s, step, id);
    }
  }

  lemma SenderSubmitFrom(s: Client, step: Step, id: string)
    requires Sound(s) && Enabled(s, step) && IsSenderStep(step) && SubmitDue(SenderStep(s, step), id)
    ensures SubmitDue(s, id) || SenderDue(s, id)
  {
    hide Mutate, HasId, SubmitOk, PostedOk, Visiting, Idle, SendersBound, ListsOk, SendLockOk, NoteLockOk,
         Offers, MarkingOut, AcksHeld;
    if step.AfterStore? {
      assert Active(s, step.sender);
    }
  }

  lemma SubmitSubmitFrom(s: Client, step: Step, id: string)
    requires Sound(s) && Enabled(s, step) && IsSubmitStep(step) && SubmitDue(SubmitStep(s, step), id)
    ensures SubmitDue(s, id) || MemoryDue(s, id)
  {
    hide Mutate, HasId, SubmitOk, PostedOk, Visiting, Idle, SendersBound, ListsOk, SendLockOk, NoteLockOk,
         Offers, MarkingOut, AcksHeld;
  }

  lemma ForgettingStays(s: Client, step: Step, id: string)
    requires Enabled(s, step) && !IsLifeStep(step) && Forgetting(s, id) && id in Next(s, step).pending && step != Forget(id)
    ensures Forgetting(Next(s, step), id)
  {
    hide Mutate, HasId, Indexed, SenderStep, SubmitStep, NotifyStep;
    Frames(s, step);
  }

  lemma PendingFrom(s: Client, step: Step, id: string)
    requires Enabled(s, step) && !IsLifeStep(step) && id in Next(s, step).pending
    ensures SenderDue(s, id) || SubmitDue(s, id)
         || (step != Forget(id) && id in s.pending && Next(s, step).pending[id] == s.pending[id])
  {
    hide Mutate, HasId, Indexed, SenderStep, SubmitStep, AckStep, NotifyStep;
    Frames(s, step);
    if IsSenderStep(step) {
      SenderPendingFrom(s, step, id);
    } else if IsSubmitStep(step) {
      SubmitPendingFrom(s, step, id);
    } else if IsAckStep(step) {
      AckPendingFrom(s, step, id);
    }
  }

  lemma SenderPendingFrom(s: Client, step: Step, id: string)
    requires Enabled(s, step) && IsSenderStep(step) && id in SenderStep(s, step).pending
    ensures SenderDue(s, id) || (id in s.pending && SenderStep(s, step).pending[id] == s.pending[id])
  {
    hide Mutate, HasId;
    if step.AfterStore? {
      assert Active(s, step.sender);
    }
  }

  lemma SubmitPendingFrom(s: Client, step: Step, id: string)
    requires Enabled(s, step) && IsSubmitStep(step) && id in SubmitStep(s, step).pending
    ensures SubmitDue(s, id) || (id in s.pending && SubmitStep(s, step).pending[id] == s.pending[id])
  {
    hide Mutate, HasId;
  }

  lemma AckPendingFrom(s: Client, step: Step, id: string)
    requires Enabled(s, step) && IsAckStep(step) && id in AckStep(s, step).pending
    ensures step != Forget(id) && id in s.pending && AckStep(s, step).pending[id] == s.pending[id]
  {
    hide Mutate, HasId;
  }

  /** What a new process remembers of the id was stored. */
  lemma BootFrom(s: Client, id: string)
    requires Enabled(s, Boot) && MemoryDue(Next(s, Boot), id)
    ensures StoredDue(s, id)
  {
    hide Indexed, HasId;
    IndexedExact(s.sends, |s.records|, id);
    assert EntryDue(s, Next(s, Boot).pending[id] - |s.records|, id);
  }

  lemma RememberedFrom(s: Client, step: Step, id: string)
    requires Sound(s) && Enabled(s, step) && !IsLifeStep(step) && MemoryDue(Next(s, step), id)
    ensures SenderDue(s, id) || SubmitDue(s, id) || MemoryDue(s, id)
  {
    hide Next, Enabled, Safe, Idle, Visiting, SendersBound, ListsOk, SendLockOk, NoteLockOk, Offers, MarkingOut,
         AcksHeld, SenderDue, SubmitDue;
    PendingFrom(s, step, id);
    if id in s.pending && step != Forget(id) {
      if id in Next(s, step).offered {
        OfferedFrom(s, step, id);
      }
      if Forgetting(s, id) {
        ForgettingStays(s, step, id);
      }
      RecordsGrow(s, step);
      KeptInHeap(s, id);
    }
  }

  lemma KeptInHeap(s: Client, id: string)
    requires Sound(s) && id in s.pending
    ensures s.pending[id] < |s.records| && s.records[s.pending[id]].id == id
  {
    hide Idle, Visiting, SendersBound, ListsOk, SendLockOk, NoteLockOk, Offers, MarkingOut, AcksHeld, SubmitOk,
         PostedOk;
  }

  lemma MemoryFrom(s: Client, step: Step, id: string)
    requires Sound(s) && Enabled(s, step) && MemoryDue(Next(s, step), id)
    ensures Due(s, id)
  {
    hide Sound, Next, Enabled, StoredDue, HasId, FlushDue, SenderDue, SubmitDue, MemoryDue;
    if step.Boot? {
      BootFrom(s, id);
    } else if step.Crash? {
      CrashRemembers(s, id);
    } else {
      RememberedFrom(s, step, id);
    }
  }

  lemma CrashRemembers(s: Client, id: string)
    ensures !MemoryDue(Next(s, Crash), id)
  {
  }

  /** With nothing left of an id, a step that is no send of it leaves nothing and asks nothing. */
  lemma StepLeavesNothing(s: Client, step: Step, id: string)
    requires Sound(s) && Enabled(s, step) && !Due(s, id) && !(step.Send? && step.id == id)
    ensures !Due(Next(s, step), id) && Next(s, step).asked[id] == s.asked[id]
  {
    hide Sound, Next, Enabled, StoredDue, HasId, FlushDue, SenderDue, SubmitDue, MemoryDue;
    var n := Next(s, step);
    StillFlushed(s, step, id);
    if StoredDue(n, id) {
      StoredFrom(s, step, id);
    }
    if HasId(n.notes, id) {
      NotedFrom(s, step, id);
    }
    if SenderDue(n, id) {
      SenderFrom(s, step, id);
    }
    if SubmitDue(n, id) {
      SubmitFrom(s, step, id);
    }
    if MemoryDue(n, id) {
      MemoryFrom(s, step, id);
    }
  }

  lemma {:induction false} RunLeavesNothing(s: Client, steps: seq<Step>, id: string)
    requires Sound(s) && Legal(s, steps) && Quiet(steps, id) && !Due(s, id)
    ensures !Due(After(s, steps), id) && After(s, steps).asked[id] == s.asked[id]
    decreases |steps|
  {
    hide Sound, Next, Enabled, Due;
    if steps != [] {
      StepLeavesNothing(s, steps[0], id);
      StepSound(s, steps[0]);
      RunLeavesNothing(Next(s, steps[0]), steps[1..], id);
    }
  }

  // ---------- something left, a request ----------

  lemma {:induction false} AskedGrows(s: Client, steps: seq<Step>, id: string)
    requires Legal(s, steps)
    ensures After(s, steps).asked[id] >= s.asked[id]
    decreases |steps|
  {
    hide Next, Enabled;
    if steps != [] {
      AskedStep(s, steps[0], id);
      AskedGrows(Next(s, steps[0]), steps[1..], id);
    }
  }

  lemma AskedStep(s: Client, step: Step, id: string)
    requires Enabled(s, step)
    ensures Next(s, step).asked[id] >= s.asked[id]
  {
    hide Mutate, LifeStep, SenderStep, SubmitStep, AckStep;
    Frames(s, step);
  }

  lemma Later(s: Client, id: string, n: Client)
    requires Reaches(s, id, n) && AsksAgain(n, id)
    ensures AsksAgain(s, id)
  {
    hide Legal, After;
    var steps :| Via(s, id, steps, n);
    AskedGrows(s, steps, id);
    var m :| Reaches(n, id, m) && m.asked[id] > n.asked[id];
    Onward(s, id, n, m);
  }

  lemma RequestingAsks(s: Client, f: nat, id: string)
    requires f < |s.flushes| && s.flushes[f].visit == Requesting(id)
    ensures AsksAgain(s, id)
  {
    hide Reaches, Enabled, Next, Leads;
    ReachesSelf(s, id);
    Notifies(s, f);
    var n := s.(accepted := s.accepted + {id}, asked := s.asked + multiset{id},
                flushes := s.flushes[f := s.flushes[f].(visit := Clearing(id))], noteLock := s.noteLock + [NoteDrop(f, id)]);
    Go(s, id, s, Notify(f, true, true), n);
  }

  /** A flush that waits to clear its record goes on without that; only calls of the notification lock fail. */
  lemma VisitLeft(s: Client, q: string, f: nat) returns (n: Client)
    requires Sound(s) && f < |s.flushes| && s.flushes[f].visit.Clearing?
    ensures Reaches(s, q, n) && n.running == s.running && s.flushes[f].visit.id !in n.notifying && n.notifying <= s.notifying
    ensures |n.flushes| == |s.flushes| && n.flushes[f] == s.flushes[f].(visit := Between)
    ensures forall g :: 0 <= g < |s.flushes| && s.flushes[g].visit.Between? ==> n.flushes[g] == s.flushes[g]
  {
    hide Reaches, Enabled, Next, Leads, Safe, Idle, Visiting, SendersBound, ListsOk, SendLockOk, Offers,
         MarkingOut, AcksHeld, AsksAgain;
    var id := s.flushes[f].visit.id;
    assert NoteCallOk(s, NoteDrop(f, id));
    var p :| 0 <= p < |s.noteLock| && s.noteLock[p] == NoteDrop(f, id);
    var m := FailNotes(s, q, p);
    OnceBefore(s.noteLock, p);
    assert m.noteLock[0] == NoteDrop(f, id) && m.flushes[f] == s.flushes[f];
    KeepsNote(m, f);
    n := m.(flushes := m.flushes[f := m.flushes[f].(visit := Between)], notifying := m.notifying - {id}, noteLock := m.noteLock[1..]);
    Go(s, q, m, DropNote(f, false), n);
  }

  lemma FlushRuns(s: Client)
    requires Sound(s) && s.flushes != []
    ensures s.running
  {
    hide Reaches, Enabled, Next, Leads, Safe, Visiting, SendersBound, ListsOk, SendLockOk, NoteLockOk, Offers,
         MarkingOut, AcksHeld, AsksAgain;
  }

  /** A flush reaches every id on its list. */
  lemma {:induction false} ListedAsks(s: Client, f: nat, id: string)
    requires Sound(s) && f < |s.flushes| && id in s.flushes[f].rest
    ensures AsksAgain(s, id)
    decreases |s.flushes[f].rest|, if s.flushes[f].visit.Between? then 1 else 2
  {
    hide Sound, Reaches, Enabled, Next, Leads, AsksAgain;
    ReachesSelf(s, id);
    var F := s.flushes[f];
    match F.visit {
      case Requesting(x) =>
        FailsToNotify(s, f);
        var n := s.(flushes := s.flushes[f := F.(visit := Between)], notifying := s.notifying - {x});
        Go(s, id, s, Notify(f, false, false), n);
        ReachesSound(s, id, n);
        ListedAsks(n, f, id);
        Later(s, id, n);
      case Clearing(x) =>
        var n := VisitLeft(s, id, f);
        ReachesSound(s, id, n);
        ListedAsks(n, f, id);
        Later(s, id, n);
      case Between =>
        if F.rest[0] == id {
          HeadAsks(s, f, id);
        } else {
          NextListedAsks(s, f, id);
        }
    }
  }

  lemma {:induction false} NextListedAsks(s: Client, f: nat, id: string)
    requires Sound(s) && f < |s.flushes| && id in s.flushes[f].rest && s.flushes[f].visit.Between? && s.flushes[f].rest[0] != id
    ensures AsksAgain(s, id)
    decreases |s.flushes[f].rest|, 0
  {
    hide Sound, Reaches, Enabled, Next, Leads, AsksAgain;
    ReachesSelf(s, id);
    FlushRuns(s);
    var F := s.flushes[f];
    assert id in F.rest[1..];
    var x := F.rest[0];
    var n;
    if x in s.notifying {
      Skips(s, f);
      n := s.(flushes := s.flushes[f := Flush(F.rest[1..], Between)]);
      Go(s, id, s, Deliver(f), n);
    } else {
      Delivers(s, f);
      n := s.(flushes := s.flushes[f := Flush(F.rest[1..], Requesting(x))], notifying := s.notifying + {x});
      Go(s, id, s, Deliver(f), n);
    }
    ReachesSound(s, id, n);
    ListedAsks(n, f, id);
    Later(s, id, n);
  }

  lemma HeadAsks(s: Client, f: nat, id: string)
    requires Sound(s) && f < |s.flushes| && s.flushes[f].visit.Between? && s.flushes[f].rest != [] && s.flushes[f].rest[0] == id
    ensures AsksAgain(s, id)
  {
    hide Reaches, Enabled, Next, Leads, Safe, Idle, SendersBound, ListsOk, SendLockOk, NoteLockOk, Offers,
         MarkingOut, AcksHeld, AsksAgain;
    FlushRuns(s);
    if id in s.notifying {
      assert Visits(s, id);
      var g :| 0 <= g < |s.flushes| && VisitOf(s.flushes[g]) == Some(id);
      if s.flushes[g].visit.Requesting? {
        RequestingAsks(s, g, id);
      } else {
        var m := VisitLeft(s, id, g);
        FreeHeadAsks(m, f, id);
        Later(s, id, m);
      }
    } else {
      FreeHeadAsks(s, f, id);
    }
  }

  lemma FreeHeadAsks(s: Client, f: nat, id: string)
    requires s.running && f < |s.flushes| && s.flushes[f].visit.Between? && s.flushes[f].rest != [] && s.flushes[f].rest[0] == id
    requires id !in s.notifying
    ensures AsksAgain(s, id)
  {
    hide Reaches, Enabled, Next, Leads, AsksAgain;
    ReachesSelf(s, id);
    Delivers(s, f);
    var n := s.(flushes := s.flushes[f := Flush(s.flushes[f].rest[1..], Requesting(id))], notifying := s.notifying + {id});
    Go(s, id, s, Deliver(f), n);
    RequestingAsks(n, f, id);
    Later(s, id, n);
  }

  lemma Booted(s: Client, q: string) returns (n: Client)
    requires Sound(s)
    ensures Reaches(s, q, n) && Sound(n) && n.running && n.notes == s.notes
    ensures n == if s.running then s else
      s.(running := true, born := |s.records|, records := s.records + Loaded(s.sends), pending := Indexed(s.sends, |s.records|))
  {
    hide Reaches, Enabled, Next, Leads, Safe, Idle, Visiting, SendersBound, SendLockOk, NoteLockOk, Offers,
         MarkingOut, AcksHeld, AsksAgain, Indexed, DistinctIds;
    ReachesSelf(s, q);
    n := s;
    if !s.running {
      Boots(s);
      n := s.(running := true, born := |s.records|, records := s.records + Loaded(s.sends), pending := Indexed(s.sends, |s.records|));
      Go(s, q, s, Boot, n);
      ReachesSound(s, q, n);
    }
  }

  lemma FlushLoads(s: Client, q: string) returns (n: Client)
    requires Sound(s) && s.running
    ensures Reaches(s, q, n) && Sound(n) && n == s.(flushes := s.flushes + [Flush(IdList(s.notes), Between)])
  {
    hide Reaches, Enabled, Next, Leads, Safe, Idle, Visiting, SendersBound, SendLockOk, NoteLockOk, Offers,
         MarkingOut, AcksHeld, AsksAgain, DistinctIds;
    ReachesSelf(s, q);
    LoadsNotes(s);
    n := s.(flushes := s.flushes + [Flush(IdList(s.notes), Between)]);
    Go(s, q, s, LoadNotes, n);
    ReachesSound(s, q, n);
  }

  lemma NotedAsks(s: Client, id: string)
    requires Sound(s) && HasId(s.notes, id)
    ensures AsksAgain(s, id)
  {
    hide Sound, Reaches, AsksAgain, HasId, Indexed;
    var m := Booted(s, id);
    var n := FlushLoads(m, id);
    ListsStored(s.notes, id);
    assert n.flushes[|m.flushes|].rest == IdList(m.notes);
    ListedAsks(n, |m.flushes|, id);
    Later(m, id, n);
    Later(s, id, m);
  }

  // ---------- an acknowledgement ----------

  /** Everything that an echo needs of `s` is still there in `n`. */
  predicate SameMemory(s: Client, n: Client) { n.running == s.running && n.pending == s.pending && n.records == s.records && n.offered == s.offered }

  /** An acknowledgement under way gives up. */
  lemma AckCleared(s: Client, q: string, id: string) returns (n: Client)
    requires Sound(s) && !Forgetting(s, id)
    ensures Reaches(s, q, n) && SameMemory(s, n) && id !in n.acks
  {
    hide Reaches, Enabled, Next, Leads, Safe, Idle, Visiting, SendersBound, ListsOk, Offers, MarkingOut,
         AcksHeld, AsksAgain, HasId;
    ReachesSelf(s, q);
    n := s;
    if id in s.acks {
      if s.acks[id].phase.Noting? {
        assert NoteCallOk(s, NotePut(id));
        var p :| 0 <= p < |s.noteLock| && s.noteLock[p] == NotePut(id);
        var m := FailNotes(s, q, p);
        OnceBefore(s.noteLock, p);
        assert m.noteLock[0] == NotePut(id) && m.acks[id] == s.acks[id];
        GivesUpNote(m, id);
        n := m.(acks := m.acks - {id}, noteLock := m.noteLock[1..]);
        Go(s, q, m, StoreNote(id, false), n);
      } else {
        assert SendCallOk(s, DropCall(id));
        var p :| 0 <= p < |s.sendLock| && s.sendLock[p] == DropCall(id);
        var m := FailSends(s, q, p);
        OnceBefore(s.sendLock, p);
        assert m.sendLock[0] == DropCall(id) && m.acks[id] == s.acks[id];
        GivesUpDrop(m, id);
        n := m.(acks := m.acks - {id}, sendLock := m.sendLock[1..]);
        Go(s, q, m, DropSend(id, false), n);
      }
    }
  }

  /** With nothing in the lock of the notifications, some flush can request the first one of a full queue. */
  lemma FirstRequested(s: Client, q: string) returns (n: Client, f: nat)
    requires Sound(s) && s.running && s.noteLock == [] && s.notes != []
    ensures Reaches(s, q, n) && n == s.(flushes := n.flushes, notifying := n.notifying)
    ensures f < |n.flushes| && n.flushes[f].visit == Requesting(s.notes[0].id)
  {
    hide Reaches, Enabled, Next, Leads, Safe, Idle, SendersBound, ListsOk, SendLockOk, Offers, MarkingOut,
         AcksHeld, AsksAgain;
    var y := s.notes[0].id;
    if y in s.notifying {
      ReachesSelf(s, q);
      assert Visits(s, y);
      n := s;
      f :| 0 <= f < |s.flushes| && VisitOf(s.flushes[f]) == Some(y);
      assert !NoteCallOk(s, NoteDrop(f, y));
    } else {
      var m := FlushLoads(s, q);
      f := |s.flushes|;
      assert m.flushes[f] == Flush(IdList(s.notes), Between);
      Delivers(m, f);
      n := m.(flushes := m.flushes[f := Flush(m.flushes[f].rest[1..], Requesting(y))], notifying := m.notifying + {y});
      Go(s, q, m, Deliver(f), n);
    }
  }

  /** A full queue of notifications hands over its first one. */
  lemma FirstHandedOver(s: Client, q: string) returns (n: Client)
    requires Sound(s) && s.running && s.noteLock == [] && s.notes != []
    ensures Reaches(s, q, n) && SameMemory(s, n) && n.noteLock == [] && n.acks == s.acks && |n.notes| < |s.notes|
  {
    hide Reaches, Enabled, Next, Leads, Safe, Idle, Visiting, SendersBound, SendLockOk, NoteLockOk, Offers,
         MarkingOut, AcksHeld, AsksAgain, HasId, DistinctIds, Mutate;
    var y := s.notes[0].id;
    var m, f := FirstRequested(s, q);
    Notifies(m, f);
    var m1 := m.(accepted := m.accepted + {y}, asked := m.asked + multiset{y},
                 flushes := m.flushes[f := m.flushes[f].(visit := Clearing(y))], noteLock := m.noteLock + [NoteDrop(f, y)]);
    Go(s, q, m, Notify(f, true, true), m1);
    FirstId(m1.notes);
    DropFits(m1.notes, y);
    DropsNote(m1, f);
    n := m1.(flushes := m1.flushes[f := m1.flushes[f].(visit := Between)], notifying := m1.notifying - {y},
             notes := Mutate(m1.notes, Drop(y)), noteLock := m1.noteLock[1..]);
    Go(s, q, m1, DropNote(f, true), n);
  }

  /** The lock of the notifications is empty, and there is room in their queue. */
  lemma NoteRoom(s: Client, q: string) returns (n: Client)
    requires Sound(s) && s.running
    ensures Reaches(s, q, n) && SameMemory(s, n) && n.noteLock == [] && n.acks.Keys <= s.acks.Keys && |n.notes| < MAX_OUTBOX_ITEMS
  {
    hide Reaches, Safe, Idle, Visiting, SendersBound, SendLockOk, NoteLockOk, Offers, MarkingOut, AcksHeld,
         DistinctIds;
    n := FailNotes(s, q, |s.noteLock|);
    if |n.notes| == MAX_OUTBOX_ITEMS {
      ReachesSound(s, q, n);
      var m := n;
      n := FirstHandedOver(m, q);
      Onward(s, q, m, n);
    }
  }

  /** An echo of an id in memory is acknowledged into a queue with room. */
  lemma EchoAsks(s: Client, id: string)
    requires Sound(s) && s.running && id in s.pending && id in s.offered && id !in s.acks && s.noteLock == [] && |s.notes| < MAX_OUTBOX_ITEMS
    ensures AsksAgain(s, id)
  {
    hide Reaches, Enabled, Next, Leads, Safe, Idle, Visiting, SendersBound, ListsOk, SendLockOk, NoteLockOk,
         Offers, MarkingOut, AcksHeld, AsksAgain, HasId, Mutate;
    ReachesSelf(s, id);
    KeptInHeap(s, id);
    Echoes(s, id, "$event");
    var note := Note(s.records[s.pending[id]].body.thread, "$event");
    var m := s.(acks := s.acks[id := Ack(note, Noting)], noteLock := s.noteLock + [NotePut(id)]);
    Go(s, id, s, Echo(id, "$event"), m);
    var e := Entry(id, note, false);
    RoomyFits(m.notes, e);
    StoresNote(m, id);
    var n := m.(notes := Mutate(m.notes, Put(e)), noted := m.noted + {id}, acks := m.acks[id := m.acks[id].(phase := Dropping)],
                noteLock := m.noteLock[1..], sendLock := m.sendLock + [DropCall(id)]);
    Go(s, id, m, StoreNote(id, true), n);
    ReachesSound(s, id, n);
    PutIds(m.notes, e, id);
    NotedAsks(n, id);
    Later(s, id, n);
  }

  /** An id in memory that was offered is acknowledged, unless its last acknowledgement is just forgetting it. */
  lemma RememberedAsks(s: Client, id: string)
    requires Sound(s) && s.running && id in s.pending && id in s.offered && !Forgetting(s, id)
    ensures AsksAgain(s, id)
  {
    hide Sound, Reaches, AsksAgain;
    var m := AckCleared(s, id, id);
    ReachesSound(s, id, m);
    var n := NoteRoom(m, id);
    ReachesSound(m, id, n);
    EchoAsks(n, id);
    Later(m, id, n);
    Later(s, id, m);
  }

  // ---------- a send, a task, a record ----------

  /** The acknowledgement forgets the id now. */
  lemma Forgotten(s: Client, id: string) returns (m: Client)
    ensures Reaches(s, id, m) && !Forgetting(m, id) && m == s.(acks := m.acks, pending := m.pending)
  {
    hide Reaches, Enabled, Next, Leads;
    ReachesSelf(s, id);
    m := s;
    if Forgetting(s, id) {
      Forgets(s, id);
      m := s.(pending := s.pending - {id}, acks := s.acks - {id});
      Go(s, id, s, Forget(id), m);
    }
  }

  lemma RunningWith(s: Client)
    requires Sound(s) && (s.submits != map[] || s.senders != [] || s.pending != map[])
    ensures s.running
  {
    hide Reaches, Enabled, Next, Leads, Visiting, SendersBound, ListsOk, SendLockOk, NoteLockOk, Offers,
         MarkingOut, AcksHeld, AsksAgain;
  }

  lemma SubmittedAsks(s: Client, id: string)
    requires Sound(s) && SubmitDue(s, id)
    ensures AsksAgain(s, id)
  {
    hide Sound, Reaches, AsksAgain;
    RunningWith(s);
    var m := Forgotten(s, id);
    ReachesSound(s, id, m);
    var n, p, t := GoesOut(m, id, id);
    Onward(s, id, m, n);
    ReachesSound(s, id, n);
    RememberedAsks(n, id);
    Later(s, id, n);
  }

  lemma MemoryAsks(s: Client, id: string)
    requires Sound(s) && MemoryDue(s, id)
    ensures AsksAgain(s, id)
  {
    hide Reaches, Enabled, Next, Leads, Safe, Idle, Visiting, SendersBound, ListsOk, SendLockOk, NoteLockOk,
         Offers, MarkingOut, AcksHeld, AsksAgain;
    RunningWith(s);
    KeptInHeap(s, id);
    if Sendable(s, s.pending[id]) {
      var m := SubmitCleared(s, id, id);
      FlushStarts(m, id);
      var r := s.records[s.pending[id]];
      var n := m.(submits := m.submits[id := Submit(s.pending[id], r.body.destination.value.room, Binding)]);
      Go(s, id, m, FlushPending(id, ViewOf(r.body)), n);
      ReachesSound(s, id, n);
      SubmittedAsks(n, id);
      Later(s, id, n);
    } else {
      RememberedAsks(s, id);
    }
  }

  /** A record in memory of a sender's kind is due: it can still be sent, or was. */
  lemma SenderRemembered(s: Client, id: string, i: nat)
    requires Sound(s) && id in s.pending && s.pending[id] == i && i < |s.records| && s.records[i].id == id
    requires s.records[i].body.destination.Some? && !Forgetting(s, id)
    ensures MemoryDue(s, id)
  {
    hide Reaches, Enabled, Next, Leads, Safe, Idle, Visiting, SendersBound, ListsOk, SendLockOk, NoteLockOk,
         MarkingOut, AcksHeld, AsksAgain;
  }

  lemma StoredSenderAsks(s: Client, k: nat, id: string)
    requires Sound(s) && k < |s.senders| && s.senders[k].phase.Stored?
    requires s.senders[k].record < |s.records| && s.records[s.senders[k].record].id == id
    ensures AsksAgain(s, id)
  {
    hide Reaches, Enabled, Next, Leads, Safe, Idle, Visiting, ListsOk, SendLockOk, NoteLockOk, Offers,
         MarkingOut, AcksHeld, AsksAgain;
    var i := s.senders[k].record;
    assert Bound(s, k);
    var m := Forgotten(s, id);
    Remembers(m, k);
    var n := m.(senders := m.senders[k := m.senders[k].(phase := Ended)], pending := m.pending[id := i]);
    Go(s, id, m, AfterStore(k, NO_ROOM), n);
    ReachesSound(s, id, n);
    SenderRemembered(n, id, i);
    MemoryAsks(n, id);
    Later(s, id, n);
  }

  lemma SenderAsks(s: Client, id: string)
    requires Sound(s) && SenderDue(s, id)
    ensures AsksAgain(s, id)
  {
    hide Sound, Reaches, AsksAgain, HasId;
    var k :| 0 <= k < |s.senders| && Active(s, k) && s.senders[k].record < |s.records| && s.records[s.senders[k].record].id == id;
    if s.senders[k].phase.Storing? {
      var p :| 0 <= p < |s.sendLock| && SenderFitsAt(s, k, p);
      var n, m := StoringIsStored(s, id, k, p);
      ReachesSound(s, id, n);
      StoredSenderAsks(n, k, id);
      Later(s, id, n);
    } else {
      StoredSenderAsks(s, k, id);
    }
  }

  lemma CrashedIsStored(s: Client, id: string) returns (n: Client)
    requires Sound(s)
    ensures Reaches(s, id, n) && Sound(n) && n.acks == map[] && n.sends == s.sends && n.offered == s.offered
    ensures n.pending == Indexed(s.sends, |s.records|) && n.records == s.records + Loaded(s.sends)
  {
    hide Reaches, Enabled, Next, Leads, Safe, Idle, Visiting, SendersBound, ListsOk, SendLockOk, NoteLockOk,
         Offers, MarkingOut, AcksHeld, AsksAgain, Indexed;
    ReachesSelf(s, id);
    Crashes(s);
    var m := s.(running := false, born := |s.records|, pending := map[], senders := [], submits := map[], acks := map[],
                notifying := {}, flushes := [], sendLock := [], noteLock := []);
    Go(s, id, s, Crash, m);
    ReachesSound(s, id, m);
    n := Booted(m, id);
    Onward(s, id, m, n);
  }

  lemma OnlyEntry(items: seq<Entry<Body>>, i: nat, j: nat)
    requires DistinctIds(items) && i < |items| && j < |items| && items[i].id == items[j].id
    ensures i == j
  {
  }

  lemma StoredAsks(s: Client, id: string)
    requires Sound(s) && StoredDue(s, id)
    ensures AsksAgain(s, id)
  {
    hide Reaches, Enabled, Next, Leads, Safe, Idle, Visiting, SendersBound, SendLockOk, NoteLockOk, MarkingOut,
         AcksHeld, AsksAgain, Indexed, DistinctIds;
    var i :| 0 <= i < |s.sends| && EntryDue(s, i, id);
    var n := CrashedIsStored(s, id);
    IndexedExact(s.sends, |s.records|, id);
    OnlyEntry(s.sends, i, n.pending[id] - |s.records|);
    assert n.records[n.pending[id]] == Loaded(s.sends)[i];
    MemoryAsks(n, id);
    Later(s, id, n);
  }

  lemma FlushAsks(s: Client, id: string)
    requires Sound(s) && FlushDue(s, id)
    ensures AsksAgain(s, id)
  {
    hide Sound, AsksAgain;
    var f :| 0 <= f < |s.flushes| && (id in s.flushes[f].rest || s.flushes[f].visit == Requesting(id));
    if id in s.flushes[f].rest {
      ListedAsks(s, f, id);
    } else {
      RequestingAsks(s, f, id);
    }
  }

  // ---------- the theorem ----------

  lemma AsksAgainIffDue(s: Client, id: string)
    requires Sound(s)
    ensures AsksAgain(s, id) <==> Due(s, id)
  {
    hide Sound, AsksAgain, StoredDue, FlushDue, SenderDue, SubmitDue, MemoryDue, HasId;
    if StoredDue(s, id) {
      StoredAsks(s, id);
    } else if HasId(s.notes, id) {
      NotedAsks(s, id);
    } else if FlushDue(s, id) {
      FlushAsks(s, id);
    } else if SenderDue(s, id) {
      SenderAsks(s, id);
    } else if SubmitDue(s, id) {
      SubmittedAsks(s, id);
    } else if MemoryDue(s, id) {
      MemoryAsks(s, id);
    } else {
      NothingAsks(s, id);
    }
  }

  lemma NothingAsks(s: Client, id: string)
    requires Sound(s) && !Due(s, id)
    ensures !AsksAgain(s, id)
  {
    hide Sound, Due;
    if AsksAgain(s, id) {
      var n :| Reaches(s, id, n) && n.asked[id] > s.asked[id];
      var steps :| Via(s, id, steps, n);
      RunLeavesNothing(s, steps, id);
    }
  }

  /** In every reachable state the endpoint can be asked for an id once more, without another send of it, if and only
      if something of it is left: a stored record that was offered to the native side or has a destination, a stored
      notification, a flush or a request, a send that has stored its record or whose waiting call can still fit, a
      task that has not sent yet, or the id in memory, where it can still be sent, or was offered and is not just
      being forgotten. For an id that was accepted this is when notification is not exactly once. */
  lemma AskedAgainIff(sends: seq<Entry<Body>>, notes: seq<Entry<Note>>, offered: set<string>, steps: seq<Step>, id: string)
    requires LeftBehind(sends, notes, offered) && Legal(Initial(sends, notes, offered), steps)
    ensures var s := After(Initial(sends, notes, offered), steps); AsksAgain(s, id) <==> Due(s, id)
  {
    hide Sound, AsksAgain, Due;
    InitialSound(sends, notes, offered);
    RunSound(Initial(sends, notes, offered), steps);
    AsksAgainIffDue(After(Initial(sends, notes, offered), steps), id);
  }

  // ---------- what a send changes ----------

  lemma NewFits(s: Client, id: string, body: Body)
    requires Sound(s) && Enabled(s, Send(id, body))
    ensures SenderFits(Next(s, Send(id, body)), |s.senders|) <==> RoomForPut(s, id, |s.sendLock|)
    ensures var n := Next(s, Send(id, body));
      && |n.senders| == |s.senders| + 1 && n.senders[..|s.senders|] == s.senders && n.senders[|s.senders|].phase.Storing?
      && n.senders[|s.senders|].record < |n.records| && n.records[n.senders[|s.senders|].record].id == id
  {
    hide Idle, Visiting, SendersBound, ListsOk, NoteLockOk, Offers, MarkingOut, AcksHeld, SubmitOk, PostedOk, Roomy;
    var n := Next(s, Send(id, body));
    var k, p := |s.senders|, |s.sendLock|;
    assert n.sendLock[..p] == s.sendLock && s.sendLock[..p] == s.sendLock;
    assert !SendCallOk(s, PutCall(k));
    if RoomForPut(s, id, p) {
      assert SenderFitsAt(n, k, p);
    }
    if SenderFits(n, k) {
      var q :| 0 <= q < |n.sendLock| && SenderFitsAt(n, k, q);
      assert q == p;
    }
  }

  /** Beside the new sender, a send leaves nothing new of the id. */
  lemma SendLeaves(s: Client, id: string, body: Body)
    requires Sound(s) && Enabled(s, Send(id, body)) && Due(Next(s, Send(id, body)), id)
    ensures Due(s, id) || SenderDue(Next(s, Send(id, body)), id)
  {
    hide HasId, Idle, Visiting, SendersBound, ListsOk, SendLockOk, NoteLockOk, Offers, MarkingOut, AcksHeld,
         SubmitOk, PostedOk, SenderDue;
    var n := Next(s, Send(id, body));
    if StoredDue(n, id) {
      var i :| 0 <= i < |n.sends| && EntryDue(n, i, id);
      assert EntryDue(s, i, id);
    }
  }

  /** Where nothing is left of an id, a send of it can bring a request if and only if its call can be made to fit
      behind those that wait: at a full queue it cannot. */
  lemma SendAsksIff(s: Client, id: string, body: Body)
    requires Sound(s) && Enabled(s, Send(id, body)) && !Due(s, id)
    ensures AsksAgain(Next(s, Send(id, body)), id) <==> RoomForPut(s, id, |s.sendLock|)
  {
    hide Sound, Enabled, Next, AsksAgain, StoredDue, FlushDue, SubmitDue, MemoryDue, HasId, SenderFits, RoomForPut;
    var n := Next(s, Send(id, body));
    StepSound(s, Send(id, body));
    AsksAgainIffDue(n, id);
    NewFits(s, id, body);
    if RoomForPut(s, id, |s.sendLock|) {
      assert Active(n, |s.senders|);
    } else if Due(n, id) {
      SendLeaves(s, id, body);
      var k :| 0 <= k < |n.senders| && Active(n, k) && n.senders[k].record < |n.records| && n.records[n.senders[k].record].id == id;
      OldSenderDue(s, id, body, k);
    }
  }

  lemma OldSenderDue(s: Client, id: string, body: Body, k: nat)
    requires Sound(s) && Enabled(s, Send(id, body)) && k < |s.senders|
    requires var n := Next(s, Send(id, body));
      k < |n.senders| && Active(n, k) && n.senders[k].record < |n.records| && n.records[n.senders[k].record].id == id
    ensures SenderDue(s, id)
  {
    hide Next, Enabled, SenderFits, DistinctIds;
    hide Idle, Visiting, SendersBound, SendLockOk, NoteLockOk, Offers, MarkingOut, AcksHeld, SubmitOk, PostedOk;
    SenderStays(s, Send(id, body), k);
    ActiveBack(s, Send(id, body), k);
    RecordsGrow(s, Send(id, body));
    assert Active(s, k);
  }

  /** A submit brings an id that memory had lost back into it exactly when its native call succeeds late. */
  lemma SubmitBringsBackIff(s: Client, step: Step, id: string)
    requires Enabled(s, step) && IsSubmitStep(step) && id !in s.pending
    ensures id in Next(s, step).pending <==> step == Transmit(id, true)
  {
    hide Mutate, LifeStep, SenderStep, AckStep, NotifyStep;
  }
}
