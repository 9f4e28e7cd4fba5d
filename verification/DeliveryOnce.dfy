/** When a process sends a logical id at most once: the records of one id that went out or still can. */
module DeliveryOnce {
  import opened Wrappers
  import opened OutboxRecords
  import opened Delivery
  import opened DeliveryRuns
  import opened DeliverySends
  import opened DeliveryLocks

  // ---------- records that count ----------

  /** Record `i` was sent by the running process. */
  predicate Out(s: Client, i: nat) { exists k :: 0 <= k < |s.posted| && s.posted[k].record == i }

  /** Sender `k` has stored its record, or its waiting call can still be made to fit. */
  predicate Active(s: Client, k: nat)
    requires k < |s.senders|
  {
    s.senders[k].phase.Stored? || (s.senders[k].phase.Storing? && SenderFits(s, k))
  }

  predicate SenderHas(s: Client, i: nat) { exists k :: 0 <= k < |s.senders| && Active(s, k) && s.senders[k].record == i }

  predicate SubmitHas(s: Client, i: nat) {
    i < |s.records| && s.records[i].id in s.submits
    && s.submits[s.records[i].id].record == i && !s.submits[s.records[i].id].phase.Marking?
  }

  predicate PendingHas(s: Client, i: nat) {
    i < |s.records| && s.records[i].id in s.pending && s.pending[s.records[i].id] == i
  }

  /** Record `i` can still be submitted: nothing has marked it, and a send, a submit or the memory holds it. */
  predicate Going(s: Client, i: nat) {
    i < |s.records| && !s.records[i].submitted && (SenderHas(s, i) || SubmitHas(s, i) || PendingHas(s, i))
  }

  predicate Alive(s: Client, i: nat) { Out(s, i) || Going(s, i) }

  /** For each logical id the running process has at most one record that was sent or can still be sent. */
  predicate OneAlive(s: Client) {
    forall i, j :: s.born <= i < j < |s.records| && Alive(s, i) && Alive(s, j) ==> s.records[i].id != s.records[j].id
  }

  predicate Rival(s: Client, id: string, i: nat) { s.born <= i < |s.records| && s.records[i].id == id && Alive(s, i) }

  /** A send that makes a second record, and whose call can be made to fit behind those that wait, although an
      earlier record of its id was sent or can still be. */
  predicate Duplicates(s: Client, step: Step) {
    && step.Send? && step.id !in s.pending && RoomForPut(s, step.id, |s.sendLock|)
    && exists i :: 0 <= i < |s.records| && Rival(s, step.id, i)
  }

  // ---------- nothing comes to life but by a send ----------

  lemma OutBack(s: Client, step: Step, i: nat)
    requires Safe(s) && Enabled(s, step) && Out(Next(s, step), i)
    ensures Alive(s, i)
  {
    hide Next, Enabled, PostedOk, Heap;
    var n := Next(s, step);
    var k :| 0 <= k < |n.posted| && n.posted[k].record == i;
    if step.Transmit? && step.ok {
      TransmitPosts(s, step.id);
      if k < |s.posted| {
        assert n.posted[..|s.posted|][k] == n.posted[k];
        assert s.posted[k].record == i;
      } else {
        TransmitAlive(s, step.id);
      }
    } else {
      PostedChange(s, step);
      assert s.posted[k].record == i;
    }
  }

  lemma TransmitAlive(s: Client, id: string)
    requires Safe(s) && Enabled(s, Transmit(id, true))
    ensures Going(s, s.submits[id].record)
    ensures Next(s, Transmit(id, true)).posted == s.posted + [Posted(s.submits[id].record, id, s.submits[id].room, s.submits[id].phase.bound)]
  {
    assert SubmitOk(s, id);
    assert SubmitHas(s, s.submits[id].record);
  }

  lemma SenderBack(s: Client, step: Step, i: nat)
    requires Safe(s) && DistinctIds(s.sends) && Fits(s.sends) && Enabled(s, step) && !IsLifeStep(step) && i < |s.records|
    requires !s.records[i].submitted && SenderHas(Next(s, step), i)
    ensures Going(s, i)
  {
    hide Next, Enabled, SubmitOk, PostedOk, SenderFits, DistinctIds;
    var n := Next(s, step);
    var k :| 0 <= k < |n.senders| && Active(n, k) && n.senders[k].record == i;
    if k < |s.senders| {
      SenderStays(s, step, k);
      ActiveBack(s, step, k);
    } else {
      NewSender(s, step, k);
      assert PendingHas(s, i);
    }
  }

  lemma NewSender(s: Client, step: Step, k: nat)
    requires Safe(s) && Enabled(s, step) && !IsLifeStep(step) && |s.senders| <= k < |Next(s, step).senders|
    requires Next(s, step).senders[k].record < |s.records|
    ensures PendingHas(s, Next(s, step).senders[k].record)
  {
    hide Mutate, HasId, Submitting, SubmitStep, AckStep, NotifyStep, SubmitOk, PostedOk;
    Frames(s, step);
    if step.AfterStore? {
      AfterStoreSenders(s, step);
    }
  }

  lemma ActiveBack(s: Client, step: Step, k: nat)
    requires Safe(s) && DistinctIds(s.sends) && Fits(s.sends) && Enabled(s, step) && !IsLifeStep(step)
    requires k < |s.senders| && k < |Next(s, step).senders| && Active(Next(s, step), k)
    ensures Active(s, k)
  {
    hide Next, SenderFits, DistinctIds, SubmitOk, PostedOk;
    PhaseBack(s, step, k);
    if s.senders[k].phase.Storing? {
      if Next(s, step).senders[k].phase.Stored? {
        HeadFits(s, step);
      } else {
        SenderFitsBack(s, step, k);
      }
    }
  }

  lemma PhaseBack(s: Client, step: Step, k: nat)
    requires Enabled(s, step) && !IsLifeStep(step) && k < |s.senders| && k < |Next(s, step).senders|
    requires !Next(s, step).senders[k].phase.Ended?
    ensures !s.senders[k].phase.Ended?
    ensures s.senders[k].phase.Storing? && Next(s, step).senders[k].phase.Stored? ==> step.StoreSend? && step.ok && step.sender == k
    ensures s.senders[k].phase.Stored? ==> Next(s, step).senders[k].phase.Stored?
  {
    hide Mutate, HasId, Submitting, SubmitStep, AckStep, NotifyStep;
    Frames(s, step);
    if step.AfterStore? {
      AfterStoreSenders(s, step);
    }
  }

  lemma HeadFits(s: Client, step: Step)
    requires Enabled(s, step) && step.StoreSend? && step.ok
    ensures SenderFits(s, step.sender)
  {
    hide Mutate;
    var r := s.records[s.senders[step.sender].record];
    FitsIsRoomy(s.sends, EntryOf(r, step.submitted));
    assert SendDrops(s.sendLock[..0]) == [];
    assert SenderFitsAt(s, step.sender, 0);
  }

  lemma AfterStoreSenders(s: Client, step: Step)
    requires Enabled(s, step) && step.AfterStore?
    ensures Next(s, step).senders == s.senders[step.sender := s.senders[step.sender].(phase := Ended)]
    ensures Next(s, step).pending == s.pending[s.records[s.senders[step.sender].record].id := s.senders[step.sender].record]
  {
  }

  lemma SubmitBack(s: Client, step: Step, i: nat)
    requires Safe(s) && Enabled(s, step) && !IsLifeStep(step) && i < |s.records|
    requires !s.records[i].submitted && SubmitHas(Next(s, step), i) && Next(s, step).records[i].id == s.records[i].id
    ensures Going(s, i)
  {
    hide Mutate, HasId, Indexed, AckStep, NotifyStep, SubmitOk, PostedOk, SenderStep, SubmitStep;
    Frames(s, step);
    if IsSenderStep(step) {
      SenderSubmitBack(s, step, i);
    } else if IsSubmitStep(step) {
      SubmitSubmitBack(s, step, i);
    }
  }

  lemma SenderSubmitBack(s: Client, step: Step, i: nat)
    requires Safe(s) && Enabled(s, step) && IsSenderStep(step) && i < |s.records|
    requires !s.records[i].submitted && SubmitHas(SenderStep(s, step), i) && SenderStep(s, step).records[i].id == s.records[i].id
    ensures Going(s, i)
  {
    hide Mutate, HasId, SubmitOk, PostedOk;
    if step.AfterStore? && i == s.senders[step.sender].record {
      assert Active(s, step.sender);
    }
  }

  lemma FlushSubmitBack(s: Client, step: Step, i: nat)
    requires Safe(s) && Enabled(s, step) && step.FlushPending? && i < |s.records|
    requires !s.records[i].submitted && SubmitHas(SubmitStep(s, step), i)
    ensures Going(s, i)
  {
    hide SubmitOk, PostedOk;
    assert PendingHas(s, s.pending[step.id]);
  }

  lemma SubmitKept(s: Client, step: Step, id: string)
    requires Enabled(s, step) && IsSubmitStep(step) && !step.FlushPending?
    requires id in SubmitStep(s, step).submits && !SubmitStep(s, step).submits[id].phase.Marking?
    ensures id in s.submits && !s.submits[id].phase.Marking? && s.submits[id].record == SubmitStep(s, step).submits[id].record
  {
    hide Mutate, HasId;
  }

  lemma SubmitSubmitBack(s: Client, step: Step, i: nat)
    requires Safe(s) && Enabled(s, step) && IsSubmitStep(step) && i < |s.records|
    requires !s.records[i].submitted && SubmitHas(SubmitStep(s, step), i) && SubmitStep(s, step).records[i].id == s.records[i].id
    ensures Going(s, i)
  {
    hide SubmitStep, Safe;
    if step.FlushPending? {
      FlushSubmitBack(s, step, i);
    } else {
      SubmitKept(s, step, s.records[i].id);
      assert SubmitHas(s, i);
    }
  }

  lemma SenderPendingBack(s: Client, step: Step, i: nat)
    requires Safe(s) && Enabled(s, step) && IsSenderStep(step) && i < |s.records|
    requires !s.records[i].submitted && PendingHas(Next(s, step), i) && Next(s, step).records[i].id == s.records[i].id
    ensures Going(s, i)
  {
    hide Mutate, HasId, SubmitOk, PostedOk, Submitting;
    if step.AfterStore? {
      AfterStoreSenders(s, step);
      if i == s.senders[step.sender].record {
        assert Active(s, step.sender);
      } else {
        assert PendingHas(s, i);
      }
    } else {
      assert PendingHas(s, i);
    }
  }

  lemma FlushFrame(s: Client, step: Step)
    requires Enabled(s, step) && step.FlushPending?
    ensures Next(s, step).pending == s.pending
  {
  }

  lemma SubmitPendingBack(s: Client, step: Step, i: nat)
    requires Safe(s) && Enabled(s, step) && IsSubmitStep(step) && i < |s.records|
    requires !s.records[i].submitted && PendingHas(Next(s, step), i) && Next(s, step).records[i].id == s.records[i].id
    requires !Next(s, step).records[i].submitted
    ensures Going(s, i)
  {
    hide Mutate, HasId, PostedOk, Submitting;
    if step.FlushPending? {
      FlushFrame(s, step);
    } else if step.Transmit? {
      assert SubmitOk(s, step.id);
    }
    assert PendingHas(s, i);
  }

  lemma PendingBack(s: Client, step: Step, i: nat)
    requires Safe(s) && Enabled(s, step) && !IsLifeStep(step) && i < |s.records|
    requires !s.records[i].submitted && PendingHas(Next(s, step), i) && Next(s, step).records[i].id == s.records[i].id
    requires !Next(s, step).records[i].submitted
    ensures Going(s, i)
  {
    hide SenderStep, SubmitStep, NotifyStep, PostedOk, SubmitOk, Mutate;
    Frames(s, step);
    if IsSenderStep(step) {
      SenderPendingBack(s, step, i);
    } else if IsSubmitStep(step) {
      SubmitPendingBack(s, step, i);
    } else {
      assert PendingHas(s, i);
    }
  }

  lemma AliveBack(s: Client, step: Step, i: nat)
    requires Safe(s) && DistinctIds(s.sends) && Fits(s.sends) && Enabled(s, step) && !IsLifeStep(step) && i < |s.records| && Alive(Next(s, step), i)
    ensures Alive(s, i)
  {
    hide Next, Enabled, Safe, SenderHas, SubmitHas, PendingHas, Out;
    var n := Next(s, step);
    RecordsGrow(s, step);
    if Out(n, i) {
      OutBack(s, step, i);
    } else if SenderHas(n, i) {
      SenderBack(s, step, i);
    } else if SubmitHas(n, i) {
      SubmitBack(s, step, i);
    } else {
      PendingBack(s, step, i);
    }
  }

  lemma RecordsStay(s: Client, step: Step)
    requires Enabled(s, step) && !IsLifeStep(step)
    ensures |Next(s, step).records| == |s.records| + (if step.Send? && step.id !in s.pending then 1 else 0)
    ensures step.Send? && step.id !in s.pending ==> Next(s, step).records[|s.records|] == Record(step.id, step.body, false)
  {
    hide Mutate, HasId, Indexed, Submitting, AckStep, NotifyStep;
    Frames(s, step);
    if step.AfterStore? || step.FlushPending? {
      SubmittingFrame(s, step);
    }
  }

  // ---------- the exact condition ----------

  lemma BootOneAlive(s: Client)
    requires Enabled(s, Boot) && DistinctIds(s.sends)
    ensures OneAlive(Next(s, Boot))
  {
    hide Indexed, Alive;
    var n := Next(s, Boot);
    forall i, j | n.born <= i < j < |n.records|
      ensures n.records[i].id != n.records[j].id
    {
      assert n.records[i].id == s.sends[i - n.born].id && n.records[j].id == s.sends[j - n.born].id;
    }
  }

  lemma NewIsAlive(s: Client, step: Step)
    requires Safe(s) && Enabled(s, step) && step.Send? && step.id !in s.pending && RoomForPut(s, step.id, |s.sendLock|)
    ensures Alive(Next(s, step), |s.records|)
  {
    hide Mutate, HasId, SubmitOk, PostedOk, Roomy;
    var n := Next(s, step);
    var k, p := |s.senders|, |s.sendLock|;
    assert n.senders[k] == Sender(|s.records|, Storing) && n.records[|s.records|].id == step.id;
    assert n.sendLock[..p] == s.sendLock;
    assert s.sendLock[..p] == s.sendLock;
    assert SenderFitsAt(n, k, p);
    assert Active(n, k);
    assert SenderHas(n, |s.records|);
  }

  lemma FullIsDead(s: Client, step: Step)
    requires Safe(s) && SendLockOk(s) && Enabled(s, step) && step.Send? && step.id !in s.pending && !RoomForPut(s, step.id, |s.sendLock|)
    ensures !Alive(Next(s, step), |s.records|)
  {
    hide Mutate, HasId, Roomy;
    var n := Next(s, step);
    var i := |s.records|;
    assert n.records[i].id == step.id && n.posted == s.posted && n.submits == s.submits && n.pending == s.pending;
    forall k | 0 <= k < |n.posted|
      ensures n.posted[k].record != i
    {
      assert PostedOk(s, s.posted[k]);
    }
    if step.id in s.submits {
      assert SubmitOk(s, step.id);
    }
    NewSenderDead(s, step);
  }

  lemma NewSenderDead(s: Client, step: Step)
    requires Heap(s) && SendLockOk(s) && Enabled(s, step) && step.Send? && step.id !in s.pending && !RoomForPut(s, step.id, |s.sendLock|)
    ensures !SenderHas(Next(s, step), |s.records|)
  {
    hide Mutate, HasId, Roomy;
    var n := Next(s, step);
    var added := |s.senders|;
    assert !SendCallOk(s, PutCall(added));
    assert n.sendLock[..|s.sendLock|] == s.sendLock && s.sendLock[..|s.sendLock|] == s.sendLock;
    forall k | 0 <= k < |n.senders| && n.senders[k].record == |s.records|
      ensures !Active(n, k)
    {
      assert k == added;
      forall p | 0 <= p < |n.sendLock| && n.sendLock[p] == PutCall(added)
        ensures !SenderFitsAt(n, k, p)
      {
        assert p == |s.sendLock|;
      }
    }
  }

  lemma SendKeepsAlive(s: Client, step: Step, i: nat)
    requires Safe(s) && Enabled(s, step) && step.Send? && i < |s.records| && Alive(s, i)
    ensures Alive(Next(s, step), i)
  {
    hide Mutate, HasId, SubmitOk, PostedOk, Roomy;
    var n := Next(s, step);
    assert n.posted == s.posted && n.submits == s.submits && n.pending == s.pending && n.records[i] == s.records[i];
    if SenderHas(s, i) {
      var k :| 0 <= k < |s.senders| && Active(s, k) && s.senders[k].record == i;
      assert n.senders[k] == s.senders[k];
      if s.senders[k].phase.Storing? {
        var p :| 0 <= p < |s.sendLock| && SenderFitsAt(s, k, p);
        assert n.sendLock[..p] == s.sendLock[..p];
        assert SenderFitsAt(n, k, p);
      }
      assert Active(n, k);
    }
  }

  /** A step keeps at most one record of each id alive if and only if it is not a duplicating send. */
  lemma StepOneAlive(s: Client, step: Step)
    requires Safe(s) && SendLockOk(s) && Enabled(s, step) && DistinctIds(s.sends) && Fits(s.sends) && OneAlive(s)
    ensures OneAlive(Next(s, step)) <==> !Duplicates(s, step)
  {
    hide Next, Enabled, Alive, DistinctIds, SubmitOk, PostedOk, Heap, RoomForPut;
    var n := Next(s, step);
    if step.Boot? {
      BootOneAlive(s);
    } else if step.Crash? {
      CrashForgets(s);
    } else {
      RecordsStay(s, step);
      RecordsGrow(s, step);
      BornStays(s, step);
      if Duplicates(s, step) {
        var i :| 0 <= i < |s.records| && Rival(s, step.id, i);
        SendKeepsAlive(s, step, i);
        NewIsAlive(s, step);
      } else {
        forall i, j | n.born <= i < j < |n.records| && Alive(n, i) && Alive(n, j)
          ensures n.records[i].id != n.records[j].id
        {
          AliveBack(s, step, i);
          if j < |s.records| {
            AliveBack(s, step, j);
          } else {
            assert Rival(s, n.records[i].id, i);
            if !RoomForPut(s, step.id, |s.sendLock|) {
              FullIsDead(s, step);
            }
          }
        }
      }
    }
  }

  lemma CrashForgets(s: Client)
    ensures OneAlive(Next(s, Crash))
  {
    hide Alive;
  }

  lemma BornStays(s: Client, step: Step)
    requires Enabled(s, step) && !IsLifeStep(step)
    ensures Next(s, step).born == s.born
  {
    hide Next;
    Frames(s, step);
  }

  predicate NeverDuplicates(s: Client, steps: seq<Step>)
    requires Legal(s, steps)
    decreases |steps|
  {
    steps != [] ==> !Duplicates(s, steps[0]) && NeverDuplicates(Next(s, steps[0]), steps[1..])
  }

  lemma {:induction false} RunOneAlive(s: Client, steps: seq<Step>)
    requires Safe(s) && SendLockOk(s) && Legal(s, steps) && DistinctIds(s.sends) && Fits(s.sends) && OneAlive(s) && NeverDuplicates(s, steps)
    ensures OneAlive(After(s, steps)) && Safe(After(s, steps))
    decreases |steps|
  {
    hide Safe, SendLockOk, Enabled, Next, OneAlive, Duplicates, DistinctIds;
    if steps != [] {
      StepSafe(s, steps[0]);
      StepOneAlive(s, steps[0]);
      StepListsOk(s, steps[0]);
      StepSendLock(s, steps[0]);
      RunOneAlive(Next(s, steps[0]), steps[1..]);
    }
  }

  /** Without a duplicating send, a process sends each logical id at most once; failed enqueues, retries and
      acknowledgements of other devices' messages do not count. */
  lemma OncePerLogicalId(sends: seq<Entry<Body>>, notes: seq<Entry<Note>>, offered: set<string>, steps: seq<Step>, i: nat, j: nat)
    requires DistinctIds(sends) && Fits(sends) && Legal(Initial(sends, notes, offered), steps)
    requires NeverDuplicates(Initial(sends, notes, offered), steps)
    requires var s := After(Initial(sends, notes, offered), steps);
      i < j < |s.posted| && s.posted[i].record >= s.born && s.posted[j].record >= s.born
    ensures var s := After(Initial(sends, notes, offered), steps); s.posted[i].id != s.posted[j].id
  {
    hide Next, Enabled, Legal, NeverDuplicates;
    InitialSafe(sends, notes, offered);
    InitialOneAlive(sends, notes, offered);
    RunOneAlive(Initial(sends, notes, offered), steps);
    var s := After(Initial(sends, notes, offered), steps);
    assert PostedOk(s, s.posted[i]) && PostedOk(s, s.posted[j]);
    assert Out(s, s.posted[i].record) && Out(s, s.posted[j].record);
  }

  lemma InitialOneAlive(sends: seq<Entry<Body>>, notes: seq<Entry<Note>>, offered: set<string>)
    ensures OneAlive(Initial(sends, notes, offered))
  {
  }
}
