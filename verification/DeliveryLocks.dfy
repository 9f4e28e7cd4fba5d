/** The calls that wait in the two locks: they settle in order, each belongs to what waits for it, and whether one
    can still succeed only ever turns from yes to no. */
module DeliveryLocks {
  import opened Wrappers
  import opened OutboxRecords
  import opened Delivery
  import opened DeliveryRuns
  import opened DeliverySends

  // ---------- room ----------

  /** A put of `id` behind calls that drop `drops` can be made to fit: the id is stored, or there is room, or one of
      those calls can make some. */
  predicate Roomy<B>(items: seq<Entry<B>>, drops: seq<Option<string>>, id: string) {
    || HasId(items, id) || |items| < MAX_OUTBOX_ITEMS
    || exists q :: 0 <= q < |drops| && drops[q].Some? && HasId(items, drops[q].value)
  }

  function DropOf<B>(m: Mutation<B>): Option<string> { if m.Drop? then Some(m.id) else None }

  /** A call settles: it fails, or its mutation takes effect. */
  predicate Took<B(==)>(items: seq<Entry<B>>, m: Option<Mutation<B>>, n: seq<Entry<B>>) {
    if m.None? then n == items else n == Mutate(items, m.value) && Fits(n)
  }

  lemma {:induction false} WithoutNothing<B>(items: seq<Entry<B>>, id: string)
    requires !HasId(items, id)
    ensures Without(items, id) == items
  {
    if items != [] {
      assert items[0].id != id;
      assert forall i :: 0 <= i < |items[1..]| ==> items[1..][i] == items[i + 1];
      WithoutNothing(items[1..], id);
    }
  }

  lemma {:induction false} WithoutOne<B>(items: seq<Entry<B>>, id: string)
    requires DistinctIds(items) && HasId(items, id)
    ensures |Without(items, id)| == |items| - 1
  {
    var tail := items[1..];
    assert forall i :: 0 <= i < |tail| ==> tail[i] == items[i + 1];
    if items[0].id == id {
      WithoutNothing(tail, id);
    } else {
      var i :| 0 <= i < |items| && items[i].id == id;
      assert tail[i - 1].id == id;
      WithoutOne(tail, id);
    }
  }

  lemma {:induction false} WithoutLength<B>(items: seq<Entry<B>>, id: string)
    ensures |Without(items, id)| <= |items|
    ensures HasId(items, id) ==> |Without(items, id)| < |items|
  {
    if items != [] {
      WithoutLength(items[1..], id);
      if HasId(items, id) && items[0].id != id {
        var i :| 0 <= i < |items| && items[i].id == id;
        assert items[1..][i - 1].id == id;
      }
    }
  }

  lemma FitsIsRoomy<B>(items: seq<Entry<B>>, e: Entry<B>)
    requires Fits(Mutate(items, Put(e)))
    ensures Roomy(items, [], e.id)
  {
    if !HasId(items, e.id) {
      WithoutNothing(items, e.id);
    }
  }

  lemma RoomyFits<B>(items: seq<Entry<B>>, e: Entry<B>)
    requires Fits(items) && Roomy(items, [], e.id)
    ensures Fits(Mutate(items, Put(e)))
  {
    WithoutLength(items, e.id);
  }

  /** A full list without `id`, and without anything to drop, stays so whatever settles. */
  lemma SettledBack<B>(items: seq<Entry<B>>, m: Option<Mutation<B>>, n: seq<Entry<B>>, drops: seq<Option<string>>, id: string)
    requires DistinctIds(items) && Fits(items) && drops != [] && Took(items, m, n) && (m.Some? ==> drops[0] == DropOf(m.value))
    requires Roomy(n, drops[1..], id)
    ensures Roomy(items, drops, id)
  {
    hide HasId, DistinctIds;
    if |items| == MAX_OUTBOX_ITEMS && !(drops[0].Some? && HasId(items, drops[0].value)) {
      SameIds(items, m, n);
      if !HasId(n, id) {
        var q :| 0 <= q < |drops[1..]| && drops[1..][q].Some? && HasId(n, drops[1..][q].value);
        assert drops[q + 1].Some? && HasId(items, drops[q + 1].value);
      }
    }
  }

  lemma SameIds<B>(items: seq<Entry<B>>, m: Option<Mutation<B>>, n: seq<Entry<B>>)
    requires DistinctIds(items) && |items| == MAX_OUTBOX_ITEMS && Took(items, m, n)
    requires m.Some? && m.value.Drop? ==> !HasId(items, m.value.id)
    ensures |n| == |items| && forall x :: HasId(n, x) <==> HasId(items, x)
  {
    hide HasId, DistinctIds;
    if m.Some? {
      forall x
        ensures HasId(n, x) <==> HasId(items, x)
      {
        match m.value {
          case Put(e) => PutInFull(items, e); PutIds(items, e, x);
          case Mark(id) => MarkIds(items, id, x);
          case Drop(id) => DropIds(items, id, x);
        }
      }
      match m.value {
        case Put(e) => PutInFull(items, e);
        case Mark(id) => MarkedExact(items, id);
        case Drop(id) => WithoutNothing(items, id);
      }
    }
  }

  lemma PutInFull<B>(items: seq<Entry<B>>, e: Entry<B>)
    requires DistinctIds(items) && |items| == MAX_OUTBOX_ITEMS && Fits(Mutate(items, Put(e)))
    ensures HasId(items, e.id) && |Mutate(items, Put(e))| == |items|
  {
    FitsIsRoomy(items, e);
    WithoutOne(items, e.id);
  }

  // ---------- the order of the calls ----------

  function DropOfSend(c: SendCall): Option<string> { if c.DropCall? then Some(c.id) else None }

  function SendDrops(calls: seq<SendCall>): (d: seq<Option<string>>)
    ensures |d| == |calls| && forall i :: 0 <= i < |d| ==> d[i] == DropOfSend(calls[i])
  {
    seq(|calls|, i requires 0 <= i < |calls| => DropOfSend(calls[i]))
  }

  predicate SendSettles(step: Step) { step.StoreSend? || step.MarkSubmitted? || step.DropSend? }

  predicate NoteSettles(step: Step) { step.StoreNote? || step.DropNote? }

  /** The mutation with which the first call of the send lock settles, or None for a failure. */
  function SendTaken(s: Client, step: Step): Option<Mutation<Body>>
    requires Enabled(s, step) && SendSettles(step)
  {
    match step
    case StoreSend(i, ok, submitted) => if ok then Some(Put(EntryOf(s.records[s.senders[i].record], submitted))) else None
    case MarkSubmitted(id, ok) => if ok then Some(Mark(id)) else None
    case DropSend(id, ok) => if ok then Some(Drop(id)) else None
  }

  function NoteTaken(s: Client, step: Step): Option<Mutation<Note>>
    requires Enabled(s, step) && NoteSettles(step)
  {
    match step
    case StoreNote(id, ok) => if ok then Some(Put(Entry(id, s.acks[id].note, false))) else None
    case DropNote(f, ok) => if ok then Some(Drop(s.flushes[f].visit.id)) else None
  }

  /** The calls that a step appends to the send lock. */
  function SendJoins(s: Client, step: Step): seq<SendCall> {
    match step
    case Send(_, _) => [PutCall(|s.senders|)]
    case Transmit(id, ok) => if ok then [MarkCall(id)] else []
    case StoreNote(id, ok) => if ok then [DropCall(id)] else []
    case _ => []
  }

  function NoteJoins(s: Client, step: Step): seq<NoteCall>
    requires Enabled(s, step)
  {
    match step
    case Echo(id, _) => if id in s.acks then [] else [NotePut(id)]
    case Notify(f, _, ok) => if ok then [NoteDrop(f, s.flushes[f].visit.id)] else []
    case _ => []
  }

  /** Only the first call settles, and it leaves the lock. */
  lemma SendSettled(s: Client, step: Step)
    requires Enabled(s, step) && SendSettles(step)
    ensures s.sendLock != [] && Next(s, step).sendLock == s.sendLock[1..]
    ensures Took(s.sends, SendTaken(s, step), Next(s, step).sends)
    ensures SendTaken(s, step).Some? ==> DropOfSend(s.sendLock[0]) == DropOf(SendTaken(s, step).value)
  {
    hide Mutate;
  }

  lemma SubmittingLock(s: Client, step: Step)
    requires Enabled(s, step) && (step.AfterStore? || step.FlushPending?)
    ensures Next(s, step).sendLock == s.sendLock && Next(s, step).sends == s.sends
  {
    SubmittingFrame(s, step);
  }

  /** Every other step of a process leaves the list alone, and new calls join behind. */
  lemma SendJoined(s: Client, step: Step)
    requires Enabled(s, step) && !SendSettles(step) && !IsLifeStep(step)
    ensures Next(s, step).sendLock == s.sendLock + SendJoins(s, step) && Next(s, step).sends == s.sends
  {
    hide Mutate, Submitting, LifeStep, NotifyStep;
    Frames(s, step);
    if step.AfterStore? || step.FlushPending? {
      SubmittingLock(s, step);
    }
  }

  lemma NoteSettled(s: Client, step: Step)
    requires Enabled(s, step) && NoteSettles(step)
    ensures s.noteLock != [] && Next(s, step).noteLock == s.noteLock[1..]
    ensures Took(s.notes, NoteTaken(s, step), Next(s, step).notes)
  {
    hide Mutate;
  }

  lemma NoteJoined(s: Client, step: Step)
    requires Enabled(s, step) && !NoteSettles(step) && !IsLifeStep(step)
    ensures Next(s, step).noteLock == s.noteLock + NoteJoins(s, step) && Next(s, step).notes == s.notes
  {
    hide Mutate, LifeStep, SenderStep, SubmitStep;
    Frames(s, step);
  }

  lemma TookDistinct<B>(items: seq<Entry<B>>, m: Option<Mutation<B>>, n: seq<Entry<B>>)
    requires Took(items, m, n)
    ensures DistinctIds(items) ==> DistinctIds(n)
    ensures Fits(items) ==> Fits(n)
  {
    hide Mutate;
    if m.Some? && DistinctIds(items) {
      MutateDistinct(items, m.value);
    }
  }

  /** Ids stay distinct and the lists stay within their bound. */
  lemma StepListsOk(s: Client, step: Step)
    requires Enabled(s, step)
    ensures DistinctIds(s.sends) ==> DistinctIds(Next(s, step).sends)
    ensures Fits(s.sends) ==> Fits(Next(s, step).sends)
    ensures DistinctIds(s.notes) ==> DistinctIds(Next(s, step).notes)
    ensures Fits(s.notes) ==> Fits(Next(s, step).notes)
  {
    hide Next, Took, DistinctIds;
    var n := Next(s, step);
    if IsLifeStep(step) {
      Frames(s, step);
    } else {
      if SendSettles(step) {
        SendSettled(s, step);
        TookDistinct(s.sends, SendTaken(s, step), n.sends);
      } else {
        SendJoined(s, step);
      }
      if NoteSettles(step) {
        NoteSettled(s, step);
        TookDistinct(s.notes, NoteTaken(s, step), n.notes);
      } else {
        NoteJoined(s, step);
      }
    }
  }

  // ---------- whether a put can still fit ----------

  predicate RoomForPut(s: Client, id: string, p: nat)
    requires p <= |s.sendLock|
  {
    Roomy(s.sends, SendDrops(s.sendLock[..p]), id)
  }

  predicate SenderFitsAt(s: Client, k: nat, p: nat)
    requires p < |s.sendLock|
  {
    && s.sendLock[p] == PutCall(k) && k < |s.senders| && s.senders[k].record < |s.records|
    && RoomForPut(s, s.records[s.senders[k].record].id, p)
  }

  /** The waiting call of sender `k` can still be made to fit. */
  predicate SenderFits(s: Client, k: nat) { exists p :: 0 <= p < |s.sendLock| && SenderFitsAt(s, k, p) }

  lemma RoomForPutBack(s: Client, step: Step, id: string, p: nat)
    requires DistinctIds(s.sends) && Fits(s.sends) && Enabled(s, step) && !IsLifeStep(step)
    requires p <= |Next(s, step).sendLock| && RoomForPut(Next(s, step), id, p)
    ensures SendSettles(step) ==> p + 1 <= |s.sendLock| && RoomForPut(s, id, p + 1)
    ensures !SendSettles(step) && p <= |s.sendLock| ==> RoomForPut(s, id, p)
  {
    hide Next, Enabled, Roomy, Took, DistinctIds;
    var n := Next(s, step);
    if SendSettles(step) {
      SendSettled(s, step);
      var drops := SendDrops(s.sendLock[..p + 1]);
      assert drops[1..] == SendDrops(n.sendLock[..p]);
      SettledBack(s.sends, SendTaken(s, step), n.sends, drops, id);
    } else if p <= |s.sendLock| {
      SendJoined(s, step);
      assert n.sendLock[..p] == s.sendLock[..p];
    }
  }

  /** The record of a sender stays the same one. */
  lemma SenderStays(s: Client, step: Step, k: nat)
    requires Enabled(s, step) && !IsLifeStep(step) && k < |s.senders|
    ensures k < |Next(s, step).senders| && Next(s, step).senders[k].record == s.senders[k].record
  {
    hide Mutate, HasId, Submitting, SubmitStep, AckStep, NotifyStep;
    Frames(s, step);
    if step.AfterStore? {
      SubmittingSenders(s, step);
    }
  }

  lemma SubmittingSenders(s: Client, step: Step)
    requires Enabled(s, step) && step.AfterStore?
    ensures Next(s, step).senders == s.senders[step.sender := s.senders[step.sender].(phase := Ended)]
  {
  }

  /** No waiting put comes to fit that could not before. */
  lemma SenderFitsBack(s: Client, step: Step, k: nat)
    requires DistinctIds(s.sends) && Fits(s.sends) && Enabled(s, step) && !IsLifeStep(step)
    requires k < |s.senders| && s.senders[k].record < |s.records| && SenderFits(Next(s, step), k)
    ensures SenderFits(s, k)
  {
    hide Next, Enabled, RoomForPut, DistinctIds;
    var n := Next(s, step);
    var p :| 0 <= p < |n.sendLock| && SenderFitsAt(n, k, p);
    SenderStays(s, step, k);
    RecordsGrow(s, step);
    RoomForPutBack(s, step, n.records[n.senders[k].record].id, p);
    if SendSettles(step) {
      SendSettled(s, step);
      assert SenderFitsAt(s, k, p + 1);
    } else {
      SendJoined(s, step);
      assert p < |s.sendLock| by { JoinedPut(s, step, k, p); }
      assert SenderFitsAt(s, k, p);
    }
  }

  lemma JoinedPut(s: Client, step: Step, k: nat, p: nat)
    requires k < |s.senders| && p < |s.sendLock + SendJoins(s, step)| && (s.sendLock + SendJoins(s, step))[p] == PutCall(k)
    ensures p < |s.sendLock|
  {
  }

  // ---------- who waits ----------

  predicate SendCallOk(s: Client, c: SendCall) {
    match c
    case PutCall(k) => k < |s.senders| && s.senders[k].phase.Storing?
    case MarkCall(id) => id in s.submits && s.submits[id].phase.Marking?
    case DropCall(id) => id in s.acks && s.acks[id].phase.Dropping?
  }

  predicate NoteCallOk(s: Client, c: NoteCall) {
    match c
    case NotePut(id) => id in s.acks && s.acks[id].phase.Noting?
    case NoteDrop(f, id) => f < |s.flushes| && s.flushes[f].visit == Clearing(id)
  }

  predicate Once<T(==)>(calls: seq<T>) { forall p, q :: 0 <= p < q < |calls| ==> calls[p] != calls[q] }

  /** The calls of the send lock are exactly those that something waits for, each once. */
  ghost predicate SendLockOk(s: Client) {
    Once(s.sendLock) && forall c :: c in s.sendLock <==> SendCallOk(s, c)
  }

  ghost predicate NoteLockOk(s: Client) {
    Once(s.noteLock) && forall c :: c in s.noteLock <==> NoteCallOk(s, c)
  }

  lemma PopOnce<T>(calls: seq<T>, c: T)
    requires Once(calls) && calls != []
    ensures Once(calls[1..]) && (c in calls[1..] <==> c in calls && c != calls[0])
  {
    if c in calls && c != calls[0] {
      var p :| 0 <= p < |calls| && calls[p] == c;
      assert calls[1..][p - 1] == c;
    }
    if c in calls[1..] {
      var p :| 0 <= p < |calls[1..]| && calls[1..][p] == c;
      assert calls[p + 1] == c;
    }
  }

  lemma JoinOnce<T>(calls: seq<T>, more: seq<T>)
    requires Once(calls) && |more| <= 1 && forall i :: 0 <= i < |more| ==> more[i] !in calls
    ensures Once(calls + more)
  {
  }

  /** What a settled call stood for is over; the others stay as they are. */
  lemma SettledCall(s: Client, step: Step, c: SendCall)
    requires Enabled(s, step) && SendSettles(step)
    ensures SendCallOk(Next(s, step), c) <==> SendCallOk(s, c) && c != s.sendLock[0]
  {
    hide Mutate, HasId;
  }

  lemma JoinedCall(s: Client, step: Step, c: SendCall)
    requires Enabled(s, step) && !SendSettles(step) && !IsLifeStep(step)
    ensures SendCallOk(Next(s, step), c) <==> SendCallOk(s, c) || c in SendJoins(s, step)
    ensures forall j :: j in SendJoins(s, step) ==> !SendCallOk(s, j)
  {
    hide Mutate, HasId, NotifyStep, SenderStep, SubmitStep, AckStep;
    Frames(s, step);
    if IsSenderStep(step) {
      JoinedSender(s, step, c);
    } else if IsSubmitStep(step) {
      JoinedSubmit(s, step, c);
    } else if IsAckStep(step) {
      JoinedAck(s, step, c);
    }
  }

  lemma JoinedSender(s: Client, step: Step, c: SendCall)
    requires Enabled(s, step) && IsSenderStep(step) && !SendSettles(step)
    ensures SendCallOk(SenderStep(s, step), c) <==> SendCallOk(s, c) || c in SendJoins(s, step)
    ensures forall j :: j in SendJoins(s, step) ==> !SendCallOk(s, j)
    ensures SenderStep(s, step).acks == s.acks
  {
    hide Mutate, HasId;
  }

  lemma JoinedSubmit(s: Client, step: Step, c: SendCall)
    requires Enabled(s, step) && IsSubmitStep(step) && !SendSettles(step)
    ensures SendCallOk(SubmitStep(s, step), c) <==> SendCallOk(s, c) || c in SendJoins(s, step)
    ensures forall j :: j in SendJoins(s, step) ==> !SendCallOk(s, j)
  {
    hide Mutate, HasId;
  }

  lemma JoinedAck(s: Client, step: Step, c: SendCall)
    requires Enabled(s, step) && IsAckStep(step) && !SendSettles(step)
    ensures SendCallOk(AckStep(s, step), c) <==> SendCallOk(s, c) || c in SendJoins(s, step)
    ensures forall j :: j in SendJoins(s, step) ==> !SendCallOk(s, j)
  {
    hide Mutate, HasId;
  }

  lemma StepSendLock(s: Client, step: Step)
    requires SendLockOk(s) && Enabled(s, step)
    ensures SendLockOk(Next(s, step))
  {
    hide Next, Once, SendCallOk;
    var n := Next(s, step);
    if IsLifeStep(step) {
      LifeSendLock(s, step);
    } else if SendSettles(step) {
      SendSettled(s, step);
      forall c
        ensures c in n.sendLock <==> SendCallOk(n, c)
      {
        SettledCall(s, step, c);
        PopOnce(s.sendLock, c);
      }
      PopOnce(s.sendLock, s.sendLock[0]);
    } else {
      SendJoined(s, step);
      forall c
        ensures c in n.sendLock <==> SendCallOk(n, c)
      {
        JoinedCall(s, step, c);
      }
      JoinedCall(s, step, MarkCall(""));
      JoinOnce(s.sendLock, SendJoins(s, step));
    }
  }

  lemma LifeSendLock(s: Client, step: Step)
    requires IsLifeStep(step) && Enabled(s, step) && SendLockOk(s)
    ensures SendLockOk(Next(s, step))
  {
    hide Indexed;
  }

  lemma SettledNote(s: Client, step: Step, c: NoteCall)
    requires Enabled(s, step) && NoteSettles(step)
    ensures NoteCallOk(Next(s, step), c) <==> NoteCallOk(s, c) && c != s.noteLock[0]
  {
    hide Mutate, HasId, LifeStep, SenderStep, SubmitStep;
    if step.StoreNote? {
      SettledNotePut(s, step, c);
    } else {
      SettledNoteDrop(s, step, c);
    }
  }

  lemma SettledNotePut(s: Client, step: Step, c: NoteCall)
    requires Enabled(s, step) && step.StoreNote?
    ensures NoteCallOk(AckStep(s, step), c) <==> NoteCallOk(s, c) && c != s.noteLock[0]
  {
    hide Mutate, HasId;
  }

  lemma SettledNoteDrop(s: Client, step: Step, c: NoteCall)
    requires Enabled(s, step) && step.DropNote?
    ensures NoteCallOk(NotifyStep(s, step), c) <==> NoteCallOk(s, c) && c != s.noteLock[0]
  {
    hide Mutate, HasId;
  }

  lemma JoinedNote(s: Client, step: Step, c: NoteCall)
    requires Enabled(s, step) && !NoteSettles(step) && !IsLifeStep(step)
    ensures NoteCallOk(Next(s, step), c) <==> NoteCallOk(s, c) || c in NoteJoins(s, step)
    ensures forall j :: j in NoteJoins(s, step) ==> !NoteCallOk(s, j)
  {
    hide Mutate, HasId, NotifyStep, SenderStep, SubmitStep, AckStep;
    Frames(s, step);
    if IsAckStep(step) {
      JoinedAckNote(s, step, c);
    } else if IsNotifyStep(step) {
      JoinedFlush(s, step, c);
    }
  }

  lemma JoinedAckNote(s: Client, step: Step, c: NoteCall)
    requires Enabled(s, step) && IsAckStep(step) && !NoteSettles(step)
    ensures NoteCallOk(AckStep(s, step), c) <==> NoteCallOk(s, c) || c in NoteJoins(s, step)
    ensures forall j :: j in NoteJoins(s, step) ==> !NoteCallOk(s, j)
  {
    hide Mutate, HasId;
  }

  lemma JoinedFlush(s: Client, step: Step, c: NoteCall)
    requires Enabled(s, step) && IsNotifyStep(step) && !NoteSettles(step)
    ensures NoteCallOk(NotifyStep(s, step), c) <==> NoteCallOk(s, c) || c in NoteJoins(s, step)
    ensures forall j :: j in NoteJoins(s, step) ==> !NoteCallOk(s, j)
  {
    hide NotifyStep, NoteCallOk, NoteJoins;
    match step {
      case LoadNotes => JoinedLoad(s, c);
      case Deliver(f) => JoinedDeliver(s, f, c);
      case Notify(f, reached, ok) => JoinedNotify(s, step, c);
      case _ =>
    }
  }

  lemma JoinedLoad(s: Client, c: NoteCall)
    requires Enabled(s, LoadNotes)
    ensures NoteJoins(s, LoadNotes) == [] && (NoteCallOk(NotifyStep(s, LoadNotes), c) <==> NoteCallOk(s, c))
  {
  }

  lemma JoinedDeliver(s: Client, f: nat, c: NoteCall)
    requires Enabled(s, Deliver(f))
    ensures NoteJoins(s, Deliver(f)) == [] && (NoteCallOk(NotifyStep(s, Deliver(f)), c) <==> NoteCallOk(s, c))
  {
  }

  lemma JoinedNotify(s: Client, step: Step, c: NoteCall)
    requires Enabled(s, step) && step.Notify?
    ensures NoteCallOk(NotifyStep(s, step), c) <==> NoteCallOk(s, c) || c in NoteJoins(s, step)
    ensures forall j :: j in NoteJoins(s, step) ==> !NoteCallOk(s, j)
  {
  }

  lemma StepNoteLock(s: Client, step: Step)
    requires NoteLockOk(s) && Enabled(s, step)
    ensures NoteLockOk(Next(s, step))
  {
    hide Next, Once, NoteCallOk;
    var n := Next(s, step);
    if IsLifeStep(step) {
      LifeNoteLock(s, step);
    } else if NoteSettles(step) {
      NoteSettled(s, step);
      forall c
        ensures c in n.noteLock <==> NoteCallOk(n, c)
      {
        SettledNote(s, step, c);
        PopOnce(s.noteLock, c);
      }
      PopOnce(s.noteLock, s.noteLock[0]);
    } else {
      NoteJoined(s, step);
      forall c
        ensures c in n.noteLock <==> NoteCallOk(n, c)
      {
        JoinedNote(s, step, c);
      }
      JoinedNote(s, step, NotePut(""));
      JoinOnce(s.noteLock, NoteJoins(s, step));
    }
  }

  lemma LifeNoteLock(s: Client, step: Step)
    requires IsLifeStep(step) && Enabled(s, step) && NoteLockOk(s)
    ensures NoteLockOk(Next(s, step))
  {
    hide Indexed;
  }
}
