/** Continuations that work off the two locks, make room for a waiting put where that is possible, and carry one
    record to the native side. */
module DeliveryRoom {
  import opened Wrappers
  import opened OutboxRecords
  import opened Delivery
  import opened DeliveryRuns
  import opened DeliverySends
  import opened DeliveryLocks
  import opened DeliveryOnce
  import opened DeliveryFutures
  import opened DeliveryMoves

  lemma Go(s: Client, id: string, m: Client, step: Step, n: Client)
    requires Reaches(s, id, m) && Leads(m, step, n) && !(step.Send? && step.id == id)
    ensures Reaches(s, id, n)
  {
    hide Reaches, Enabled, Next;
    Further(s, id, m, step);
  }

  lemma DropFits<B>(items: seq<Entry<B>>, id: string)
    requires Fits(items)
    ensures Fits(Mutate(items, Drop(id)))
    ensures HasId(items, id) ==> |Mutate(items, Drop(id))| < |items|
  {
    WithoutLength(items, id);
  }

  lemma FirstId<B>(items: seq<Entry<B>>)
    requires items != []
    ensures HasId(items, items[0].id)
  {
  }

  // ---------- the send lock ----------

  /** `m` is `s` with the first `p` calls of the send lock settled, none of them a successful put or mark. */
  ghost predicate Advanced(s: Client, m: Client, p: nat) {
    && p <= |s.sendLock|
    && m == s.(sendLock := s.sendLock[p..], sends := m.sends, senders := m.senders, submits := m.submits, acks := m.acks)
    && |m.senders| == |s.senders|
    && (forall k :: 0 <= k < |s.senders| ==> m.senders[k] == s.senders[k] || PutCall(k) in s.sendLock[..p])
    && (forall id :: id in m.submits ==> id in s.submits && m.submits[id] == s.submits[id])
    && (forall id :: id in s.submits ==> id in m.submits || MarkCall(id) in s.sendLock[..p])
    && (forall id :: id in m.acks ==> id in s.acks && (m.acks[id] == s.acks[id] || (s.acks[id].phase.Dropping? && m.acks[id].phase.Dropped?)))
    && (forall id :: id in s.acks ==> (id in m.acks && m.acks[id] == s.acks[id]) || DropCall(id) in s.sendLock[..p])
    && (forall id :: HasId(m.sends, id) ==> HasId(s.sends, id))
  }

  lemma AdvancedJoin(s: Client, m: Client, n: Client, p: nat, r: nat)
    requires Advanced(s, m, p) && Advanced(m, n, r)
    ensures Advanced(s, n, p + r)
  {
    hide HasId;
    assert s.sendLock[p..][r..] == s.sendLock[p + r..];
    assert s.sendLock[..p + r] == s.sendLock[..p] + m.sendLock[..r];
  }

  lemma AdvancedSelf(s: Client)
    ensures Advanced(s, s, 0)
  {
  }

  /** The first call of the send lock fails. */
  lemma FailFirst(s: Client, q: string) returns (m: Client)
    requires Sound(s) && s.sendLock != []
    ensures Reaches(s, q, m) && Advanced(s, m, 1) && m.sends == s.sends
  {
    hide Reaches, Enabled, Next, Leads, HasId, Safe, Idle, Visiting, ListsOk, NoteLockOk, Offers, MarkingOut, Once;
    ReachesSelf(s, q);
    var c := s.sendLock[0];
    assert c in s.sendLock && SendCallOk(s, c);
    assert c in s.sendLock[..1];
    match c {
      case PutCall(k) =>
        assert Bound(s, k);
        FailsToStore(s, k);
        m := s.(senders := s.senders[k := s.senders[k].(phase := Ended)], sendLock := s.sendLock[1..]);
        Go(s, q, s, StoreSend(k, false, false), m);
      case MarkCall(id) =>
        GivesUpMarking(s, id);
        m := s.(submits := s.submits - {id}, sendLock := s.sendLock[1..]);
        Go(s, q, s, MarkSubmitted(id, false), m);
      case DropCall(id) =>
        GivesUpDrop(s, id);
        m := s.(acks := s.acks - {id}, sendLock := s.sendLock[1..]);
        Go(s, q, s, DropSend(id, false), m);
    }
  }

  /** The first `p` calls fail. */
  lemma {:induction false} FailSends(s: Client, q: string, p: nat) returns (m: Client)
    requires Sound(s) && p <= |s.sendLock|
    ensures Reaches(s, q, m) && Advanced(s, m, p) && m.sends == s.sends
    decreases p
  {
    hide Reaches, Sound, Advanced;
    if p == 0 {
      ReachesSelf(s, q);
      AdvancedSelf(s);
      m := s;
    } else {
      var m1 := FailFirst(s, q);
      ReachesSound(s, q, m1);
      AdvancedLock(s, m1, 1);
      m := FailSends(m1, q, p - 1);
      Onward(s, q, m1, m);
      AdvancedJoin(s, m1, m, 1, p - 1);
    }
  }

  lemma AdvancedLock(s: Client, m: Client, p: nat)
    requires Advanced(s, m, p)
    ensures p <= |s.sendLock| && m.sendLock == s.sendLock[p..]
  {
  }

  /** A successful drop at the head. */
  lemma DropFirst(s: Client, q: string, y: string) returns (m: Client)
    requires Sound(s) && s.sendLock != [] && s.sendLock[0] == DropCall(y) && HasId(s.sends, y)
    ensures Reaches(s, q, m) && Advanced(s, m, 1) && |m.sends| < MAX_OUTBOX_ITEMS
  {
    hide Reaches, Enabled, Next, Leads, HasId, Safe, Idle, Visiting, NoteLockOk, Offers, MarkingOut, Once,
         Mutate, SendersBound, DistinctIds;
    ReachesSelf(s, q);
    assert DropCall(y) in s.sendLock && SendCallOk(s, DropCall(y));
    assert DropCall(y) in s.sendLock[..1];
    DropFits(s.sends, y);
    DropsSend(s, y);
    m := s.(sends := Mutate(s.sends, Drop(y)), acks := s.acks[y := s.acks[y].(phase := Dropped)], sendLock := s.sendLock[1..]);
    Go(s, q, s, DropSend(y, true), m);
    forall x | HasId(m.sends, x)
      ensures HasId(s.sends, x)
    {
      DropIds(s.sends, y, x);
    }
  }

  /** Where a put can still fit, the calls ahead of it can settle so that it does. */
  lemma RoomMade(s: Client, q: string, p: nat, id: string) returns (m: Client)
    requires Sound(s) && p <= |s.sendLock| && RoomForPut(s, id, p)
    ensures Reaches(s, q, m) && Advanced(s, m, p) && Roomy(m.sends, [], id)
  {
    hide Reaches, Sound, Advanced, HasId;
    if HasId(s.sends, id) || |s.sends| < MAX_OUTBOX_ITEMS {
      m := FailSends(s, q, p);
    } else {
      var drops := SendDrops(s.sendLock[..p]);
      var r :| 0 <= r < |drops| && drops[r].Some? && HasId(s.sends, drops[r].value);
      var y := drops[r].value;
      var m1 := FailSends(s, q, r);
      AdvancedLock(s, m1, r);
      ReachesSound(s, q, m1);
      var m2 := DropFirst(m1, q, y);
      Onward(s, q, m1, m2);
      AdvancedLock(m1, m2, 1);
      AdvancedJoin(s, m1, m2, r, 1);
      ReachesSound(s, q, m2);
      m := FailSends(m2, q, p - r - 1);
      Onward(s, q, m2, m);
      AdvancedJoin(s, m2, m, r + 1, p - r - 1);
    }
  }

  /** A waiting send that can still fit can be stored, behind the calls ahead of it. */
  lemma StoringIsStored(s: Client, q: string, k: nat, p: nat) returns (n: Client, m: Client)
    requires Sound(s) && p < |s.sendLock| && SenderFitsAt(s, k, p)
    ensures Reaches(s, q, n) && n.sendLock == s.sendLock[p + 1..]
    ensures HasId(n.sends, s.records[s.senders[k].record].id)
    ensures k < |n.senders| && n.senders[k] == s.senders[k].(phase := Stored)
    ensures Advanced(s, m, p)
    ensures k < |m.senders| && n == m.(senders := m.senders[k := m.senders[k].(phase := Stored)],
                                             sendLock := n.sendLock, sends := n.sends, enqueued := n.enqueued)
  {
    hide Reaches, Enabled, Next, Leads, HasId, Safe, Idle, Visiting, NoteLockOk, Offers, MarkingOut, Mutate,
         SendersBound, Roomy;
    var id := s.records[s.senders[k].record].id;
    m := RoomMade(s, q, p, id);
    ReachesSound(s, q, m);
    assert PutCall(k) in s.sendLock && SendCallOk(s, PutCall(k));
    OnceBefore(s.sendLock, p);
    assert m.sendLock[0] == PutCall(k) && m.senders[k] == s.senders[k];
    var e := EntryOf(m.records[m.senders[k].record], false);
    RoomyFits(m.sends, e);
    Stores(m, k);
    n := m.(senders := m.senders[k := m.senders[k].(phase := Stored)], sendLock := m.sendLock[1..],
            sends := Mutate(m.sends, Put(e)), enqueued := m.enqueued + {id});
    Go(s, q, m, StoreSend(k, true, false), n);
    PutIds(m.sends, e, id);
    assert s.sendLock[p..][1..] == s.sendLock[p + 1..];
  }

  lemma OnceBefore<T>(calls: seq<T>, p: nat)
    requires Once(calls) && p < |calls|
    ensures calls[p] !in calls[..p]
  {
  }

  // ---------- from memory to the native side ----------

  /** A task of the id can end without effect; only calls of the send lock fail on the way. */
  lemma SubmitCleared(s: Client, q: string, id: string) returns (m: Client)
    requires Sound(s)
    ensures Reaches(s, q, m) && id !in m.submits
    ensures m == s.(submits := m.submits, sendLock := m.sendLock, senders := m.senders, acks := m.acks)
    ensures forall x :: x in s.acks && !s.acks[x].phase.Dropping? ==> x in m.acks && m.acks[x] == s.acks[x]
    ensures forall x :: x in m.acks ==> x in s.acks
  {
    hide Reaches, Enabled, Next, Leads, Idle, SendersBound, Visiting, Heap, PostedOk, Offers, MarkingOut,
         NoteLockOk, ListsOk, HasId;
    ReachesSelf(s, q);
    m := s;
    if id in s.submits {
      assert SubmitOk(s, id);
      match s.submits[id].phase {
        case Binding =>
          FailsToBind(s, id);
          m := s.(submits := s.submits - {id});
          Go(s, q, s, Bind(id, false), m);
        case Sending(_) =>
          FailsToTransmit(s, id);
          m := s.(submits := s.submits - {id});
          Go(s, q, s, Transmit(id, false), m);
        case Marking =>
          assert SendCallOk(s, MarkCall(id));
          var p :| 0 <= p < |s.sendLock| && s.sendLock[p] == MarkCall(id);
          var m1 := FailSends(s, q, p);
          OnceBefore(s.sendLock, p);
          assert m1.sendLock[0] == MarkCall(id);
          GivesUpMarking(m1, id);
          m := m1.(submits := m1.submits - {id}, sendLock := m1.sendLock[1..]);
          Go(s, q, m1, MarkSubmitted(id, false), m);
          AcksKept(s, m1, p);
      }
    }
  }

  lemma AcksKept(s: Client, m: Client, p: nat)
    requires SendLockOk(s) && Advanced(s, m, p)
    ensures forall x :: x in s.acks && !s.acks[x].phase.Dropping? ==> x in m.acks && m.acks[x] == s.acks[x]
  {
    hide HasId, Once;
    forall x | x in s.acks && !s.acks[x].phase.Dropping?
      ensures x in m.acks && m.acks[x] == s.acks[x]
    {
      assert !SendCallOk(s, DropCall(x));
      assert DropCall(x) !in s.sendLock;
    }
  }

  /** What a record that goes out leaves behind: its task has yet to mark it. */
  function Gone(s: Client, i: nat, p: Posted, t: Submit): Client
    requires i < |s.records|
  {
    var id := s.records[i].id;
    s.(posted := s.posted + [p], records := s.records[i := s.records[i].(submitted := true)], pending := s.pending[id := i],
       submits := s.submits[id := t], sendLock := s.sendLock + [MarkCall(id)], offered := s.offered + {id})
  }

  /** A task that has not sent yet can send. */
  lemma GoesOut(s: Client, q: string, id: string) returns (n: Client, p: Posted, t: Submit)
    requires Sound(s) && id in s.submits && !s.submits[id].phase.Marking?
    ensures s.submits[id].record < |s.records| && s.records[s.submits[id].record].id == id
    ensures Reaches(s, q, n) && p.record == s.submits[id].record && n == Gone(s, s.submits[id].record, p, t)
  {
    hide Reaches, Enabled, Next, Leads, Idle, SendersBound, Visiting, Heap, PostedOk, NoteLockOk, SendLockOk,
         ListsOk, MarkingOut, HasId;
    ReachesSelf(s, q);
    assert SubmitOk(s, id);
    var i := s.submits[id].record;
    var m := s;
    if s.submits[id].phase.Binding? {
      Binds(s, id);
      m := s.(submits := s.submits[id := s.submits[id].(phase := Sending(s.records[i].body.destination.value.partner))],
              offered := s.offered + {id});
      Go(s, q, s, Bind(id, true), m);
    }
    assert id in m.offered && m.offered == s.offered + {id};
    var u := m.submits[id];
    Transmits(m, id);
    p := Posted(i, id, u.room, u.phase.bound);
    t := u.(phase := Marking);
    n := m.(posted := m.posted + [p], records := m.records[i := m.records[i].(submitted := true)],
            pending := m.pending[id := i], submits := m.submits[id := t], sendLock := m.sendLock + [MarkCall(id)]);
    Go(s, q, m, Transmit(id, true), n);
    assert n.submits == s.submits[id := t];
  }

  /** A record in memory that no task holds up can be sent. */
  lemma RememberedGoesOut(s: Client, q: string, id: string) returns (n: Client, p: Posted, t: Submit)
    requires Sound(s) && s.running && id in s.pending && id !in s.submits
    requires s.pending[id] < |s.records| && !s.records[s.pending[id]].submitted && s.records[s.pending[id]].body.destination.Some?
    ensures Reaches(s, q, n) && p.record == s.pending[id] && n == Gone(s, s.pending[id], p, t)
  {
    hide Reaches, Enabled, Next, Leads, Idle, SendersBound, Visiting, PostedOk, NoteLockOk, SendLockOk, ListsOk,
         MarkingOut, HasId, Offers;
    ReachesSelf(s, q);
    FlushStarts(s, id);
    var r := s.records[s.pending[id]];
    var m := s.(submits := s.submits[id := Submit(s.pending[id], r.body.destination.value.room, Binding)]);
    Go(s, q, s, FlushPending(id, ViewOf(r.body)), m);
    ReachesSound(s, q, m);
    n, p, t := GoesOut(m, q, id);
    Onward(s, q, m, n);
    assert n.submits == s.submits[id := t];
  }

  /** So can a stored send. */
  lemma StoredGoesOut(s: Client, q: string, k: nat) returns (n: Client, p: Posted, t: Submit)
    requires Sound(s) && s.running && k < |s.senders| && s.senders[k].phase.Stored?
    requires s.senders[k].record < |s.records| && !s.records[s.senders[k].record].submitted
    requires s.records[s.senders[k].record].id !in s.submits
    ensures Reaches(s, q, n) && p.record == s.senders[k].record
    ensures n == Gone(s.(senders := s.senders[k := s.senders[k].(phase := Ended)]), s.senders[k].record, p, t)
  {
    hide Reaches, Enabled, Next, Leads, Idle, Visiting, Safe, NoteLockOk, SendLockOk, ListsOk, MarkingOut,
         HasId, Offers;
    ReachesSelf(s, q);
    assert Bound(s, k);
    var i := s.senders[k].record;
    var r := s.records[i];
    StartsTask(s, k);
    var m := s.(senders := s.senders[k := s.senders[k].(phase := Ended)], pending := s.pending[r.id := i],
                submits := s.submits[r.id := Submit(i, r.body.destination.value.room, Binding)]);
    Go(s, q, s, AfterStore(k, ViewOf(r.body)), m);
    ReachesSound(s, q, m);
    n, p, t := GoesOut(m, q, r.id);
    Onward(s, q, m, n);
    assert n.submits == s.submits[r.id := t] && n.pending == s.pending[r.id := i];
  }

  // ---------- the lock of the notifications ----------

  /** `m` is `s` with the first `p` calls of the notification lock failed. */
  ghost predicate NotesAdvanced(s: Client, m: Client, p: nat) {
    && p <= |s.noteLock|
    && m == s.(noteLock := s.noteLock[p..], acks := m.acks, flushes := m.flushes, notifying := m.notifying)
    && (forall id :: id in m.acks ==> id in s.acks && m.acks[id] == s.acks[id])
    && (forall id :: id in s.acks ==> id in m.acks || NotePut(id) in s.noteLock[..p])
    && |m.flushes| == |s.flushes|
    && (forall f :: 0 <= f < |s.flushes| ==>
          m.flushes[f] == s.flushes[f] || (s.flushes[f].visit.Clearing? && m.flushes[f] == s.flushes[f].(visit := Between)))
    && (forall f :: 0 <= f < |s.flushes| && s.flushes[f].visit.Clearing? ==>
          m.flushes[f] == s.flushes[f] || NoteDrop(f, s.flushes[f].visit.id) in s.noteLock[..p])
    && m.notifying <= s.notifying
  }

  lemma NotesAdvancedJoin(s: Client, m: Client, n: Client, p: nat, r: nat)
    requires NotesAdvanced(s, m, p) && NotesAdvanced(m, n, r)
    ensures NotesAdvanced(s, n, p + r)
  {
    hide HasId;
    assert s.noteLock[p..][r..] == s.noteLock[p + r..];
    assert s.noteLock[..p + r] == s.noteLock[..p] + m.noteLock[..r];
  }

  lemma NotesAdvancedSelf(s: Client)
    ensures NotesAdvanced(s, s, 0)
  {
  }

  lemma NotesAdvancedLock(s: Client, m: Client, p: nat)
    requires NotesAdvanced(s, m, p)
    ensures p <= |s.noteLock| && m.noteLock == s.noteLock[p..]
  {
  }

  lemma FailFirstNote(s: Client, q: string) returns (m: Client)
    requires Sound(s) && s.noteLock != []
    ensures Reaches(s, q, m) && NotesAdvanced(s, m, 1)
  {
    hide Reaches, Enabled, Next, Leads, HasId, Safe, Idle, Visiting, ListsOk, SendLockOk, Offers, MarkingOut,
         Once, SendersBound;
    ReachesSelf(s, q);
    var c := s.noteLock[0];
    assert c in s.noteLock && NoteCallOk(s, c);
    assert c in s.noteLock[..1];
    match c {
      case NotePut(id) =>
        GivesUpNote(s, id);
        m := s.(acks := s.acks - {id}, noteLock := s.noteLock[1..]);
        Go(s, q, s, StoreNote(id, false), m);
      case NoteDrop(f, id) =>
        KeepsNote(s, f);
        m := s.(flushes := s.flushes[f := s.flushes[f].(visit := Between)], notifying := s.notifying - {id}, noteLock := s.noteLock[1..]);
        Go(s, q, s, DropNote(f, false), m);
    }
  }

  lemma {:induction false} FailNotes(s: Client, q: string, p: nat) returns (m: Client)
    requires Sound(s) && p <= |s.noteLock|
    ensures Reaches(s, q, m) && NotesAdvanced(s, m, p)
    decreases p
  {
    hide Reaches, Sound, NotesAdvanced;
    if p == 0 {
      ReachesSelf(s, q);
      NotesAdvancedSelf(s);
      m := s;
    } else {
      var m1 := FailFirstNote(s, q);
      ReachesSound(s, q, m1);
      NotesAdvancedLock(s, m1, 1);
      m := FailNotes(m1, q, p - 1);
      Onward(s, q, m1, m);
      NotesAdvancedJoin(s, m1, m, 1, p - 1);
    }
  }
}
