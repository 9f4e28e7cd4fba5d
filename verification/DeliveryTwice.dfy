/** The other half of DeliveryOnce: from every reachable state, a duplicating send can lead to two sends of its id. */
module DeliveryTwice {
  import opened Wrappers
  import opened OutboxRecords
  import opened Delivery
  import opened DeliveryRuns
  import opened DeliverySends
  import opened DeliveryLocks
  import opened DeliveryOnce
  import opened DeliveryFutures
  import opened DeliveryMoves
  import opened DeliveryRoom

  lemma ReachesGrows(s: Client, id: string, n: Client)
    requires Sound(s) && Reaches(s, id, n)
    ensures Grows(s.records, n.records)
  {
    hide Safe, Idle, SendersBound, Visiting;
    var steps :| Via(s, id, steps, n);
    RunSafe(s, steps);
  }

  /** Sender `j` waits for record `r` of the id to be stored, and its call can still fit. */
  predicate Waits(m: Client, id: string, j: nat, r: nat) {
    && m.running && j < |m.senders| && m.senders[j] == Sender(r, Storing) && SenderFits(m, j)
    && r < |m.records| && m.records[r].id == id && !m.records[r].submitted && m.records[r].body.destination.Some?
  }

  lemma AppendedOut(posted: seq<Posted>, p: Posted, s: Client)
    requires s.posted == posted + [p]
    ensures Out(s, p.record)
  {
    assert s.posted[|posted|] == p;
  }

  /** A record that goes out takes no call from the send lock. */
  lemma GoneWaits(m: Client, id: string, i: nat, p: Posted, t: Submit, j: nat, r: nat)
    requires Waits(m, id, j, r) && i < |m.records| && i != r && p.record == i
    ensures Waits(Gone(m, i, p, t), id, j, r) && Out(Gone(m, i, p, t), i)
  {
    hide Roomy;
    var n := Gone(m, i, p, t);
    var k :| 0 <= k < |m.sendLock| && SenderFitsAt(m, j, k);
    assert n.sendLock[..k] == m.sendLock[..k];
    assert SenderFitsAt(n, j, k);
    AppendedOut(m.posted, p, n);
  }

  lemma EndedWaits(m: Client, id: string, k: nat, j: nat, r: nat)
    requires Waits(m, id, j, r) && k < |m.senders| && k != j
    ensures Waits(m.(senders := m.senders[k := m.senders[k].(phase := Ended)]), id, j, r)
  {
    hide Roomy;
    var n := m.(senders := m.senders[k := m.senders[k].(phase := Ended)]);
    var p :| 0 <= p < |m.sendLock| && SenderFitsAt(m, j, p);
    assert SenderFitsAt(n, j, p);
  }

  /** A sender that has stored its record of the id submits it. */
  lemma StoredRival(s: Client, id: string, k: nat, j: nat, r: nat) returns (m: Client)
    requires Sound(s) && Waits(s, id, j, r) && id !in s.submits
    requires k < |s.senders| && s.senders[k].phase.Stored?
    requires s.senders[k].record < r && s.records[s.senders[k].record].id == id && !s.records[s.senders[k].record].submitted
    ensures Reaches(s, id, m) && Waits(m, id, j, r) && Out(m, s.senders[k].record) && m.born == s.born
  {
    hide Sound, Reaches, SenderFits;
    var p, t;
    m, p, t := StoredGoesOut(s, id, k);
    EndedWaits(s, id, k, j, r);
    GoneWaits(s.(senders := s.senders[k := s.senders[k].(phase := Ended)]), id, s.senders[k].record, p, t, j, r);
  }

  /** One whose call waits ahead stores it first. */
  lemma StoringRival(s: Client, id: string, k: nat, j: nat, r: nat) returns (m: Client)
    requires Sound(s) && Waits(s, id, j, r) && id !in s.submits && s.sendLock != [] && s.sendLock[|s.sendLock| - 1] == PutCall(j)
    requires k < |s.senders| && s.senders[k].phase.Storing? && SenderFits(s, k)
    requires s.senders[k].record < r && s.records[s.senders[k].record].id == id && !s.records[s.senders[k].record].submitted
    ensures Reaches(s, id, m) && Waits(m, id, j, r) && Out(m, s.senders[k].record) && m.born == s.born
  {
    hide Reaches, HasId, Safe, Idle, Visiting, ListsOk, NoteLockOk, Offers, MarkingOut, SendersBound;
    var p :| 0 <= p < |s.sendLock| && SenderFitsAt(s, k, p);
    var m1, a := StoringIsStored(s, id, k, p);
    ReachesSound(s, id, m1);
    var last := |s.sendLock| - 1;
    assert p < last;
    assert PutCall(j) !in s.sendLock[..p] by { OnceBefore(s.sendLock, last); }
    assert m1.senders[j] == s.senders[j] && m1.records == s.records;
    assert m1.sendLock[last - p - 1] == PutCall(j);
    assert SenderFitsAt(m1, j, last - p - 1);
    m := StoredRival(m1, id, k, j, r);
    Onward(s, id, m1, m);
  }

  /** An earlier record of the id that can still go out does so first. */
  lemma RivalGoesOut(s: Client, id: string, i: nat, j: nat, r: nat) returns (m: Client, first: nat)
    requires Sound(s) && Waits(s, id, j, r) && s.sendLock != [] && s.sendLock[|s.sendLock| - 1] == PutCall(j)
    requires Alive(s, i) && !PendingHas(s, i) && s.born <= i < r && s.records[i].id == id
    requires id in s.submits ==> s.submits[id].record < r
    ensures Reaches(s, id, m) && Waits(m, id, j, r) && s.born <= first < r && s.records[first].id == id && Out(m, first) && m.born == s.born
  {
    hide Reaches, Idle, Visiting, SendersBound, SenderFits, SendLockOk, NoteLockOk, Offers, ListsOk, PostedOk;
    ReachesSelf(s, id);
    m, first := s, i;
    if id in s.submits {
      assert SubmitOk(s, id) && MarkedOut(s, id);
      first := s.submits[id].record;
      if !s.submits[id].phase.Marking? {
        var p, t;
        m, p, t := GoesOut(s, id, id);
        GoneWaits(s, id, first, p, t, j, r);
      }
    } else if !Out(s, i) {
      var k :| 0 <= k < |s.senders| && Active(s, k) && s.senders[k].record == i;
      if s.senders[k].phase.Storing? {
        m := StoringRival(s, id, k, j, r);
      } else {
        m := StoredRival(s, id, k, j, r);
      }
    }
  }

  /** Then the new record enters memory, and goes out from there. */
  lemma SecondGoesOut(m: Client, id: string, i: nat, j: nat, r: nat) returns (n: Client)
    requires Sound(m) && Waits(m, id, j, r) && Out(m, i)
    ensures Reaches(m, id, n) && Out(n, i) && Out(n, r) && n.born == m.born
  {
    hide Reaches, Enabled, Next, Leads, Idle, Visiting, Safe, SendersBound, HasId, SendLockOk, NoteLockOk,
         Offers, MarkingOut, ListsOk;
    var k :| 0 <= k < |m.sendLock| && SenderFitsAt(m, j, k);
    var m1, a := StoringIsStored(m, id, j, k);
    assert m1.records == m.records && m1.posted == m.posted && m1.running;
    Remembers(m1, j);
    var m2 := m1.(senders := m1.senders[j := m1.senders[j].(phase := Ended)], pending := m1.pending[id := r]);
    Go(m, id, m1, AfterStore(j, NO_ROOM), m2);
    ReachesSound(m, id, m2);
    var m3 := SubmitCleared(m2, id, id);
    Onward(m, id, m2, m3);
    ReachesSound(m, id, m3);
    var p, t;
    n, p, t := RememberedGoesOut(m3, id, id);
    Onward(m, id, m3, n);
    AppendedOut(m.posted, p, n);
    var o :| 0 <= o < |m.posted| && m.posted[o].record == i;
    assert n.posted[o] == m.posted[o];
  }

  predicate SentTwice(s: Client, id: string) {
    exists a, b :: 0 <= a < |s.posted| && 0 <= b < |s.posted| && a != b && SentNow(s, id, a) && SentNow(s, id, b)
  }

  /** The running process sent `id` with its entry `a` of the posted list. */
  predicate SentNow(s: Client, id: string, a: nat)
    requires a < |s.posted|
  {
    s.posted[a].id == id && s.posted[a].record >= s.born
  }

  lemma TwoOut(n: Client, id: string, i: nat, r: nat)
    requires Sound(n) && Out(n, i) && Out(n, r) && n.born <= i < r < |n.records| && n.records[i].id == id && n.records[r].id == id
    ensures SentTwice(n, id)
  {
    hide Idle, Visiting, SendersBound, Heap;
    var a :| 0 <= a < |n.posted| && n.posted[a].record == i;
    var b :| 0 <= b < |n.posted| && n.posted[b].record == r;
    assert PostedOk(n, n.posted[a]) && PostedOk(n, n.posted[b]);
    assert SentNow(n, id, a) && SentNow(n, id, b);
  }

  /** The new record waits at the end of the lock. */
  lemma NewWaits(s: Client, id: string, body: Body)
    requires Sound(s) && Enabled(s, Send(id, body)) && id !in s.pending && RoomForPut(s, id, |s.sendLock|)
    ensures var n := Next(s, Send(id, body));
      && Waits(n, id, |s.senders|, |s.records|) && n.sendLock == s.sendLock + [PutCall(|s.senders|)]
      && n.records == s.records + [Record(id, body, false)] && n.pending == s.pending && n.submits == s.submits && n.born == s.born
  {
    hide Idle, Visiting, SendersBound, Safe, Roomy;
    var n := Next(s, Send(id, body));
    assert n.sendLock[..|s.sendLock|] == s.sendLock && s.sendLock[..|s.sendLock|] == s.sendLock;
    assert SenderFitsAt(n, |s.senders|, |s.sendLock|);
  }

  /** After a duplicating send the process can send the id twice without being asked again. */
  lemma DuplicateGoesOutTwice(s: Client, id: string, body: Body) returns (n: Client)
    requires Sound(s) && Enabled(s, Send(id, body)) && Duplicates(s, Send(id, body))
    ensures Reaches(Next(s, Send(id, body)), id, n) && n.born == s.born && SentTwice(n, id)
  {
    hide Reaches, Enabled, Next, Idle, Visiting, SendersBound, Alive, RoomForPut, Waits, ListsOk, SendLockOk,
         NoteLockOk, Offers, MarkingOut, PostedOk;
    var i :| 0 <= i < |s.records| && Rival(s, id, i);
    NewWaits(s, id, body);
    var s1 := Next(s, Send(id, body));
    var j, r := |s.senders|, |s.records|;
    StepSound(s, Send(id, body));
    SendKeepsAlive(s, Send(id, body), i);
    assert id in s.submits ==> SubmitOk(s, id);
    var m, first := RivalGoesOut(s1, id, i, j, r);
    ReachesSound(s1, id, m);
    n := SecondGoesOut(m, id, first, j, r);
    Onward(s1, id, m, n);
    ReachesSound(s1, id, n);
    ReachesGrows(s1, id, n);
    TwoOut(n, id, first, r);
  }

  /** From every reachable state, with OncePerLogicalId: exactly the duplicating sends can make an id go out twice. */
  lemma ReachableDuplicateGoesOutTwice(sends: seq<Entry<Body>>, notes: seq<Entry<Note>>, offered: set<string>, steps: seq<Step>,
                                       id: string, body: Body)
    requires LeftBehind(sends, notes, offered) && Legal(Initial(sends, notes, offered), steps)
    requires var s := After(Initial(sends, notes, offered), steps); Enabled(s, Send(id, body)) && Duplicates(s, Send(id, body))
    ensures var s := After(Initial(sends, notes, offered), steps);
      exists n :: Reaches(Next(s, Send(id, body)), id, n) && n.born == s.born && SentTwice(n, id)
  {
    hide Reaches, Next, Sound, Duplicates;
    InitialSound(sends, notes, offered);
    RunSound(Initial(sends, notes, offered), steps);
    var n := DuplicateGoesOutTwice(After(Initial(sends, notes, offered), steps), id, body);
  }
}
