/** What the delivery machine does not promise: runs that send or notify twice, although they are asked once. */
module DeliveryLimits {
  import opened Wrappers
  import opened OutboxRecords
  import opened Delivery
  import opened DeliveryRuns
  import opened DeliverySends
  import opened DeliveryLocks
  import opened DeliveryOnce
  import opened DeliveryFutures
  import opened DeliveryMoves
  import opened DeliveryRoom
  import opened DeliveryTwice
  import opened DeliveryAgain

  const ID := "message-1"
  const BODY := Body("thread-1", Some(Destination("partner-1", "!room:volna")))
  const FIRST: seq<Step> := [Boot] + [Send(ID, BODY)]

  /** How often a run is asked to send `id`. */
  function SendsOf(steps: seq<Step>, id: string): nat {
    if steps == [] then 0 else (if steps[0].Send? && steps[0].id == id then 1 else 0) + SendsOf(steps[1..], id)
  }

  lemma {:induction false} QuietSends(steps: seq<Step>, id: string)
    requires Quiet(steps, id)
    ensures SendsOf(steps, id) == 0
  {
    if steps != [] {
      assert forall i :: 0 <= i < |steps[1..]| ==> steps[1..][i] == steps[i + 1];
      QuietSends(steps[1..], id);
    }
  }

  lemma {:induction false} SendsConcat(first: seq<Step>, second: seq<Step>, id: string)
    ensures SendsOf(first + second, id) == SendsOf(first, id) + SendsOf(second, id)
  {
    if first == [] {
      assert first + second == second;
    } else {
      assert (first + second)[1..] == first[1..] + second;
      SendsConcat(first[1..], second, id);
    }
  }

  /** A process that was asked to send the message once. */
  const ASKED: Client := Initial([], [], {}).(
    running := true, records := [Record(ID, BODY, false)], senders := [Sender(0, Storing)], sendLock := [PutCall(0)], calls := {(ID, BODY)})

  lemma AskedOnce()
    ensures Legal(Initial([], [], {}), FIRST) && After(Initial([], [], {}), FIRST) == ASKED
    ensures SendsOf(FIRST, ID) == 1 && Sound(ASKED)
  {
    hide Legal, After, Next, Enabled, Sound, Indexed;
    var s0 := Initial([], [], {});
    InitialSound([], [], {});
    NothingDone(s0);
    Boots(s0);
    NothingIndexed(0);
    Extend(s0, [], Boot);
    assert [] + [Boot] == [Boot];
    var s1 := Next(s0, Boot);
    assert s1 == s0.(running := true) by { assert Loaded([]) == []; }
    Sends(s1, ID, BODY);
    Extend(s0, [Boot], Send(ID, BODY));
    assert s1.calls + {(ID, BODY)} == {(ID, BODY)};
    assert Next(s1, Send(ID, BODY)) == ASKED;
    RunSound(s0, FIRST);
    SendsConcat([Boot], [Send(ID, BODY)], ID);
    OneStep(Boot, ID);
    OneStep(Send(ID, BODY), ID);
  }

  lemma OneStep(step: Step, id: string)
    ensures SendsOf([step], id) == if step.Send? && step.id == id then 1 else 0
  {
    assert [step][1..] == [];
  }

  lemma NothingDone(s: Client)
    ensures Legal(s, []) && After(s, []) == s
  {
  }

  lemma NothingIndexed(base: nat)
    ensures Indexed([], base) == map[]
  {
  }

  /** From there, a quiet continuation is a run that is asked once. */
  lemma QuietRun(n: Client) returns (steps: seq<Step>)
    requires Reaches(ASKED, ID, n)
    ensures Legal(Initial([], [], {}), steps) && SendsOf(steps, ID) == 1 && After(Initial([], [], {}), steps) == n
  {
    hide Legal, After, Next, Enabled, Sound;
    AskedOnce();
    var more :| Via(ASKED, ID, more, n);
    QuietSends(more, ID);
    Concat(Initial([], [], {}), FIRST, more);
    SendsConcat(FIRST, more, ID);
    steps := FIRST + more;
  }

  // ---------- two sends ----------

  /** The guarantee is per record: a second send of the id while the first is being stored makes a second record,
      and one process sends both. */
  lemma OverlappingSendsGoOutTwice()
    ensures Enabled(ASKED, Send(ID, BODY)) && Duplicates(ASKED, Send(ID, BODY))
    ensures exists n :: Reaches(Next(ASKED, Send(ID, BODY)), ID, n) && n.born == ASKED.born && SentTwice(n, ID)
  {
    AskedOnce();
    assert SenderFitsAt(ASKED, 0, 0);
    assert Active(ASKED, 0);
    assert SenderHas(ASKED, 0);
    assert Rival(ASKED, ID, 0);
    var n := DuplicateGoesOutTwice(ASKED, ID, BODY);
  }

  /** A failed enqueue followed by a retry is no such send. */
  lemma RetryIsNoDuplicate()
    ensures Enabled(ASKED, StoreSend(0, false, false))
    ensures !Duplicates(Next(ASKED, StoreSend(0, false, false)), Send(ID, BODY))
  {
  }

  // ---------- two notifications ----------

  /** Record 0 is stored and in memory, and its native call has begun and not returned. */
  predicate Underway(s: Client) {
    && s.running && ID in s.pending && s.pending[ID] == 0 && |s.records| == 1 && s.records[0].body == BODY
    && s.acks == map[] && s.flushes == [] && s.notifying == {} && s.sends == [Entry(ID, BODY, false)] && s.notes == []
    && s.sendLock == [] && s.noteLock == [] && ID in s.offered && InNativeCall(s)
  }

  predicate InNativeCall(s: Client) { ID in s.submits && s.submits[ID].phase.Sending? }

  /** The message was acknowledged and handed over, and nothing of it is left but its native call, which still runs. */
  predicate NotifiedEarly(s: Client) {
    && InNativeCall(s) && s.posted == [] && ID in s.noted && ID in s.accepted && s.asked == multiset{ID}
    && s.sends == [] && s.notes == [] && ID !in s.pending && ID !in s.acks && !FlushDue(s, ID) && !SenderDue(s, ID)
  }

  lemma PutAlone<B>(e: Entry<B>)
    ensures Mutate([], Put(e)) == [e] && Mutate([e], Drop(e.id)) == []
  {
    assert Without<B>([], e.id) == [] && [e][1..] == [];
  }

  lemma GetsUnderway() returns (s: Client)
    ensures Reaches(ASKED, ID, s) && Underway(s) && s.posted == [] && s.asked == multiset{} && s.senders == [Sender(0, Ended)]
  {
    hide Reaches, Next, Enabled, Mutate;
    ReachesSelf(ASKED, ID);
    PutAlone(Entry(ID, BODY, false));
    Stores(ASKED, 0);
    var s1 := Next(ASKED, StoreSend(0, true, false));
    Go(ASKED, ID, ASKED, StoreSend(0, true, false), s1);
    StartsTask(s1, 0);
    var s2 := Next(s1, AfterStore(0, ViewOf(BODY)));
    Go(ASKED, ID, s1, AfterStore(0, ViewOf(BODY)), s2);
    Binds(s2, ID);
    s := Next(s2, Bind(ID, true));
    Go(ASKED, ID, s2, Bind(ID, true), s);
  }

  /** Its echo acknowledges it. */
  lemma GetsAcknowledged(s: Client) returns (n: Client)
    requires Underway(s)
    ensures Reaches(s, ID, n) && n.running && n.asked == s.asked && n.submits == s.submits && n.posted == s.posted
    ensures n.senders == s.senders && n.sends == [] && ID !in n.pending && ID !in n.acks && ID in n.noted
    ensures IdList(n.notes) == [ID] && n.flushes == [] && n.notifying == {} && n.noteLock == []
  {
    hide Reaches, Next, Enabled, Mutate;
    ReachesSelf(s, ID);
    Echoes(s, ID, "$event");
    var s1 := Next(s, Echo(ID, "$event"));
    Go(s, ID, s, Echo(ID, "$event"), s1);
    PutAlone(Entry(ID, s1.acks[ID].note, false));
    StoresNote(s1, ID);
    var s2 := Next(s1, StoreNote(ID, true));
    Go(s, ID, s1, StoreNote(ID, true), s2);
    PutAlone(Entry(ID, BODY, false));
    DropsSend(s2, ID);
    var s3 := Next(s2, DropSend(ID, true));
    Go(s, ID, s2, DropSend(ID, true), s3);
    Forgets(s3, ID);
    n := Next(s3, Forget(ID));
    Go(s, ID, s3, Forget(ID), n);
  }

  /** And its notification is handed over. */
  lemma GetsNotified(s: Client) returns (n: Client)
    requires s.running && |s.notes| == 1 && IdList(s.notes) == [ID] && s.flushes == [] && s.notifying == {} && s.noteLock == []
    ensures Reaches(s, ID, n) && n.asked == s.asked + multiset{ID} && ID in n.accepted && n.notes == [] && n.flushes == [Flush([], Between)]
    ensures n == s.(accepted := n.accepted, asked := n.asked, flushes := n.flushes, notes := n.notes)
  {
    hide Reaches, Next, Enabled, Mutate;
    ReachesSelf(s, ID);
    LoadsNotes(s);
    var s1 := Next(s, LoadNotes);
    Go(s, ID, s, LoadNotes, s1);
    assert s1.flushes[0] == Flush([ID], Between);
    Delivers(s1, 0);
    var s2 := Next(s1, Deliver(0));
    Go(s, ID, s1, Deliver(0), s2);
    assert s2.flushes[0].rest == [];
    Notifies(s2, 0);
    var s3 := Next(s2, Notify(0, true, true));
    Go(s, ID, s2, Notify(0, true, true), s3);
    assert IdList(s.notes)[0] == s.notes[0].id;
    assert s.notes == [s.notes[0]];
    PutAlone(s.notes[0]);
    DropsNote(s3, 0);
    n := Next(s3, DropNote(0, true));
    Go(s, ID, s3, DropNote(0, true), n);
  }

  /** The run `steps` from an empty client comes through `m` after `k` steps and ends in `n`. */
  ghost predicate Through(steps: seq<Step>, k: nat, m: Client, n: Client) {
    && k <= |steps| && Legal(Initial([], [], {}), steps) && After(Initial([], [], {}), steps) == n
    && Legal(Initial([], [], {}), steps[..k]) && After(Initial([], [], {}), steps[..k]) == m
  }

  /** Notification is at least once: there is a run that is asked to send one message once, in which the message is
      acknowledged and the endpoint asked for it before its native call returns, and in which that call then brings
      it back into memory, so that the endpoint is asked for it again. */
  lemma NotifiedTwice()
    ensures exists steps, k, m, n :: Through(steps, k, m, n) && SendsOf(steps, ID) == 1 && NotifiedEarly(m) && n.asked[ID] >= 2
  {
    hide Reaches, Legal, After, Next, Enabled, Sound, AsksAgain;
    AskedOnce();
    var s := GetsUnderway();
    var a := GetsAcknowledged(s);
    Onward(ASKED, ID, s, a);
    var m := GetsNotified(a);
    Onward(ASKED, ID, a, m);
    ReachesSound(ASKED, ID, m);
    assert NotifiedEarly(m);
    SubmittedAsks(m, ID);
    var more, n := Again(m);
    var first := QuietRun(m);
    Concat(Initial([], [], {}), first, more);
    QuietSends(more, ID);
    SendsConcat(first, more, ID);
    assert (first + more)[..|first|] == first;
    assert Through(first + more, |first|, m, n);
  }

  lemma Again(m: Client) returns (more: seq<Step>, n: Client)
    requires AsksAgain(m, ID)
    ensures Via(m, ID, more, n) && n.asked[ID] > m.asked[ID]
  {
    n :| Reaches(m, ID, n) && n.asked[ID] > m.asked[ID];
    more :| Via(m, ID, more, n);
  }
}
