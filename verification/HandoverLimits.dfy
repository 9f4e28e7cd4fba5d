/** Runs in which a successful open does not show the newest live snapshot. */
module HandoverLimits {
  import opened Wrappers
  import opened Timelines
  import opened Handover

  lemma {:induction false} Extend(r: Room, steps: seq<Step>, step: Step)
    requires Legal(r, steps) && Enabled(After(r, steps), step)
    ensures Legal(r, steps + [step]) && After(r, steps + [step]) == Next(After(r, steps), step)
    decreases |steps|
  {
    hide Enabled, Next;
    if steps == [] {
      assert [] + [step] == [step] && [step][1..] == [];
    } else {
      Extend(Next(r, steps[0]), steps[1..], step);
      assert (steps + [step])[1..] == steps[1..] + [step];
    }
  }

  lemma LegalNothing(r: Room)
    ensures Legal(r, []) && After(r, []) == r
  {
  }

  lemma {:induction false} Concat(r: Room, first: seq<Step>, second: seq<Step>)
    requires Legal(r, first) && Legal(After(r, first), second)
    ensures Legal(r, first + second) && After(r, first + second) == After(After(r, first), second)
    decreases |first|
  {
    hide Enabled, Next;
    if first == [] {
      assert first + second == second;
    } else {
      Concat(Next(r, first[0]), first[1..], second);
      assert first + second == [first[0]] + (first[1..] + second);
    }
  }

  function Plain(id: nat, revision: int): Snapshot { Snapshot(id, Some(revision), Some(true), []) }

  const BEGIN: seq<Step> := [] + [OpenStart] + [Bind] + [Fetch(Plain(0, 0))]
  const FINISH: seq<Step> := [] + [Admit] + [Process] + [OpenEnd(true)]

  /** The room while an open has fetched revision 0 of timeline 0. */
  const FETCHED := Room(true, None, Some(Op(Opening, Fetching(Some(Plain(0, 0))))), true, None, [], [], [], false, Some(0), 1, 0, [], [], {})

  lemma Begins()
    ensures Legal(INITIAL, BEGIN) && After(INITIAL, BEGIN) == FETCHED
  {
    hide Legal, After;
    LegalNothing(INITIAL);
    Extend(INITIAL, [], OpenStart);
    Extend(INITIAL, [] + [OpenStart], Bind);
    Extend(INITIAL, [] + [OpenStart] + [Bind], Fetch(Plain(0, 0)));
  }

  lemma Admits(r: Room)
    requires r.(queue := [], held := []) == FETCHED
    ensures Enabled(r, Admit)
    ensures Next(r, Admit) == r.(op := Some(Op(Opening, Admitted(Plain(0, 0)))), timeline := Some(Timeline(0, -1, true, false)), epoch := 1)
  {
  }

  lemma Processes(r: Room)
    requires r.active && r.known && r.op == Some(Op(Opening, Admitted(Plain(0, 0)))) && r.timeline == Some(Timeline(0, -1, true, false))
    ensures Enabled(r, Process)
    ensures Next(r, Process) == r.(op := Some(Op(Opening, Processed(Plain(0, 0)))), timeline := Some(Timeline(0, 0, true, false)),
                                   commits := r.commits + [Commit(r.epoch, 0, Plain(0, 0))])
  {
  }

  lemma Completes(r: Room)
    requires r.op == Some(Op(Opening, Processed(Plain(0, 0)))) && r.timeline == Some(Timeline(0, 0, true, false)) && Lookup(r.queue, 0).None?
    ensures Enabled(r, OpenEnd(true))
    ensures var n := Next(r, OpenEnd(true)); n.timeline == r.timeline && n.posted == r.posted && n.queue == []
  {
    hide Lookup;
  }

  /** An open that has nothing queued for its timeline ends at the revision that it fetched. */
  lemma Finishes(r: Room)
    requires r.(queue := [], held := []) == FETCHED && Lookup(r.queue, 0).None?
    ensures Legal(r, FINISH)
    ensures var n := After(r, FINISH); n.timeline == Some(Timeline(0, 0, true, false)) && n.posted == [] && n.queue == []
  {
    hide Legal, After, Next, Enabled, Lookup;
    LegalNothing(r);
    Admits(r);
    Extend(r, [], Admit);
    var r1 := Next(r, Admit);
    Processes(r1);
    Extend(r, [] + [Admit], Process);
    Completes(Next(r1, Process));
    Extend(r, [] + [Admit] + [Process], OpenEnd(true));
  }

  lemma SecondJoins(x: Snapshot, y: Snapshot)
    requires x.id != y.id && RevisionOf(y) >= 0
    ensures Hold([x], y) == [x, y]
  {
    assert [x][1..] == [];
    assert Insert([x], y) == [x] + Insert([], y);
    assert Lookup([x], y.id) == Lookup([], y.id);
  }

  lemma ThirdEvicts(x: Snapshot, y: Snapshot, z: Snapshot)
    requires x.id != z.id && y.id != z.id && RevisionOf(z) >= 0
    ensures Hold([x, y], z) == [y, z]
  {
    assert [x, y][1..] == [y] && [y][1..] == [];
    assert Insert([y], z) == [y] + Insert([], z);
    assert Insert([x, y], z) == [x] + Insert([y], z);
    assert Insert([x, y], z) == [x, y, z];
    assert [x, y, z][1..] == [y, z];
    assert Evict([x, y, z]) == Evict([y, z]) == [y, z];
    assert Lookup([x, y], z.id) == Lookup([y], z.id) == Lookup([], z.id);
  }

  const THREE_SEEN: seq<Step> := [] + [Live(Plain(0, 5))] + [Live(Plain(1, 0))] + [Live(Plain(2, 0))]

  /** A third timeline evicts the first one, and its revision 5 is not shown although the open succeeds. */
  lemma ThirdTimelineLoses()
    ensures var steps := BEGIN + THREE_SEEN + FINISH;
      && Legal(INITIAL, steps)
      && var r := After(INITIAL, steps);
         r.timeline == Some(Timeline(0, 0, true, false)) && r.posted == [] && r.queue == []
  {
    hide Legal, After, Next, Enabled;
    Begins();
    SeesThree();
    LookupIn([Plain(1, 0), Plain(2, 0)], 0);
    Finishes(After(FETCHED, THREE_SEEN));
    Concat(INITIAL, BEGIN, THREE_SEEN);
    Concat(INITIAL, BEGIN + THREE_SEEN, FINISH);
  }

  lemma Holds(r: Room, s: Snapshot)
    requires r.active && r.known && HoldsBack(r)
    ensures Enabled(r, Live(s)) && Next(r, Live(s)) == r.(queue := Hold(r.queue, s), held := r.held + [s])
  {
    hide Hold;
  }

  lemma SeesThree()
    ensures Legal(FETCHED, THREE_SEEN)
    ensures var r := After(FETCHED, THREE_SEEN); r.(queue := [], held := []) == FETCHED && r.queue == [Plain(1, 0), Plain(2, 0)]
  {
    hide Legal, After, Next, Enabled;
    LegalNothing(FETCHED);
    Holds(FETCHED, Plain(0, 5));
    Extend(FETCHED, [], Live(Plain(0, 5)));
    var r1 := Next(FETCHED, Live(Plain(0, 5)));
    assert r1.queue == [Plain(0, 5)];
    Holds(r1, Plain(1, 0));
    Extend(FETCHED, [] + [Live(Plain(0, 5))], Live(Plain(1, 0)));
    var r2 := Next(r1, Live(Plain(1, 0)));
    SecondJoins(Plain(0, 5), Plain(1, 0));
    Holds(r2, Plain(2, 0));
    Extend(FETCHED, [] + [Live(Plain(0, 5))] + [Live(Plain(1, 0))], Live(Plain(2, 0)));
    ThirdEvicts(Plain(0, 5), Plain(1, 0), Plain(2, 0));
  }

  const FAILURE_SEEN: seq<Step> := [] + [RefreshStart] + [Live(Plain(0, 5))] + [RefreshEnd]

  /** A refresh that fails while the open runs empties the queue of the open, and revision 5 is not shown. */
  lemma FailedRefreshLoses()
    ensures var steps := BEGIN + FAILURE_SEEN + FINISH;
      && Legal(INITIAL, steps)
      && var r := After(INITIAL, steps);
         r.timeline == Some(Timeline(0, 0, true, false)) && r.posted == [] && r.queue == []
  {
    hide Legal, After, Next, Enabled;
    Begins();
    SeesFailure();
    Finishes(FETCHED);
    Concat(INITIAL, BEGIN, FAILURE_SEEN);
    Concat(INITIAL, BEGIN + FAILURE_SEEN, FINISH);
  }

  lemma SeesFailure()
    ensures Legal(FETCHED, FAILURE_SEEN) && After(FETCHED, FAILURE_SEEN) == FETCHED
  {
    hide Legal, After, Hold;
    LegalNothing(FETCHED);
    Extend(FETCHED, [], RefreshStart);
    Extend(FETCHED, [] + [RefreshStart], Live(Plain(0, 5)));
    Extend(FETCHED, [] + [RefreshStart] + [Live(Plain(0, 5))], RefreshEnd);
  }
}
