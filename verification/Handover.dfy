/** Live snapshots that arrive during an open or a refresh: kept back, handed over on success, dropped on failure. */
module Handover {
  import opened Wrappers
  import opened Timelines
  import opened TimelineRuns

  // ---------- the queue keeps the newest revision of two timelines ----------

  predicate DistinctIds(queue: seq<Snapshot>) {
    forall i, j :: 0 <= i < j < |queue| ==> queue[i].id != queue[j].id
  }

  predicate Within(snapshots: seq<Snapshot>, a: nat, b: nat) {
    forall i :: 0 <= i < |snapshots| ==> snapshots[i].id == a || snapshots[i].id == b
  }

  /** The queue has something at least as new as `s` for its timeline. */
  predicate Keeps(queue: seq<Snapshot>, s: Snapshot) {
    RevisionOf(s) >= 0 ==> Lookup(queue, s.id).Some? && RevisionOf(Lookup(queue, s.id).value) >= RevisionOf(s)
  }

  predicate KeepsAll(queue: seq<Snapshot>, held: seq<Snapshot>) {
    forall i :: 0 <= i < |held| ==> Keeps(queue, held[i])
  }

  predicate PartOf(queue: seq<Snapshot>, held: seq<Snapshot>) {
    forall i :: 0 <= i < |queue| ==> queue[i] in held
  }

  lemma {:induction false} LookupInsert(queue: seq<Snapshot>, s: Snapshot, id: nat)
    ensures Lookup(Insert(queue, s), id) == if id == s.id then Some(s) else Lookup(queue, id)
  {
    if queue != [] && queue[0].id != s.id {
      LookupInsert(queue[1..], s, id);
    }
  }

  lemma {:induction false} LookupIn(queue: seq<Snapshot>, id: nat)
    ensures Lookup(queue, id).Some? ==> Lookup(queue, id).value in queue && Lookup(queue, id).value.id == id
    ensures Lookup(queue, id).None? <==> forall i :: 0 <= i < |queue| ==> queue[i].id != id
  {
    if queue != [] {
      LookupIn(queue[1..], id);
    }
  }

  lemma {:induction false} InsertShape(queue: seq<Snapshot>, s: Snapshot)
    requires DistinctIds(queue)
    ensures DistinctIds(Insert(queue, s))
    ensures forall i :: 0 <= i < |Insert(queue, s)| ==> Insert(queue, s)[i] == s || Insert(queue, s)[i] in queue
  {
    if queue != [] && queue[0].id != s.id {
      InsertShape(queue[1..], s);
      var rest := Insert(queue[1..], s);
      forall j | 0 <= j < |rest|
        ensures rest[j].id != queue[0].id && (rest[j] == s || rest[j] in queue)
      {
        if rest[j] != s {
          assert rest[j] in queue[1..];
        }
      }
    }
  }

  lemma Apart(queue: seq<Snapshot>, i: nat, j: nat)
    requires DistinctIds(queue) && i < j < |queue|
    ensures queue[i].id != queue[j].id
  {
  }

  lemma TwoAtMost(queue: seq<Snapshot>, a: nat, b: nat)
    requires DistinctIds(queue) && Within(queue, a, b)
    ensures |queue| <= 2
  {
    hide DistinctIds;
    if |queue| > 2 {
      Apart(queue, 0, 1);
      Apart(queue, 1, 2);
      Apart(queue, 0, 2);
    }
  }

  /** As long as at most two timelines are seen, the queue holds the newest revision of each. */
  lemma {:induction false} QueueKeepsNewest(held: seq<Snapshot>, a: nat, b: nat)
    requires Within(held, a, b)
    ensures var q := HoldAll(held); DistinctIds(q) && Within(q, a, b) && PartOf(q, held) && KeepsAll(q, held)
  {
    hide Hold, Insert, Lookup;
    if held != [] {
      var before, s := held[..|held| - 1], held[|held| - 1];
      QueueKeepsNewest(before, a, b);
      HoldKeepsNewest(HoldAll(before), before, s, a, b);
      assert before + [s] == held;
    }
  }

  lemma HoldKeepsNewest(q: seq<Snapshot>, before: seq<Snapshot>, s: Snapshot, a: nat, b: nat)
    requires Within(before + [s], a, b)
    requires DistinctIds(q) && Within(q, a, b) && PartOf(q, before) && KeepsAll(q, before)
    ensures var n := Hold(q, s);
      DistinctIds(n) && Within(n, a, b) && PartOf(n, before + [s]) && KeepsAll(n, before + [s])
  {
    hide Insert, Lookup;
    var held := before + [s];
    assert held[|before|] == s;
    TwoAtMost(q, a, b);
    InsertShape(q, s);
    TwoAtMost(Insert(q, s), a, b) by { InsertWithin(q, s, a, b); }
    InsertWithin(q, s, a, b);
    forall i | 0 <= i < |held|
      ensures Keeps(Hold(q, s), held[i])
    {
      LookupInsert(q, s, held[i].id);
      LookupIn(q, held[i].id);
      if i < |before| {
        assert held[i] == before[i] && Keeps(q, before[i]);
      }
    }
  }

  lemma InsertWithin(q: seq<Snapshot>, s: Snapshot, a: nat, b: nat)
    requires DistinctIds(q) && Within(q, a, b) && (s.id == a || s.id == b)
    ensures Within(Insert(q, s), a, b)
  {
    hide Insert;
    InsertShape(q, s);
  }

  // ---------- one admission at a time ----------

  predicate NotBehind(t: Option<Timeline>, u: Option<Timeline>) {
    t.Some? ==> u.Some? && u.value.id == t.value.id && u.value.revision >= t.value.revision && (t.value.retired ==> u.value.retired)
  }

  lemma StepMonotone(r: Room, step: Step)
    requires Enabled(r, step)
    ensures var n := Next(r, step); n.epoch >= r.epoch && (n.epoch == r.epoch ==> NotBehind(r.timeline, n.timeline))
  {
    hide HoldAll, Hold, Lookup, TryCommit, AdmitTimeline, Admissible, QueuedForTimeline;
    match step {
      case Live(x) => SameTimeline(r, x);
      case Process => SameTimeline(r, r.op.value.phase.snapshot);
      case Post(i) => SameTimeline(r.(posted := Removed(r.posted, i)), r.posted[i]);
      case Admit => AdmitMonotone(r, r.op.value.phase.latest.value); SameAdmission(r, r.op.value.phase.latest.value);
      case _ =>
    }
  }

  lemma AdmitMonotone(r: Room, s: Snapshot)
    ensures var n := AdmitTimeline(r, s); n.epoch >= r.epoch && (n.epoch == r.epoch ==> n.timeline == r.timeline)
  {
  }

  /** Between two admissions a timeline keeps its id and only moves forward. */
  lemma {:induction false} RunMonotone(r: Room, steps: seq<Step>)
    requires Legal(r, steps)
    ensures var n := After(r, steps); n.epoch >= r.epoch && (n.epoch == r.epoch ==> NotBehind(r.timeline, n.timeline))
    decreases |steps|
  {
    hide Next, Enabled;
    if steps != [] {
      StepMonotone(r, steps[0]);
      RunMonotone(Next(r, steps[0]), steps[1..]);
    }
  }

  // ---------- what the queue keeps ----------

  lemma {:induction false} InsertNew(queue: seq<Snapshot>, x: Snapshot)
    ensures Lookup(queue, x.id).None? ==> Insert(queue, x) == queue + [x]
    ensures Lookup(queue, x.id).Some? ==> |Insert(queue, x)| == |queue|
  {
    if queue != [] && queue[0].id != x.id {
      InsertNew(queue[1..], x);
    }
  }

  /** `x` pushes timeline `id` out: it is the older one of two, and `x` is of a third. */
  predicate Evicts(queue: seq<Snapshot>, x: Snapshot, id: nat) {
    |queue| == 2 && queue[0].id == id && Lookup(queue, x.id).None? && RevisionOf(x) >= 0
  }

  lemma EvictOne(queue: seq<Snapshot>)
    ensures |queue| == 3 ==> Evict(queue) == queue[1..]
    ensures |queue| <= 2 ==> Evict(queue) == queue
  {
    if |queue| == 3 {
      assert Evict(queue[1..]) == queue[1..];
    }
  }

  lemma LookupTail(queue: seq<Snapshot>, id: nat)
    requires queue != [] && DistinctIds(queue)
    ensures Lookup(queue[1..], id) == if queue[0].id == id then None else Lookup(queue, id)
  {
    LookupIn(queue[1..], id);
  }

  lemma HoldShape(queue: seq<Snapshot>, x: Snapshot)
    requires DistinctIds(queue) && |queue| <= 2
    ensures DistinctIds(Hold(queue, x)) && |Hold(queue, x)| <= 2
  {
    hide Insert, Evict, Lookup;
    InsertShape(queue, x);
    InsertNew(queue, x);
    EvictOne(queue);
    EvictOne(Insert(queue, x));
  }

  lemma {:induction false} HoldAllShape(held: seq<Snapshot>)
    ensures DistinctIds(HoldAll(held)) && |HoldAll(held)| <= 2
  {
    hide Hold;
    if held != [] {
      HoldAllShape(held[..|held| - 1]);
      HoldShape(HoldAll(held[..|held| - 1]), held[|held| - 1]);
    }
  }

  /** Holding `x` leaves something as new as `s` in the queue if and only if `x` is that, or it was there and
      is not evicted. */
  lemma HoldKeepsIff(queue: seq<Snapshot>, s: Snapshot, x: Snapshot)
    requires DistinctIds(queue) && |queue| <= 2 && RevisionOf(s) >= 0
    ensures Keeps(Hold(queue, x), s) <==>
      (x.id == s.id && RevisionOf(x) >= RevisionOf(s)) || (Keeps(queue, s) && !Evicts(queue, x, s.id))
  {
    hide Insert, Evict, Lookup, DistinctIds;
    var more := Insert(queue, x);
    InsertShape(queue, x);
    InsertNew(queue, x);
    EvictOne(queue);
    EvictOne(more);
    LookupInsert(queue, x, s.id);
    LookupIn(queue, x.id);
    if |more| == 3 {
      LookupTail(more, s.id);
      assert more == queue + [x] && more[0] == queue[0];
    }
  }

  function StateAt(r: Room, steps: seq<Step>, k: nat): Room
    requires Legal(r, steps) && k <= |steps|
    decreases k
  {
    if k == 0 then r else StateAt(Next(r, steps[0]), steps[1..], k - 1)
  }

  /** A step holds back a snapshot of the timeline of `s` that is at least as new. */
  predicate Refills(r: Room, step: Step, s: Snapshot) {
    && step.Live? && r.active && r.known && HoldsBack(r)
    && step.snapshot.id == s.id && RevisionOf(step.snapshot) >= RevisionOf(s)
  }

  /** A step takes the queue away, or the timeline of `s` out of it. */
  predicate Drops(r: Room, step: Step, s: Snapshot) {
    || step.OpenEnd? || step.RefreshEnd?
    || (step.Live? && r.active && r.known && HoldsBack(r) && Evicts(r.queue, step.snapshot, s.id))
  }

  predicate NoDrop(r: Room, steps: seq<Step>, s: Snapshot, k: nat)
    requires Legal(r, steps)
  {
    forall j :: k <= j < |steps| ==> !Drops(StateAt(r, steps, j), steps[j], s)
  }

  predicate KeptFrom(r: Room, steps: seq<Step>, s: Snapshot, k: nat)
    requires Legal(r, steps) && k < |steps|
  {
    Refills(StateAt(r, steps, k), steps[k], s) && NoDrop(r, steps, s, k + 1)
  }

  /** Something as new as `s` was held back, and nothing dropped the timeline of `s` since. */
  predicate KeptSince(r: Room, steps: seq<Step>, s: Snapshot)
    requires Legal(r, steps)
  {
    exists k :: 0 <= k < |steps| && KeptFrom(r, steps, s, k)
  }

  lemma StepCovers(r: Room, step: Step, s: Snapshot)
    requires DistinctIds(r.queue) && |r.queue| <= 2 && RevisionOf(s) >= 0 && Enabled(r, step)
    ensures Keeps(Next(r, step).queue, s) <==> Refills(r, step, s) || (Keeps(r.queue, s) && !Drops(r, step, s))
  {
    hide Hold, Lookup, TryCommit, Evicts, AdmitTimeline, Admissible, QueuedForTimeline;
    match step {
      case Live(x) => HoldKeepsIff(r.queue, s, x); SameTimeline(r, x);
      case Process => SameTimeline(r, r.op.value.phase.snapshot);
      case Post(i) => SameTimeline(r.(posted := Removed(r.posted, i)), r.posted[i]);
      case Admit => SameAdmission(r, r.op.value.phase.latest.value);
      case OpenEnd(_) => NotKept(s);
      case RefreshEnd => NotKept(s);
      case _ =>
    }
  }

  lemma NotKept(s: Snapshot)
    requires RevisionOf(s) >= 0
    ensures !Keeps([], s)
  {
  }

  lemma NoDropShift(r: Room, steps: seq<Step>, s: Snapshot, k: nat)
    requires Legal(r, steps) && steps != []
    ensures NoDrop(r, steps, s, k + 1) <==> NoDrop(Next(r, steps[0]), steps[1..], s, k)
  {
    hide Next, Enabled, Drops;
    var n, tail := Next(r, steps[0]), steps[1..];
    if NoDrop(r, steps, s, k + 1) {
      forall j | k <= j < |tail|
        ensures !Drops(StateAt(n, tail, j), tail[j], s)
      {
        assert StateAt(n, tail, j) == StateAt(r, steps, j + 1) && !Drops(StateAt(r, steps, j + 1), steps[j + 1], s);
      }
    }
    if NoDrop(n, tail, s, k) {
      forall j | k + 1 <= j < |steps|
        ensures !Drops(StateAt(r, steps, j), steps[j], s)
      {
        assert !Drops(StateAt(n, tail, j - 1), tail[j - 1], s);
      }
    }
  }

  lemma NoDropFirst(r: Room, steps: seq<Step>, s: Snapshot)
    requires Legal(r, steps) && steps != []
    ensures NoDrop(r, steps, s, 0) <==> !Drops(r, steps[0], s) && NoDrop(r, steps, s, 1)
  {
    hide Next, Enabled, Drops;
    assert StateAt(r, steps, 0) == r;
    if !Drops(r, steps[0], s) && NoDrop(r, steps, s, 1) {
      forall j | 0 <= j < |steps|
        ensures !Drops(StateAt(r, steps, j), steps[j], s)
      {
      }
    }
  }

  lemma KeptShift(r: Room, steps: seq<Step>, s: Snapshot)
    requires Legal(r, steps) && steps != []
    ensures KeptSince(r, steps, s) <==>
      (Refills(r, steps[0], s) && NoDrop(r, steps, s, 1)) || KeptSince(Next(r, steps[0]), steps[1..], s)
  {
    hide Next, Enabled, Drops, Refills, NoDrop;
    var n, tail := Next(r, steps[0]), steps[1..];
    assert StateAt(r, steps, 0) == r;
    if KeptSince(r, steps, s) {
      var k :| 0 <= k < |steps| && KeptFrom(r, steps, s, k);
      if k > 0 {
        NoDropShift(r, steps, s, k);
        assert KeptFrom(n, tail, s, k - 1);
      }
    }
    if Refills(r, steps[0], s) && NoDrop(r, steps, s, 1) {
      assert KeptFrom(r, steps, s, 0);
    }
    if KeptSince(n, tail, s) {
      var k :| 0 <= k < |tail| && KeptFrom(n, tail, s, k);
      NoDropShift(r, steps, s, k + 1);
      assert KeptFrom(r, steps, s, k + 1);
    }
  }

  /** In any run the queue ends with something as new as `s` if and only if such a snapshot was held back and
      since then no open and no refresh ended and no third timeline evicted its own. */
  lemma {:induction false} QueueCoversIff(r: Room, steps: seq<Step>, s: Snapshot)
    requires DistinctIds(r.queue) && |r.queue| <= 2 && RevisionOf(s) >= 0 && Legal(r, steps)
    ensures Keeps(After(r, steps).queue, s) <==> KeptSince(r, steps, s) || (Keeps(r.queue, s) && NoDrop(r, steps, s, 0))
    decreases |steps|
  {
    hide Next, Enabled, Drops, Refills, Keeps, KeptSince, NoDrop, DistinctIds;
    if steps == [] {
      NothingHappens(r, s);
    } else {
      var n := Next(r, steps[0]);
      StepShape(r, steps[0]);
      StepCovers(r, steps[0], s);
      QueueCoversIff(n, steps[1..], s);
      KeptShift(r, steps, s);
      NoDropFirst(r, steps, s);
      NoDropShift(r, steps, s, 0);
    }
  }

  lemma NothingHappens(r: Room, s: Snapshot)
    ensures !KeptSince(r, [], s) && NoDrop(r, [], s, 0)
  {
  }

  lemma StepShape(r: Room, step: Step)
    requires DistinctIds(r.queue) && |r.queue| <= 2 && Enabled(r, step)
    ensures DistinctIds(Next(r, step).queue) && |Next(r, step).queue| <= 2
  {
    hide Hold, Lookup, TryCommit, AdmitTimeline, Admissible, QueuedForTimeline;
    match step {
      case Live(x) => HoldShape(r.queue, x); SameTimeline(r, x);
      case Process => SameTimeline(r, r.op.value.phase.snapshot);
      case Post(i) => SameTimeline(r.(posted := Removed(r.posted, i)), r.posted[i]);
      case Admit => SameAdmission(r, r.op.value.phase.latest.value);
      case _ =>
    }
  }

  // ---------- success ----------

  /** A room that shows its timeline. */
  predicate Ready(r: Room) { r.active && r.known && r.timeline.Some? && !r.timeline.value.retired }

  predicate WellFormed(snapshots: seq<Snapshot>) { forall i :: 0 <= i < |snapshots| ==> snapshots[i].hasMore.Some? }

  function Later(a: int, b: int): int { if a >= b then a else b }

  /** Where the timeline stands once the snapshot that `queue` has for it is handed over. */
  function HandedOver(r: Room, queue: seq<Snapshot>): int
    requires r.timeline.Some?
  {
    match Lookup(queue, r.timeline.value.id)
    case None => r.timeline.value.revision
    case Some(p) => Later(r.timeline.value.revision, RevisionOf(p))
  }

  /** That is what the commit test makes of it. */
  lemma PostHandsOver(r: Room, queue: seq<Snapshot>, i: nat)
    requires Ready(r) && r.timeline.value.revision >= -1 && WellFormed(queue) && i < |r.posted|
    requires Lookup(queue, r.timeline.value.id) == Some(r.posted[i])
    ensures var n := Next(r, Post(i));
      n.timeline.Some? && n.timeline.value.id == r.timeline.value.id && n.timeline.value.revision == HandedOver(r, queue)
  {
    hide Lookup;
    LookupIn(queue, r.timeline.value.id);
    var p := r.posted[i];
    var k :| 0 <= k < |queue| && queue[k] == p;
  }

  /** The timeline then covers a snapshot exactly if the queue kept something as new, or it had come that far itself. */
  lemma HandedOverIff(r: Room, queue: seq<Snapshot>, s: Snapshot)
    requires r.timeline.Some? && r.timeline.value.id == s.id && RevisionOf(s) >= 0
    ensures HandedOver(r, queue) >= RevisionOf(s) <==> Keeps(queue, s) || r.timeline.value.revision >= RevisionOf(s)
  {
    hide Lookup;
  }

  /** A successful open on an active handle shows the timeline that it admitted, at the revision that it
      fetched or a later one. */
  lemma OpenIsReady(r: Room)
    requires Inv(r) && r.active && Enabled(r, OpenEnd(true))
    ensures var s := r.op.value.phase.snapshot;
      Ready(r) && r.timeline.value.id == s.id && s.revision.Some? && r.timeline.value.revision >= s.revision.value
  {
    hide HoldAll, Fence;
  }

  /** It stays shown until it is replaced, retired or released. */
  lemma StaysReady(r: Room, steps: seq<Step>)
    requires Inv(r) && Ready(r) && Legal(r, steps)
    ensures var n := After(r, steps);
      && Inv(n) && n.epoch >= r.epoch
      && (n.epoch == r.epoch ==>
            n.timeline.Some? && n.known && n.timeline.value.id == r.timeline.value.id && n.timeline.value.revision >= r.timeline.value.revision)
  {
    hide Next, Enabled, HoldAll, Fence;
    RunKeeps(r, steps);
    RunMonotone(r, steps);
  }

  /** A successful open, from the first state of the room on: its queue goes to the commit test, and whenever
      that happens the timeline comes to stand at the later one of its own revision, which is at least the admitted
      one, and of the newest that the queue had for it; if the queue had none, nothing is handed over. */
  lemma OpenHandsOver(before: seq<Step>, steps: seq<Step>)
    requires Legal(INITIAL, before) && Enabled(After(INITIAL, before), OpenEnd(true)) && After(INITIAL, before).active
    requires WellFormed(After(INITIAL, before).queue)
    requires Legal(Next(After(INITIAL, before), OpenEnd(true)), steps)
    requires var r := After(INITIAL, before);
      var n := After(Next(r, OpenEnd(true)), steps);
      n.active && n.epoch == r.epoch && n.timeline.Some? && !n.timeline.value.retired
    ensures var r := After(INITIAL, before);
      var n := After(Next(r, OpenEnd(true)), steps);
      && n.timeline.value.id == r.op.value.phase.snapshot.id
      && n.timeline.value.revision >= RevisionOf(r.op.value.phase.snapshot)
      && Next(r, OpenEnd(true)).posted == r.posted + QueuedForTimeline(r, r.queue)
      && forall i :: 0 <= i < |n.posted| && Lookup(r.queue, n.timeline.value.id) == Some(n.posted[i]) ==>
           var m := Next(n, Post(i)); m.timeline.Some? && m.timeline.value.revision == HandedOver(n, r.queue)
  {
    hide HoldAll, Lookup, Next, Inv, Legal;
    InitialInv();
    RunKeeps(INITIAL, before);
    var r := After(INITIAL, before);
    var n0 := Next(r, OpenEnd(true));
    OpenIsReady(r);
    EndsOpen(r);
    StaysReady(n0, steps);
    var n := After(n0, steps);
    TimelineBound(n);
    forall i | 0 <= i < |n.posted| && Lookup(r.queue, n.timeline.value.id) == Some(n.posted[i])
      ensures var m := Next(n, Post(i)); m.timeline.Some? && m.timeline.value.revision == HandedOver(n, r.queue)
    {
      PostHandsOver(n, r.queue, i);
    }
  }

  lemma TimelineBound(r: Room)
    requires Inv(r) && r.timeline.Some?
    ensures r.timeline.value.revision >= -1
  {
    hide HoldAll, Working;
  }

  lemma EndsOpen(r: Room)
    requires Inv(r) && r.active && Enabled(r, OpenEnd(true))
    ensures var n := Next(r, OpenEnd(true));
      && Inv(n) && Ready(n) && n.timeline == r.timeline && n.epoch == r.epoch
      && n.posted == r.posted + QueuedForTimeline(r, r.queue)
  {
    hide HoldAll, Lookup, Inv;
    StepKeeps(r, OpenEnd(true));
    OpenIsReady(r);
  }

  /** What the view of a successful open shows: a snapshot of its timeline is covered by the revision after the
      hand-over if and only if something as new was held back and nothing dropped it since, or the timeline had
      come that far by itself. */
  lemma OpenShowsIff(before: seq<Step>, steps: seq<Step>, s: Snapshot)
    requires Legal(INITIAL, before) && Enabled(After(INITIAL, before), OpenEnd(true)) && After(INITIAL, before).active
    requires Legal(Next(After(INITIAL, before), OpenEnd(true)), steps)
    requires var r := After(INITIAL, before);
      var n := After(Next(r, OpenEnd(true)), steps);
      n.timeline.Some? && n.timeline.value.id == s.id && RevisionOf(s) >= 0
    ensures var r := After(INITIAL, before);
      var n := After(Next(r, OpenEnd(true)), steps);
      HandedOver(n, r.queue) >= RevisionOf(s) <==> KeptSince(INITIAL, before, s) || n.timeline.value.revision >= RevisionOf(s)
  {
    hide Next, Enabled, Legal, After, Keeps, KeptSince, NoDrop;
    var r := After(INITIAL, before);
    QueueCoversIff(INITIAL, before, s);
    NotKept(s);
    HandedOverIff(After(Next(r, OpenEnd(true)), steps), r.queue, s);
  }

  // ---------- the refresh ----------

  /** Behind the fence no open runs, so every live snapshot of an active room stays held until the refresh ends. */
  lemma {:induction false} FencedHolds(r: Room, steps: seq<Step>)
    requires Inv(r) && r.refresh.Some? && !r.refresh.value.Early? && r.known && Legal(r, steps)
    requires forall i :: 0 <= i < |steps| ==> !steps[i].RefreshEnd?
    ensures var n := After(r, steps);
      && n.refresh.Some? && !n.refresh.value.Early? && n.known && r.held <= n.held
      && (n.active ==> forall i :: 0 <= i < |steps| && steps[i].Live? ==> steps[i].snapshot in n.held)
    decreases |steps|
  {
    hide Next, Enabled, Inv;
    if steps != [] {
      var m := Next(r, steps[0]);
      StepKeeps(r, steps[0]);
      FencedStep(r, steps[0]);
      FencedHolds(m, steps[1..]);
      var n := After(m, steps[1..]);
      if n.active {
        ActiveBefore(m, steps[1..]);
        forall i | 0 <= i < |steps| && steps[i].Live?
          ensures steps[i].snapshot in n.held
        {
          if i > 0 {
            assert steps[1..][i - 1] == steps[i];
          } else {
            assert m.held[|r.held|] == steps[0].snapshot;
          }
        }
      }
    }
  }

  lemma FencedStep(r: Room, step: Step)
    requires Inv(r) && r.refresh.Some? && !r.refresh.value.Early? && r.known && Enabled(r, step) && !step.RefreshEnd?
    ensures var n := Next(r, step);
      && n.refresh.Some? && !n.refresh.value.Early? && n.known && (n.active ==> r.active)
      && n.held == if step.Live? && r.active then r.held + [step.snapshot] else r.held
  {
    hide HoldAll, Hold, Lookup, Fence, TryCommit, AdmitTimeline, Admissible, QueuedForTimeline;
    match step {
      case Live(x) => SameTimeline(r, x);
      case Process => SameTimeline(r, r.op.value.phase.snapshot);
      case Post(i) => SameTimeline(r.(posted := Removed(r.posted, i)), r.posted[i]);
      case Admit => SameAdmission(r, r.op.value.phase.latest.value);
      case _ =>
    }
  }

  lemma {:induction false} ActiveBefore(r: Room, steps: seq<Step>)
    requires Legal(r, steps) && After(r, steps).active
    ensures r.active
    decreases |steps|
  {
    if !r.active {
      ReleasedIsFinal(r, steps);
    }
  }

  /** A refresh that admitted the room takes its queue along, and handing it over has the same effect as after an open. */
  lemma RefreshHandsOver(before: seq<Step>, steps: seq<Step>, j: nat)
    requires Legal(INITIAL, before) && Enabled(After(INITIAL, before), RefreshEnd) && After(INITIAL, before).admitted
    requires WellFormed(After(INITIAL, before).queue)
    requires Legal(Next(After(INITIAL, before), RefreshEnd), steps)
    requires var r := After(INITIAL, before);
      var n := After(Next(r, RefreshEnd), steps);
      j < |n.flushes| && n.flushes[j] == r.queue && n.active && n.timeline.Some? && !n.timeline.value.retired
    ensures var r := After(INITIAL, before);
      var n := After(Next(r, RefreshEnd), steps);
      var f := Next(n, Flush(j));
      && r.queue in Next(r, RefreshEnd).flushes && f.timeline == n.timeline
      && f.posted == n.posted + QueuedForTimeline(n, r.queue)
      && (Lookup(r.queue, n.timeline.value.id).Some? ==>
            var m := Next(f, Post(|n.posted|)); m.timeline.Some? && m.timeline.value.revision == HandedOver(n, r.queue))
  {
    hide HoldAll, Lookup, Inv, Legal;
    InitialInv();
    RunKeeps(INITIAL, before);
    var r := After(INITIAL, before);
    StepKeeps(r, RefreshEnd);
    var n0 := Next(r, RefreshEnd);
    assert n0.flushes[|r.flushes|] == r.queue;
    RunKeeps(n0, steps);
    var n := After(n0, steps);
    TimelineBound(n);
    KnownTimeline(n);
    var f := Next(n, Flush(j));
    if Lookup(r.queue, n.timeline.value.id).Some? {
      PostHandsOver(f, r.queue, |n.posted|);
    }
  }

  lemma KnownTimeline(r: Room)
    requires Inv(r) && r.timeline.Some?
    ensures r.known
  {
    hide HoldAll, Fence;
  }

  /** And the view after a refresh shows a snapshot under the same condition. */
  lemma RefreshShowsIff(before: seq<Step>, steps: seq<Step>, s: Snapshot)
    requires Legal(INITIAL, before) && Enabled(After(INITIAL, before), RefreshEnd) && After(INITIAL, before).admitted
    requires Legal(Next(After(INITIAL, before), RefreshEnd), steps)
    requires var n := After(Next(After(INITIAL, before), RefreshEnd), steps);
      n.timeline.Some? && n.timeline.value.id == s.id && RevisionOf(s) >= 0
    ensures var r := After(INITIAL, before);
      var n := After(Next(r, RefreshEnd), steps);
      HandedOver(n, r.queue) >= RevisionOf(s) <==> KeptSince(INITIAL, before, s) || n.timeline.value.revision >= RevisionOf(s)
  {
    hide Next, Enabled, Legal, After, Keeps, KeptSince, NoDrop;
    var r := After(INITIAL, before);
    QueueCoversIff(INITIAL, before, s);
    NotKept(s);
    HandedOverIff(After(Next(r, RefreshEnd), steps), r.queue, s);
  }

  // ---------- two timelines ----------

  /** `revision` is that of `r`'s timeline or the newest one held for it, whichever is newer. */
  predicate EndsNewest(r: Room, held: seq<Snapshot>, revision: int)
    requires r.timeline.Some?
  {
    var t := r.timeline.value;
    && revision >= t.revision
    && (forall k :: 0 <= k < |held| && held[k].id == t.id ==> revision >= RevisionOf(held[k]))
    && (revision == t.revision || exists k :: 0 <= k < |held| && held[k].id == t.id && held[k].revision == Some(revision))
  }

  /** As long as at most two timelines were held back since the queue was emptied, the hand-over brings the view to
      the newest of the held snapshots of its timeline. */
  lemma TwoTimelinesLoseNothing(r: Room, n: Room, a: nat, b: nat)
    requires Inv(r) && Within(r.held, a, b) && n.timeline.Some? && n.timeline.value.revision >= -1
    ensures EndsNewest(n, r.held, HandedOver(n, r.queue))
  {
    hide HoldAll, Lookup, Fence, Working;
    var id := n.timeline.value.id;
    QueueKeepsNewest(r.held, a, b);
    LookupIn(r.queue, id);
    forall k | 0 <= k < |r.held| && r.held[k].id == id
      ensures HandedOver(n, r.queue) >= RevisionOf(r.held[k])
    {
      assert Keeps(HoldAll(r.held), r.held[k]);
      if RevisionOf(r.held[k]) >= 0 {
        HandedOverIff(n, r.queue, r.held[k]);
      }
    }
    if HandedOver(n, r.queue) != n.timeline.value.revision {
      var p := Lookup(r.queue, id).value;
      assert p in r.held;
      var m :| 0 <= m < |r.held| && r.held[m] == p;
      assert r.held[m].revision == Some(HandedOver(n, r.queue));
    }
  }

  // ---------- failure ----------

  predicate InFlushes(r: Room, s: Snapshot) { exists i :: 0 <= i < |r.flushes| && s in r.flushes[i] }

  predicate InOp(r: Room, s: Snapshot) {
    r.op.Some? && (r.op.value.phase == Fetching(Some(s)) || r.op.value.phase == Admitted(s))
  }

  /** Where a commit can still come from without another arrival. */
  predicate Origin(r: Room, s: Snapshot) { s in r.posted || s in r.queue || InFlushes(r, s) || InOp(r, s) }

  predicate Arrives(step: Step, s: Snapshot) { step == Live(s) || step == Fetch(s) }

  lemma {:induction false} InsertFrom(queue: seq<Snapshot>, s: Snapshot, x: Snapshot)
    requires x in Insert(queue, s)
    ensures x == s || x in queue
  {
    if queue != [] && queue[0].id != s.id && x != queue[0] {
      assert Insert(queue, s) == [queue[0]] + Insert(queue[1..], s);
      InsertFrom(queue[1..], s, x);
    }
  }

  lemma {:induction false} EvictFrom(queue: seq<Snapshot>, x: Snapshot)
    requires x in Evict(queue)
    ensures x in queue
  {
    if |queue| > 2 {
      EvictFrom(queue[1..], x);
    }
  }

  lemma HoldFrom(queue: seq<Snapshot>, s: Snapshot, x: Snapshot)
    requires x in Hold(queue, s)
    ensures x == s || x in queue
  {
    hide Insert, Evict;
    if s.revision.Some? {
      if x in Evict(Insert(queue, s)) {
        EvictFrom(Insert(queue, s), x);
        InsertFrom(queue, s, x);
      } else {
        EvictFrom(queue, x);
      }
    }
  }

  lemma QueuedFrom(r: Room, queue: seq<Snapshot>, x: Snapshot)
    requires x in QueuedForTimeline(r, queue)
    ensures x in queue
  {
    if r.timeline.Some? {
      LookupIn(queue, r.timeline.value.id);
    }
  }

  lemma OriginStep(r: Room, step: Step, s: Snapshot)
    requires Enabled(r, step) && Origin(Next(r, step), s)
    ensures Origin(r, s) || Arrives(step, s)
  {
    hide HoldAll, Hold, Lookup, InFlushes, QueuedForTimeline;
    var n := Next(r, step);
    match step {
      case Live(x) => if s in n.queue && s !in r.queue { HoldFrom(r.queue, x, s); } FlushesFrom(r, n, s);
      case OpenEnd(ok) => if s in n.posted && s !in r.posted { QueuedFrom(r, r.queue, s); } FlushesFrom(r, n, s);
      case Flush(i) =>
        if s in n.posted && s !in r.posted {
          QueuedFrom(r, r.flushes[i], s);
          assert InFlushes(r, s) by { FlushHas(r, i, s); }
        }
        if InFlushes(n, s) {
          RemovedFlush(r, n, i, s);
        }
      case RefreshEnd => if InFlushes(n, s) { RefreshFlush(r, n, s); }
      case _ => FlushesFrom(r, n, s);
    }
  }

  lemma FlushHas(r: Room, i: nat, s: Snapshot)
    requires i < |r.flushes| && s in r.flushes[i]
    ensures InFlushes(r, s)
  {
  }

  lemma FlushesFrom(r: Room, n: Room, s: Snapshot)
    requires n.flushes == r.flushes
    ensures InFlushes(n, s) == InFlushes(r, s)
  {
  }

  lemma RemovedFlush(r: Room, n: Room, i: nat, s: Snapshot)
    requires i < |r.flushes| && n.flushes == Removed(r.flushes, i) && InFlushes(n, s)
    ensures InFlushes(r, s)
  {
    var k :| 0 <= k < |n.flushes| && s in n.flushes[k];
    assert n.flushes[k] == r.flushes[if k < i then k else k + 1];
  }

  lemma RefreshFlush(r: Room, n: Room, s: Snapshot)
    requires n.flushes == r.flushes || n.flushes == r.flushes + [r.queue]
    requires InFlushes(n, s)
    ensures InFlushes(r, s) || s in r.queue
  {
    var k :| 0 <= k < |n.flushes| && s in n.flushes[k];
    if k < |r.flushes| {
      assert s in r.flushes[k];
    }
  }

  lemma CommitStep(r: Room, step: Step)
    requires Enabled(r, step)
    ensures var n := Next(r, step);
      && r.commits <= n.commits
      && forall k :: |r.commits| <= k < |n.commits| ==> Origin(r, n.commits[k].snapshot) || Arrives(step, n.commits[k].snapshot)
  {
    hide HoldAll, Hold, Lookup, InFlushes;
  }

  /** Every commit of a run was posted, queued or fetched at its start, or arrives in it. */
  lemma {:induction false} CommitOrigin(r: Room, steps: seq<Step>, k: nat)
    requires Legal(r, steps) && |r.commits| <= k < |After(r, steps).commits|
    ensures var s := After(r, steps).commits[k].snapshot;
      Origin(r, s) || exists i :: 0 <= i < |steps| && Arrives(steps[i], s)
    decreases |steps|
  {
    hide Next, Enabled, Origin, Arrives;
    if steps != [] {
      var n := Next(r, steps[0]);
      CommitStep(r, steps[0]);
      var end := After(n, steps[1..]);
      var s := end.commits[k].snapshot;
      if k < |n.commits| {
        CommitsExtend(n, steps[1..]);
        assert end.commits[k] == n.commits[k];
      } else {
        CommitOrigin(n, steps[1..], k);
        if Origin(n, s) {
          OriginStep(r, steps[0], s);
        } else {
          var i :| 0 <= i < |steps[1..]| && Arrives(steps[1..][i], s);
          assert Arrives(steps[i + 1], s);
        }
      }
    }
  }

  lemma {:induction false} CommitsExtend(r: Room, steps: seq<Step>)
    requires Legal(r, steps)
    ensures r.commits <= After(r, steps).commits
    decreases |steps|
  {
    hide Next, Enabled, Origin, Arrives;
    if steps != [] {
      CommitStep(r, steps[0]);
      CommitsExtend(Next(r, steps[0]), steps[1..]);
    }
  }

  /** After a failed open nothing that was held is ever committed, unless an earlier operation had already
      handed it over or the native side sends it again. */
  lemma FailedOpenCommitsNoneHeld(r: Room, steps: seq<Step>, k: nat)
    requires Enabled(r, OpenEnd(false)) && Legal(Next(r, OpenEnd(false)), steps)
    requires |r.commits| <= k < |After(Next(r, OpenEnd(false)), steps).commits|
    ensures var s := After(Next(r, OpenEnd(false)), steps).commits[k].snapshot;
      s in r.posted || InFlushes(r, s) || exists i :: 0 <= i < |steps| && Arrives(steps[i], s)
  {
    hide HoldAll, Hold, Lookup, InFlushes;
    var n := Next(r, OpenEnd(false));
    CommitOrigin(n, steps, k);
    FlushesFrom(r, n, After(n, steps).commits[k].snapshot);
  }

  /** A refresh that could not admit the room drops what was held for it in the same way. */
  lemma FailedRefreshCommitsNoneHeld(r: Room, steps: seq<Step>, k: nat)
    requires Enabled(r, RefreshEnd) && !r.admitted && Legal(Next(r, RefreshEnd), steps)
    requires |r.commits| <= k < |After(Next(r, RefreshEnd), steps).commits|
    ensures var s := After(Next(r, RefreshEnd), steps).commits[k].snapshot;
      s in r.posted || InFlushes(r, s) || InOp(r, s) || exists i :: 0 <= i < |steps| && Arrives(steps[i], s)
  {
    hide HoldAll, Hold, Lookup, InFlushes;
    var n := Next(r, RefreshEnd);
    CommitOrigin(n, steps, k);
    FlushesFrom(r, n, After(n, steps).commits[k].snapshot);
  }
}
