/** Fencing and hand-over: what every run of a room keeps, however opens, refreshes and live snapshots interleave. */
module TimelineRuns {
  import opened Wrappers
  import opened Timelines

  // ---------- fencing ----------

  predicate Earlier(a: Commit, b: Commit) { a.epoch < b.epoch || (a.epoch == b.epoch && a.revision < b.revision) }

  predicate Increasing(commits: seq<Commit>) {
    forall i, j :: 0 <= i < j < |commits| ==> Earlier(commits[i], commits[j])
  }

  /** Nothing committed is ahead of the current timeline. */
  predicate Covered(r: Room) {
    forall i :: 0 <= i < |r.commits| ==>
      r.commits[i].epoch < r.epoch || (r.commits[i].epoch == r.epoch && r.timeline.Some? && r.commits[i].revision <= r.timeline.value.revision)
  }

  /** A snapshot that an operation has fetched is from the current timeline or from a later one. */
  predicate Recent(r: Room, s: Snapshot) {
    s.id < r.nextId && (r.live.Some? ==> s.id <= r.live.value) && (r.timeline.Some? ==> r.timeline.value.id <= s.id)
  }

  predicate Ids(r: Room) {
    && (r.live.Some? ==> r.live.value < r.nextId)
    && (r.timeline.Some? ==> r.timeline.value.revision >= -1 && r.timeline.value.id < r.nextId && (r.live.Some? ==> r.timeline.value.id <= r.live.value))
    && (r.op.Some? && r.op.value.phase.Fetching? && r.op.value.phase.latest.Some? ==> Recent(r, r.op.value.phase.latest.value))
  }

  /** The retired timelines are behind the current one, or are it and marked. */
  predicate RetiredBehind(r: Room) {
    forall id :: id in r.retiredIds ==>
      r.timeline.Some? && id <= r.timeline.value.id && (id == r.timeline.value.id ==> r.timeline.value.retired)
  }

  /** The snapshot of an operation is of the current timeline. */
  predicate Standing(r: Room, s: Snapshot) {
    && r.timeline.Some? && r.timeline.value.id == s.id && !r.timeline.value.retired
    && s.revision.Some? && s.revision.value >= 0 && s.hasMore.Some?
  }

  /** What an operation under way has achieved so far. */
  predicate Working(r: Room) {
    && (r.timeline.Some? ==> r.known)
    && (r.refresh.Some? && !r.refresh.value.Early? && r.op.Some? ==> r.op.value.kind.Reopening?)
    && (r.op.Some? && r.op.value.kind.Reopening? ==> r.known && !r.op.value.phase.Binding?)
    && (r.op.Some? ==>
          match r.op.value.phase
          case Fetching(_) => r.known
          case Admitted(s) => Standing(r, s)
          case Processed(s) => Standing(r, s) && (r.active ==> r.timeline.value.revision >= s.revision.value)
          case _ => true)
  }

  predicate Fence(r: Room) { Increasing(r.commits) && Covered(r) && Ids(r) && RetiredBehind(r) }

  predicate Inv(r: Room) {
    Fence(r) && Working(r) && r.queue == HoldAll(r.held)
  }

  lemma CommitKeeps(r: Room, s: Snapshot)
    requires Fence(r)
    ensures Fence(TryCommit(r, s))
  {
  }

  lemma HoldKeeps(r: Room, s: Snapshot)
    requires r.queue == HoldAll(r.held)
    ensures Hold(r.queue, s) == HoldAll(r.held + [s])
  {
    var held := r.held + [s];
    assert held[..|held| - 1] == r.held;
  }

  lemma AdmitKeeps(r: Room)
    requires Fence(r) && Enabled(r, Admit)
    ensures Fence(Next(r, Admit))
  {
    var s := r.op.value.phase.latest.value;
    var n := Next(r, Admit);
    if Admissible(r, s) {
      AdmitFence(r, s);
      Framed(AdmitTimeline(r, s), n);
    } else {
      Framed(r, n);
    }
  }

  lemma AdmitFence(r: Room, s: Snapshot)
    requires Fence(r) && Admissible(r, s) && r.op.Some? && r.op.value.phase == Fetching(Some(s))
    ensures Fence(AdmitTimeline(r, s))
  {
  }

  lemma RetireKeeps(r: Room)
    requires Fence(r) && Enabled(r, Retire)
    ensures Fence(Next(r, Retire))
  {
  }

  /** What the fence says depends on few fields. */
  lemma Framed(r: Room, n: Room)
    requires Fence(r) && n.commits == r.commits && n.timeline == r.timeline && n.epoch == r.epoch && n.retiredIds == r.retiredIds
    requires r.nextId <= n.nextId && (n.live == r.live || n.live.None? || (r.live.None? && n.live == Some(r.nextId) && r.nextId < n.nextId))
    requires n.op.Some? && n.op.value.phase.Fetching? && n.op.value.phase.latest.Some? ==>
      n.op == r.op || (n.live == Some(n.op.value.phase.latest.value.id))
    ensures Fence(n)
  {
    hide Increasing;
    assert Covered(n) by { hide Ids; }
    assert RetiredBehind(n) by { hide Ids, Covered; }
    assert Ids(n) by { hide Covered, RetiredBehind; }
  }

  lemma StepFence(r: Room, step: Step)
    requires Fence(r) && Enabled(r, step)
    ensures Fence(Next(r, step))
  {
    hide HoldAll, Hold, Lookup, TryCommit, Fence, Admissible, AdmitTimeline;
    match step {
      case Live(s) =>
        CommitKeeps(r, s);
        Framed(r, r.(queue := Hold(r.queue, s), held := r.held + [s]));
      case Admit => AdmitKeeps(r);
      case Process =>
        var s := r.op.value.phase.snapshot;
        CommitKeeps(r, s);
        SameTimeline(r, s);
        Framed(TryCommit(r, s), Next(r, step));
      case Post(i) =>
        var rest := r.(posted := Removed(r.posted, i));
        Framed(r, rest);
        CommitKeeps(rest, r.posted[i]);
      case Retire => RetireKeeps(r);
      case _ => Framed(r, Next(r, step));
    }
  }

  lemma StepQueue(r: Room, step: Step)
    requires r.queue == HoldAll(r.held) && Enabled(r, step)
    ensures Next(r, step).queue == HoldAll(Next(r, step).held)
  {
    hide HoldAll, Hold, Lookup, TryCommit, Admissible, AdmitTimeline;
    NothingHeld();
    match step {
      case Live(s) => HoldKeeps(r, s); SameTimeline(r, s);
      case Process => SameTimeline(r, r.op.value.phase.snapshot);
      case Post(i) => SameTimeline(r.(posted := Removed(r.posted, i)), r.posted[i]);
      case Admit => SameAdmission(r, r.op.value.phase.latest.value);
      case _ =>
    }
  }

  lemma NothingHeld()
    ensures HoldAll([]) == []
  {
  }

  /** A commit moves the timeline forward and changes nothing else but the list of commits. */
  lemma SameTimeline(r: Room, s: Snapshot)
    ensures var n := TryCommit(r, s);
      && n == r.(timeline := n.timeline, commits := n.commits)
      && (r.timeline.None? ==> n.timeline.None?)
      && (r.timeline.Some? ==>
            n.timeline.Some? && n.timeline.value.id == r.timeline.value.id && n.timeline.value.retired == r.timeline.value.retired
            && n.timeline.value.revision >= r.timeline.value.revision)
  {
  }

  lemma SameAdmission(r: Room, s: Snapshot)
    ensures var n := AdmitTimeline(r, s); n == r.(timeline := n.timeline, epoch := n.epoch) && n.timeline.Some?
  {
  }

  lemma StepWorking(r: Room, step: Step)
    requires Working(r) && Enabled(r, step)
    ensures Working(Next(r, step))
  {
    hide HoldAll, Hold, Lookup, TryCommit, Admissible, AdmitTimeline;
    match step {
      case Live(s) => SameTimeline(r, s);
      case Process => ProcessWorks(r);
      case Post(i) => SameTimeline(r.(posted := Removed(r.posted, i)), r.posted[i]);
      case Admit => AdmitWorks(r);
      case _ =>
    }
  }

  lemma ProcessWorks(r: Room)
    requires Working(r) && Enabled(r, Process)
    ensures Working(Next(r, Process))
  {
  }

  lemma AdmitWorks(r: Room)
    requires Working(r) && Enabled(r, Admit)
    ensures Working(Next(r, Admit))
  {
  }

  lemma StepKeeps(r: Room, step: Step)
    requires Inv(r) && Enabled(r, step)
    ensures Inv(Next(r, step))
  {
    hide Next, Enabled, Fence, Working;
    StepFence(r, step);
    StepWorking(r, step);
    StepQueue(r, step);
  }

  lemma {:induction false} RunKeeps(r: Room, steps: seq<Step>)
    requires Inv(r) && Legal(r, steps)
    ensures Inv(After(r, steps))
    decreases |steps|
  {
    hide Inv, Enabled, Next;
    if steps != [] {
      StepKeeps(r, steps[0]);
      RunKeeps(Next(r, steps[0]), steps[1..]);
    }
  }

  lemma InitialInv()
    ensures Inv(INITIAL)
  {
  }

  /** Along every run the pair of admission epoch and revision strictly increases at each committed snapshot. */
  lemma CommitsIncrease(steps: seq<Step>)
    requires Legal(INITIAL, steps)
    ensures Increasing(After(INITIAL, steps).commits)
  {
    InitialInv();
    RunKeeps(INITIAL, steps);
  }

  /** The commits of a run extend the earlier ones, and none of the new ones is from a timeline that was
      retired before. */
  lemma {:induction false} RetiredNeverCommits(r: Room, steps: seq<Step>)
    requires Inv(r) && Legal(r, steps)
    ensures var n := After(r, steps);
      && r.retiredIds <= n.retiredIds && r.commits <= n.commits
      && forall k :: |r.commits| <= k < |n.commits| ==> n.commits[k].snapshot.id !in r.retiredIds
    decreases |steps|
  {
    hide Inv, Enabled, Next;
    if steps != [] {
      var m := Next(r, steps[0]);
      StepKeeps(r, steps[0]);
      StepNotRetired(r, steps[0]);
      RetiredNeverCommits(m, steps[1..]);
      var n := After(m, steps[1..]);
      forall k | |r.commits| <= k < |n.commits|
        ensures n.commits[k].snapshot.id !in r.retiredIds
      {
        if k < |m.commits| {
          assert n.commits[k] == m.commits[k];
        }
      }
    }
  }

  lemma StepNotRetired(r: Room, step: Step)
    requires Inv(r) && Enabled(r, step)
    ensures var n := Next(r, step);
      && r.retiredIds <= n.retiredIds && r.commits <= n.commits
      && forall k :: |r.commits| <= k < |n.commits| ==> n.commits[k].snapshot.id !in r.retiredIds
  {
    hide HoldAll, Hold, Increasing, Covered, Ids;
  }

  /** The same entry of handle.timelines, retired or not. */
  predicate SameEntry(t: Option<Timeline>, u: Option<Timeline>) {
    if t.None? then u.None? else u.Some? && u.value.(retired := t.value.retired) == t.value
  }

  lemma ReleasedStep(r: Room, step: Step)
    requires !r.active && Enabled(r, step)
    ensures var n := Next(r, step);
      !n.active && n.commits == r.commits && n.epoch == r.epoch && SameEntry(r.timeline, n.timeline) && (n.known ==> r.known)
  {
    hide HoldAll, Hold, Lookup;
  }

  /** Once the handle is released nothing is committed or admitted, and no room becomes known. */
  lemma {:induction false} ReleasedIsFinal(r: Room, steps: seq<Step>)
    requires !r.active && Legal(r, steps)
    ensures var n := After(r, steps);
      !n.active && n.commits == r.commits && n.epoch == r.epoch && SameEntry(r.timeline, n.timeline) && (n.known ==> r.known)
    decreases |steps|
  {
    hide Next, Enabled;
    if steps != [] {
      ReleasedStep(r, steps[0]);
      ReleasedIsFinal(Next(r, steps[0]), steps[1..]);
    }
  }
}
