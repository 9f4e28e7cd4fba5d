/** From the source vector through the native mirror to the committed view of the client. */
module EndToEnd {
  import opened Wrappers
  import TimelineMirror
  import MirrorRuns
  import opened Timelines
  import opened TimelineRuns
  import opened Handover

  /** The view is the last commit, and it is at the revision of the current timeline. */
  predicate Shown(r: Room) {
    r.timeline.Some? && r.timeline.value.revision > -1 ==>
      && |r.commits| > 0
      && var last := r.commits[|r.commits| - 1];
         last.epoch == r.epoch && last.revision == r.timeline.value.revision
         && last.snapshot.id == r.timeline.value.id && last.snapshot.revision == Some(last.revision)
  }

  lemma ShownStep(r: Room, step: Step)
    requires Shown(r) && Enabled(r, step)
    ensures Shown(Next(r, step))
  {
    hide HoldAll, Hold, Lookup;
  }

  lemma {:induction false} ShownAlways(r: Room, steps: seq<Step>)
    requires Shown(r) && Legal(r, steps)
    ensures Shown(After(r, steps))
    decreases |steps|
  {
    hide Shown, Next, Enabled;
    if steps != [] {
      ShownStep(r, steps[0]);
      ShownAlways(Next(r, steps[0]), steps[1..]);
    }
  }

  /** A snapshot that the native side took while the mirror of its timeline was active. `events` is the
      projection of roomSnapshot, which keeps the authenticated messages. */
  predicate TakenLive<T(==)>(w: MirrorRuns.World<T>, events: seq<T> -> seq<string>, s: Snapshot) {
    exists i :: 0 <= i < |w.sent| && Depicts(w.sent[i], events, s)
  }

  predicate Depicts<T(==)>(sent: MirrorRuns.Sent<T>, events: seq<T> -> seq<string>, s: Snapshot) {
    sent.live && s.revision == Some(sent.report.revision) && s.events == events(sent.report.items)
  }

  /** Every snapshot of timeline `id` that reaches the client comes from the active mirror `w`. */
  predicate Faithful<T(==)>(w: MirrorRuns.World<T>, events: seq<T> -> seq<string>, id: nat, steps: seq<Step>) {
    forall i :: 0 <= i < |steps| ==>
      (steps[i].Live? || steps[i].Fetch?) && steps[i].snapshot.id == id ==> TakenLive(w, events, steps[i].snapshot)
  }

  /** In every run of the room the view shows the items that the mirror had at the revision of the timeline,
      however the snapshots were reordered, repeated, held back or lost on the way. */
  lemma ViewShowsItsRevision<T(!new)>(v: seq<T>, mirrorSteps: seq<MirrorRuns.Step<T>>, events: seq<T> -> seq<string>, id: nat, steps: seq<Step>)
    requires MirrorRuns.Legal(MirrorRuns.Initial(v), mirrorSteps) && Legal(INITIAL, steps)
    requires Faithful(MirrorRuns.After(MirrorRuns.Initial(v), mirrorSteps), events, id, steps)
    requires var t := After(INITIAL, steps).timeline; t.Some? && t.value.id == id && t.value.revision >= 0
    ensures var w := MirrorRuns.After(MirrorRuns.Initial(v), mirrorSteps);
      var r := After(INITIAL, steps);
      && |r.commits| > 0 && r.timeline.value.revision < |w.shown|
      && r.commits[|r.commits| - 1].snapshot.events == events(w.shown[r.timeline.value.revision])
  {
    hide Next, Enabled, MirrorRuns.Next, MirrorRuns.Enabled;
    var w := MirrorRuns.After(MirrorRuns.Initial(v), mirrorSteps);
    var r := After(INITIAL, steps);
    MirrorRuns.InitialInv(v);
    MirrorRuns.RunKeeps(MirrorRuns.Initial(v), mirrorSteps);
    ShownAlways(INITIAL, steps);
    var s := r.commits[|r.commits| - 1].snapshot;
    CommitOrigin(INITIAL, steps, |r.commits| - 1);
    assert !Origin(INITIAL, s);
    var i :| 0 <= i < |steps| && Arrives(steps[i], s);
    assert TakenLive(w, events, s);
    var k :| 0 <= k < |w.sent| && Depicts(w.sent[k], events, s);
    assert MirrorRuns.Truthful(w, w.sent[k]);
  }

  /** Some snapshot of the mirror, taken before or after its shutdown. */
  predicate Reported<T(==)>(sent: MirrorRuns.Sent<T>, events: seq<T> -> seq<string>, s: Snapshot) {
    s.revision == Some(sent.report.revision) && s.events == events(sent.report.items)
  }

  predicate Taken<T(==)>(w: MirrorRuns.World<T>, events: seq<T> -> seq<string>, s: Snapshot) {
    exists i :: 0 <= i < |w.sent| && Reported(w.sent[i], events, s)
  }

  predicate Genuine<T(==)>(w: MirrorRuns.World<T>, events: seq<T> -> seq<string>, id: nat, steps: seq<Step>) {
    forall i :: 0 <= i < |steps| ==>
      (steps[i].Live? || steps[i].Fetch?) && steps[i].snapshot.id == id ==> Taken(w, events, steps[i].snapshot)
  }

  /** Without that restriction the view shows the items of its revision or, if it was committed from a snapshot
      behind the shutdown, the projection of no items; nothing else can be seen. */
  lemma ViewShowsItsRevisionOrNothing<T(!new)>(v: seq<T>, mirrorSteps: seq<MirrorRuns.Step<T>>, events: seq<T> -> seq<string>, id: nat, steps: seq<Step>)
    returns (k: nat)
    requires MirrorRuns.Legal(MirrorRuns.Initial(v), mirrorSteps) && Legal(INITIAL, steps)
    requires Genuine(MirrorRuns.After(MirrorRuns.Initial(v), mirrorSteps), events, id, steps)
    requires var t := After(INITIAL, steps).timeline; t.Some? && t.value.id == id && t.value.revision >= 0
    ensures var w := MirrorRuns.After(MirrorRuns.Initial(v), mirrorSteps);
      var r := After(INITIAL, steps);
      && |r.commits| > 0 && r.timeline.value.revision < |w.shown|
      && k < |w.sent| && w.sent[k].report.revision == r.timeline.value.revision
      && r.commits[|r.commits| - 1].snapshot.events == events(if w.sent[k].live then w.shown[r.timeline.value.revision] else [])
  {
    hide Next, Enabled, MirrorRuns.Next, MirrorRuns.Enabled;
    var w := MirrorRuns.After(MirrorRuns.Initial(v), mirrorSteps);
    var r := After(INITIAL, steps);
    MirrorRuns.InitialInv(v);
    MirrorRuns.RunKeeps(MirrorRuns.Initial(v), mirrorSteps);
    ShownAlways(INITIAL, steps);
    var s := r.commits[|r.commits| - 1].snapshot;
    CommitOrigin(INITIAL, steps, |r.commits| - 1);
    assert !Origin(INITIAL, s);
    var i :| 0 <= i < |steps| && Arrives(steps[i], s);
    assert Taken(w, events, s);
    k :| 0 <= k < |w.sent| && Reported(w.sent[k], events, s);
    assert MirrorRuns.Truthful(w, w.sent[k]);
  }

  /** Whatever is committed, an empty report included, was new to a timeline that was still current and unretired. */
  lemma OnlyCurrentCommits(r: Room, step: Step)
    requires Enabled(r, step)
    ensures var n := Next(r, step);
      n.commits == r.commits
      || (|n.commits| == |r.commits| + 1 && n.commits[..|r.commits|] == r.commits
          && r.active && Newer(r.timeline, n.commits[|r.commits|].snapshot))
  {
    hide HoldAll, Hold, Lookup, AdmitTimeline, Admissible, QueuedForTimeline, Newer;
    if step.Admit? {
      SameAdmission(r, r.op.value.phase.latest.value);
    }
  }

  /** A snapshot that reaches the commit test is never undercut later: the view stays at its revision or a newer one
      until another timeline is admitted. */
  lemma ReachedIsKept(r: Room, s: Snapshot, steps: seq<Step>)
    requires Inv(r) && Ready(r) && !HoldsBack(r) && r.timeline.value.id == s.id && s.revision.Some? && s.hasMore.Some?
    requires Legal(Next(r, Live(s)), steps) && After(Next(r, Live(s)), steps).epoch == r.epoch
    ensures var n := After(Next(r, Live(s)), steps); n.timeline.Some? && n.timeline.value.revision >= s.revision.value
  {
    var m := Next(r, Live(s));
    assert m.epoch == r.epoch && m.timeline.Some? && m.timeline.value.revision >= s.revision.value;
    RunMonotone(m, steps);
  }

  /** The snapshots that arrive one after another while no operation holds them back. */
  function Arrivals(seen: seq<Snapshot>): seq<Step> {
    if seen == [] then [] else [Live(seen[0])] + Arrivals(seen[1..])
  }

  /** Any order and any repetition of snapshots of the timeline ends at the newest of them. */
  lemma {:induction false} OrderDoesNotMatter(r: Room, seen: seq<Snapshot>)
    requires Ready(r) && !HoldsBack(r) && WellFormed(seen)
    requires forall i :: 0 <= i < |seen| ==> seen[i].id == r.timeline.value.id && seen[i].revision.Some?
    ensures Legal(r, Arrivals(seen))
    ensures var n := After(r, Arrivals(seen)); n.timeline.Some? && EndsNewest(r, seen, n.timeline.value.revision)
    decreases |seen|
  {
    hide HoldAll, Hold, Lookup;
    if seen != [] {
      var m := Next(r, Live(seen[0]));
      var rest := seen[1..];
      assert Arrivals(seen)[1..] == Arrivals(rest);
      assert seen == [seen[0]] + rest;
      OrderDoesNotMatter(m, rest);
      var revision := After(m, Arrivals(rest)).timeline.value.revision;
      NewestOfBoth(r, m, seen, rest, revision);
    }
  }

  lemma NewestOfBoth(r: Room, m: Room, seen: seq<Snapshot>, rest: seq<Snapshot>, revision: int)
    requires r.timeline.Some? && m.timeline.Some? && m.timeline.value.id == r.timeline.value.id && seen != [] && seen == [seen[0]] + rest
    requires seen[0].id == r.timeline.value.id && seen[0].revision.Some?
    requires m.timeline.value.revision == if seen[0].revision.value > r.timeline.value.revision then seen[0].revision.value else r.timeline.value.revision
    requires EndsNewest(m, rest, revision)
    ensures EndsNewest(r, seen, revision)
  {
    forall k | 0 <= k < |seen| && seen[k].id == r.timeline.value.id
      ensures revision >= RevisionOf(seen[k])
    {
      if k > 0 {
        assert seen[k] == rest[k - 1];
      }
    }
    if revision != m.timeline.value.revision {
      var k :| 0 <= k < |rest| && rest[k].id == m.timeline.value.id && rest[k].revision == Some(revision);
      assert seen[k + 1] == rest[k];
    } else if revision != r.timeline.value.revision {
      assert seen[0].revision == Some(revision);
    }
  }
}
