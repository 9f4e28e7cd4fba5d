/** One room of a Matrix handle: opens, session refreshes and live snapshots that race for its timeline.
    Other rooms share only `active`, the refresh and the supply of native timeline ids. */
module Timelines {
  import opened Wrappers

  /** MatrixNativeRoomSnapshot; a revision that is no safe integer and a cursor that is no boolean are None. */
  datatype Snapshot = Snapshot(id: nat, revision: Option<int>, hasMore: Option<bool>, events: seq<string>)

  /** An entry of handle.timelines. */
  datatype Timeline = Timeline(id: nat, revision: int, hasMore: bool, retired: bool)

  /** An open is one task of roomOpenTasks; a refresh visits the room while it reopens every known one. */
  datatype Kind = Opening | Reopening

  /** A failed open still waits for closeRoom before its queue is dropped. */
  datatype Phase = Binding | Fetching(latest: Option<Snapshot>) | Admitted(snapshot: Snapshot) | Processed(snapshot: Snapshot) | Failed

  datatype Op = Op(kind: Kind, phase: Phase)

  /** How far refreshPromise has come: before and after retiring the timelines, and after startNativeSession. */
  datatype Refresh = Early | Fenced | Restarted(visited: bool)

  /** A snapshot that replaced the remote records, under the admission that it belongs to. */
  datatype Commit = Commit(epoch: nat, revision: int, snapshot: Snapshot)

  /** `queue` is pendingTimelineSnapshots for the room, in the insertion order of the Map; `posted` are
      queued snapshots that an operation has handed to processNativeSnapshot, `flushes` the queues that
      finished refreshes still have to hand over. `live` is the timeline that the native side has open,
      `nextId` bounds all ids it has used. `epoch` counts the admissions, `commits` the committed snapshots,
      `held` the snapshots held back since the queue was last emptied, `retiredIds` the fenced timelines. */
  datatype Room = Room(active: bool, refresh: Option<Refresh>, op: Option<Op>, known: bool, timeline: Option<Timeline>,
                       queue: seq<Snapshot>, posted: seq<Snapshot>, flushes: seq<seq<Snapshot>>, admitted: bool,
                       live: Option<nat>, nextId: nat,
                       epoch: nat, commits: seq<Commit>, held: seq<Snapshot>, retiredIds: set<nat>)

  datatype Step =
    | Live(snapshot: Snapshot)
    | OpenStart
    | Bind
    | Fetch(snapshot: Snapshot)
    | Admit
    | Process
    | Catch
    | OpenEnd(ok: bool)
    | RefreshStart
    | Retire
    | Restart
    | Visit
    | Leave
    | RefreshEnd
    | Flush(flush: nat)
    | Post(post: nat)
    | NativeOpen
    | NativeClose
    | Elsewhere(ids: nat)
    | Release

  // ---------- the queue of held snapshots ----------

  function RevisionOf(s: Snapshot): int { if s.revision.Some? then s.revision.value else -1 }

  /** queued.get(timelineId) */
  function Lookup(queue: seq<Snapshot>, id: nat): Option<Snapshot> {
    if queue == [] then None else if queue[0].id == id then Some(queue[0]) else Lookup(queue[1..], id)
  }

  /** queued.set: an existing key keeps its place. */
  function Insert(queue: seq<Snapshot>, s: Snapshot): (q: seq<Snapshot>)
    ensures |q| <= |queue| + 1
  {
    if queue == [] then [s]
    else if queue[0].id == s.id then [s] + queue[1..]
    else [queue[0]] + Insert(queue[1..], s)
  }

  /** The newest revision of a timeline stays, and the oldest timelines go until two are left. */
  function Evict(queue: seq<Snapshot>): seq<Snapshot> {
    if |queue| > 2 then Evict(queue[1..]) else queue
  }

  function Hold(queue: seq<Snapshot>, s: Snapshot): seq<Snapshot> {
    if s.revision.None? then queue
    else
      var known := Lookup(queue, s.id);
      Evict(if (if known.Some? then RevisionOf(known.value) else -1) < s.revision.value then Insert(queue, s) else queue)
  }

  function HoldAll(held: seq<Snapshot>): seq<Snapshot> {
    if held == [] then [] else Hold(HoldAll(held[..|held| - 1]), held[|held| - 1])
  }

  function QueuedForTimeline(r: Room, queue: seq<Snapshot>): seq<Snapshot> {
    var found := if r.timeline.Some? then Lookup(queue, r.timeline.value.id) else None;
    if found.Some? then [found.value] else []
  }

  // ---------- the commit test ----------

  predicate Newer(t: Option<Timeline>, s: Snapshot) {
    && t.Some? && !t.value.retired && t.value.id == s.id
    && s.revision.Some? && s.revision.value > t.value.revision && s.hasMore.Some?
  }

  /** The part of processNativeSnapshot behind its awaits. */
  function TryCommit(r: Room, s: Snapshot): Room {
    if r.active && r.known && Newer(r.timeline, s) then
      r.(timeline := Some(r.timeline.value.(revision := s.revision.value, hasMore := s.hasMore.value)),
         commits := r.commits + [Commit(r.epoch, s.revision.value, s)])
    else r
  }

  predicate HoldsBack(r: Room) { r.refresh.Some? || (r.op.Some? && r.op.value.kind.Opening?) }

  // ---------- admission ----------

  /** What admitNativeTimeline throws on; the checks of account and room are not part of this model. */
  predicate Admissible(r: Room, s: Snapshot) {
    && r.active && s.revision.Some? && s.revision.value >= 0 && s.hasMore.Some?
    && !(r.timeline.Some? && r.timeline.value.retired && r.timeline.value.id == s.id)
  }

  function AdmitTimeline(r: Room, s: Snapshot): Room {
    if r.timeline.Some? && r.timeline.value.id == s.id then r
    else r.(timeline := Some(Timeline(s.id, -1, true, false)), epoch := r.epoch + 1)
  }

  // ---------- steps ----------

  function NativeId(r: Room): nat { if r.live.Some? then r.live.value else r.nextId }

  function Opened(r: Room): Room {
    r.(live := Some(NativeId(r)), nextId := if r.live.Some? then r.nextId else r.nextId + 1)
  }

  function Removed<T>(s: seq<T>, i: nat): seq<T>
    requires i < |s|
  {
    s[..i] + s[i + 1..]
  }

  function At(r: Room, phase: Phase): Room
    requires r.op.Some?
  {
    r.(op := Some(r.op.value.(phase := phase)))
  }

  /** The catch of an open forgets a room that never had a timeline; that of a refresh does nothing. */
  function Caught(r: Room): Room
    requires r.op.Some?
  {
    At(if r.op.value.kind.Opening? && r.timeline.None? then r.(known := false) else r, Failed)
  }

  predicate Enabled(r: Room, step: Step) {
    match step
    case Live(_) => true
    case OpenStart => r.active && r.op.None? && (r.refresh.None? || r.refresh.value.Early?)
    case Bind => r.op.Some? && r.op.value.phase.Binding?
    case Fetch(s) => r.op.Some? && r.op.value.phase.Fetching? && s.id == NativeId(r)
    case Admit => r.op.Some? && r.op.value.phase.Fetching? && r.op.value.phase.latest.Some?
    case Process => r.op.Some? && r.op.value.phase.Admitted?
    case Catch => r.op.Some? && r.op.value.kind.Opening? && !r.op.value.phase.Binding? && !r.op.value.phase.Failed?
    case OpenEnd(ok) =>
      && r.op.Some? && r.op.value.kind.Opening?
      && (if ok then r.op.value.phase.Processed? else r.op.value.phase.Binding? || r.op.value.phase.Failed?)
    case RefreshStart => r.active && r.refresh.None?
    case Retire => r.active && r.refresh == Some(Early) && r.op.None?
    case Restart => r.refresh == Some(Fenced)
    case Visit => r.refresh == Some(Restarted(false)) && r.op.None? && r.known
    case Leave => r.op.Some? && r.op.value.kind.Reopening?
    case RefreshEnd => r.refresh.Some? && (r.op.Some? ==> r.op.value.kind.Opening?)
    case Flush(i) => i < |r.flushes|
    case Post(i) => i < |r.posted|
    case NativeOpen => true
    case NativeClose => true
    case Elsewhere(_) => true
    case Release => true
  }

  function Next(r: Room, step: Step): Room
    requires Enabled(r, step)
  {
    match step
    case Live(s) =>
      if r.active && r.known && HoldsBack(r) then r.(queue := Hold(r.queue, s), held := r.held + [s]) else TryCommit(r, s)
    case OpenStart => r.(op := Some(Op(Opening, Binding)))
    case Bind => if r.active then At(r.(known := true), Fetching(None)) else At(r, Failed)
    case Fetch(s) => At(Opened(r), Fetching(Some(s)))
    case Admit =>
      var s := r.op.value.phase.latest.value;
      if Admissible(r, s) then At(AdmitTimeline(r, s), Admitted(s)) else Caught(r)
    case Process => At(TryCommit(r, r.op.value.phase.snapshot), Processed(r.op.value.phase.snapshot))
    case Catch => Caught(r)
    case OpenEnd(ok) =>
      r.(op := None, queue := [], held := [],
         posted := if ok then r.posted + QueuedForTimeline(r, r.queue) else r.posted)
    case RefreshStart => r.(refresh := Some(Early), admitted := false)
    case Retire =>
      var t := r.timeline;
      r.(refresh := Some(Fenced),
         timeline := if t.Some? then Some(t.value.(retired := true)) else None,
         retiredIds := if t.Some? then r.retiredIds + {t.value.id} else r.retiredIds)
    case Restart => r.(refresh := Some(Restarted(false)), live := None)
    case Visit => r.(refresh := Some(Restarted(true)), op := Some(Op(Reopening, Fetching(None))))
    case Leave => r.(op := None, admitted := r.op.value.phase.Processed?)
    case RefreshEnd =>
      r.(refresh := None, queue := [], held := [], admitted := false,
         flushes := if r.admitted then r.flushes + [r.queue] else r.flushes)
    case Flush(i) => r.(flushes := Removed(r.flushes, i), posted := r.posted + QueuedForTimeline(r, r.flushes[i]))
    case Post(i) => TryCommit(r.(posted := Removed(r.posted, i)), r.posted[i])
    case NativeOpen => Opened(r)
    case NativeClose => r.(live := None)
    case Elsewhere(ids) => r.(nextId := r.nextId + ids)
    case Release => r.(active := false)
  }

  predicate Legal(r: Room, steps: seq<Step>)
    decreases |steps|
  {
    steps == [] || (Enabled(r, steps[0]) && Legal(Next(r, steps[0]), steps[1..]))
  }

  function After(r: Room, steps: seq<Step>): Room
    requires Legal(r, steps)
    decreases |steps|
  {
    if steps == [] then r else After(Next(r, steps[0]), steps[1..])
  }

  const INITIAL := Room(true, None, None, false, None, [], [], [], false, None, 0, 0, [], [], {})

  // ---------- the handle's own variables ----------

  /** The fields of NativeMatrixHandle that concern one room; every method is the code between two awaits. */
  class RoomHandle {
    var active: bool
    var refreshPromise: Option<Refresh>
    var roomOpenTask: Option<Op>
    var threadKnown: bool
    var timeline: Option<Timeline>
    var pendingTimelineSnapshots: seq<Snapshot>
    var posted: seq<Snapshot>
    var flushes: seq<seq<Snapshot>>
    var admittedRoom: bool
    var nativeTimeline: Option<nat>
    var nextId: nat
    var epoch: nat
    var commits: seq<Commit>
    var held: seq<Snapshot>
    var retiredIds: set<nat>

    function State(): Room
      reads this
    {
      Room(active, refreshPromise, roomOpenTask, threadKnown, timeline, pendingTimelineSnapshots, posted, flushes,
           admittedRoom, nativeTimeline, nextId, epoch, commits, held, retiredIds)
    }

    constructor ()
      ensures State() == INITIAL
    {
      active, threadKnown, admittedRoom := true, false, false;
      refreshPromise, roomOpenTask, timeline, nativeTimeline := None, None, None, None;
      pendingTimelineSnapshots, posted, flushes, commits, held := [], [], [], [], [];
      nextId, epoch, retiredIds := 0, 0, {};
    }

    /** The commit at the end of processNativeSnapshot. */
    method CommitSnapshot(s: Snapshot)
      modifies this
      ensures State() == TryCommit(old(State()), s)
    {
      if !active || !threadKnown {
        return;
      }
      if timeline.None? || timeline.value.retired || timeline.value.id != s.id || s.revision.None?
         || s.revision.value <= timeline.value.revision || s.hasMore.None? {
        return;
      }
      timeline := Some(Timeline(s.id, s.revision.value, s.hasMore.value, false));
      commits := commits + [Commit(epoch, s.revision.value, s)];
    }

    /** processNativeSnapshot for a callback of the native side. */
    method ProcessLive(s: Snapshot)
      modifies this
      ensures State() == Next(old(State()), Live(s))
    {
      if active && threadKnown && (refreshPromise.Some? || (roomOpenTask.Some? && roomOpenTask.value.kind.Opening?)) {
        held := held + [s];
        if s.revision.None? {
          return;
        }
        var known := Lookup(pendingTimelineSnapshots, s.id);
        var queued := pendingTimelineSnapshots;
        if (if known.Some? then RevisionOf(known.value) else -1) < s.revision.value {
          queued := Insert(queued, s);
        }
        ghost var all := queued;
        while |queued| > 2
          invariant Evict(queued) == Evict(all)
        {
          queued := queued[1..];
        }
        pendingTimelineSnapshots := queued;
      } else {
        CommitSnapshot(s);
      }
    }

    /** admitNativeTimeline: false where it throws. */
    method AdmitNativeTimeline(s: Snapshot) returns (admitted: bool)
      modifies this
      ensures admitted == Admissible(old(State()), s)
      ensures State() == if admitted then AdmitTimeline(old(State()), s) else old(State())
    {
      if !active || s.revision.None? || s.revision.value < 0 || s.hasMore.None? {
        return false;
      }
      if timeline.Some? && timeline.value.retired && timeline.value.id == s.id {
        return false;
      }
      if timeline.None? || timeline.value.id != s.id {
        timeline := Some(Timeline(s.id, -1, true, false));
        epoch := epoch + 1;
      }
      return true;
    }

    /** An operation admits the snapshot that it has fetched. */
    method AdmitFetched()
      requires Enabled(State(), Admit)
      modifies this
      ensures State() == Next(old(State()), Admit)
    {
      var s := roomOpenTask.value.phase.latest.value;
      var admitted := AdmitNativeTimeline(s);
      if admitted {
        roomOpenTask := Some(roomOpenTask.value.(phase := Admitted(s)));
      } else {
        FailOperation();
      }
    }

    method ProcessAdmitted()
      requires Enabled(State(), Process)
      modifies this
      ensures State() == Next(old(State()), Process)
    {
      var s := roomOpenTask.value.phase.snapshot;
      CommitSnapshot(s);
      roomOpenTask := Some(roomOpenTask.value.(phase := Processed(s)));
    }

    /** The catch of an operation, up to its wait for closeRoom. */
    method FailOperation()
      requires roomOpenTask.Some?
      modifies this
      ensures State() == Caught(old(State()))
    {
      if roomOpenTask.value.kind.Opening? && timeline.None? {
        threadKnown := false;
      }
      roomOpenTask := Some(roomOpenTask.value.(phase := Failed));
    }

    /** The finally of openNativeRoom. */
    method FinishOpen(completed: bool)
      requires Enabled(State(), OpenEnd(completed))
      modifies this
      ensures State() == Next(old(State()), OpenEnd(completed))
    {
      if completed {
        var queued := QueuedForTimeline(State(), pendingTimelineSnapshots);
        posted := posted + queued;
      }
      roomOpenTask := None;
      pendingTimelineSnapshots := [];
      held := [];
    }

    /** The loop of renewHandle over handle.timelines. */
    method RetireTimeline()
      requires Enabled(State(), Retire)
      modifies this
      ensures State() == Next(old(State()), Retire)
    {
      if timeline.Some? {
        timeline := Some(timeline.value.(retired := true));
        retiredIds := retiredIds + {timeline.value.id};
      }
      refreshPromise := Some(Fenced);
    }

    /** The finally of renewHandle. */
    method FinishRefresh()
      requires Enabled(State(), RefreshEnd)
      modifies this
      ensures State() == Next(old(State()), RefreshEnd)
    {
      var queued := pendingTimelineSnapshots;
      refreshPromise := None;
      if admittedRoom {
        flushes := flushes + [queued];
      }
      pendingTimelineSnapshots := [];
      held := [];
      admittedRoom := false;
    }
  }
}
