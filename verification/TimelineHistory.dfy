/** The state of a room, read off the history of its steps: in which order opens and refreshes go through their
    stages, and what the timeline shows. */
module TimelineHistory {
  import opened Wrappers
  import opened Timelines
  import opened TimelineRuns

  // ---------- the last steps of a history ----------

  predicate IsRefreshStep(step: Step) { step.RefreshStart? || step.Retire? || step.Restart? || step.Visit? || step.RefreshEnd? }

  predicate IsOpStep(step: Step) {
    step.OpenStart? || step.Bind? || step.Fetch? || step.Admit? || step.Process? || step.Catch? || step.OpenEnd? || step.Visit? || step.Leave?
  }

  function LastRefresh(steps: seq<Step>): Option<Step> {
    if steps == [] then None
    else if IsRefreshStep(steps[|steps| - 1]) then Some(steps[|steps| - 1])
    else LastRefresh(steps[..|steps| - 1])
  }

  function LastOp(steps: seq<Step>): Option<Step> {
    if steps == [] then None
    else if IsOpStep(steps[|steps| - 1]) then Some(steps[|steps| - 1])
    else LastOp(steps[..|steps| - 1])
  }

  /** The last operation was a visit of a refresh. */
  predicate LastVisited(steps: seq<Step>) {
    if steps == [] then false
    else if steps[|steps| - 1].Visit? then true
    else !steps[|steps| - 1].OpenStart? && LastVisited(steps[..|steps| - 1])
  }

  /** The refresh under way has left the room behind a processed snapshot. */
  predicate Brought(steps: seq<Step>) {
    if steps == [] then false
    else
      var before, last := steps[..|steps| - 1], steps[|steps| - 1];
      if last.RefreshStart? || last.RefreshEnd? then false
      else if last.Leave? then LastOp(before) == Some(Process)
      else Brought(before)
  }

  // ---------- the stages ----------

  predicate RefreshStage(refresh: Option<Refresh>, last: Option<Step>) {
    if last.None? || last.value.RefreshEnd? then refresh.None?
    else if last.value.RefreshStart? then refresh == Some(Early)
    else if last.value.Retire? then refresh == Some(Fenced)
    else if last.value.Restart? then refresh == Some(Restarted(false))
    else refresh == Some(Restarted(true))
  }

  predicate OpStage(op: Option<Op>, last: Option<Step>) {
    if last.None? || last.value.OpenEnd? || last.value.Leave? then op.None?
    else
      && op.Some?
      && match last.value
         case OpenStart => op.value.phase.Binding?
         case Bind => op.value.phase == Fetching(None) || op.value.phase.Failed?
         case Visit => op.value.phase == Fetching(None)
         case Fetch(s) => op.value.phase == Fetching(Some(s))
         case Admit => op.value.phase.Admitted? || op.value.phase.Failed?
         case Process => op.value.phase.Processed?
         case _ => op.value.phase.Failed?
  }

  predicate Tracks(r: Room, steps: seq<Step>) {
    && RefreshStage(r.refresh, LastRefresh(steps)) && OpStage(r.op, LastOp(steps))
    && (r.op.Some? ==> r.op.value.kind == if LastVisited(steps) then Reopening else Opening)
    && r.admitted == Brought(steps)
  }

  lemma {:induction false} Snoc(r: Room, steps: seq<Step>)
    requires Legal(r, steps) && steps != []
    ensures var before, last := steps[..|steps| - 1], steps[|steps| - 1];
      Legal(r, before) && Enabled(After(r, before), last) && After(r, steps) == Next(After(r, before), last)
    decreases |steps|
  {
    hide Enabled, Next;
    if |steps| == 1 {
      assert steps[..0] == [] && steps[1..] == [];
    } else {
      var n, rest := Next(r, steps[0]), steps[1..];
      Snoc(n, rest);
      assert steps[..|steps| - 1][1..] == rest[..|rest| - 1] && rest[|rest| - 1] == steps[|steps| - 1];
    }
  }

  lemma CommitLeaves(r: Room, s: Snapshot)
    ensures var n := TryCommit(r, s); n.refresh == r.refresh && n.op == r.op && n.admitted == r.admitted
  {
  }

  lemma RefreshMoves(r: Room, step: Step)
    requires Enabled(r, step)
    ensures !IsRefreshStep(step) ==> Next(r, step).refresh == r.refresh
    ensures IsRefreshStep(step) ==> RefreshStage(Next(r, step).refresh, Some(step))
    ensures Next(r, step).admitted ==
      if step.RefreshStart? || step.RefreshEnd? then false
      else if step.Leave? then r.op.Some? && r.op.value.phase.Processed?
      else r.admitted
  {
    hide Hold, HoldAll, Lookup, TryCommit, Admissible, AdmitTimeline, QueuedForTimeline, HoldsBack;
    match step {
      case Live(s) => CommitLeaves(r, s);
      case Process => CommitLeaves(r, r.op.value.phase.snapshot);
      case Post(i) => CommitLeaves(r.(posted := Removed(r.posted, i)), r.posted[i]);
      case Admit => AdmitLeaves(r, r.op.value.phase.latest.value);
      case _ =>
    }
  }

  lemma OpMoves(r: Room, step: Step)
    requires Enabled(r, step)
    ensures !IsOpStep(step) ==> Next(r, step).op == r.op
    ensures IsOpStep(step) ==> OpStage(Next(r, step).op, Some(step))
    ensures Next(r, step).op.Some? ==>
      if step.OpenStart? then Next(r, step).op.value.kind.Opening?
      else if step.Visit? then Next(r, step).op.value.kind.Reopening?
      else r.op.Some? && Next(r, step).op.value.kind == r.op.value.kind
  {
    hide Hold, HoldAll, Lookup, TryCommit, Admissible, AdmitTimeline, QueuedForTimeline, HoldsBack;
    match step {
      case Live(s) => CommitLeaves(r, s);
      case Process => CommitLeaves(r, r.op.value.phase.snapshot);
      case Post(i) => CommitLeaves(r.(posted := Removed(r.posted, i)), r.posted[i]);
      case Admit => AdmitLeaves(r, r.op.value.phase.latest.value);
      case _ =>
    }
  }

  /** The last steps of a history that goes on. */
  lemma LastsSnoc(before: seq<Step>, step: Step)
    ensures var steps := before + [step];
      && LastRefresh(steps) == (if IsRefreshStep(step) then Some(step) else LastRefresh(before))
      && LastOp(steps) == (if IsOpStep(step) then Some(step) else LastOp(before))
      && LastVisited(steps) == (step.Visit? || (!step.OpenStart? && LastVisited(before)))
      && Brought(steps) == (if step.RefreshStart? || step.RefreshEnd? then false
                            else if step.Leave? then LastOp(before) == Some(Process)
                            else Brought(before))
  {
    var steps := before + [step];
    assert steps[..|steps| - 1] == before && steps[|steps| - 1] == step;
  }

  lemma StepTracks(r: Room, before: seq<Step>, step: Step)
    requires Tracks(r, before) && Enabled(r, step)
    ensures Tracks(Next(r, step), before + [step])
  {
    hide Next, LastRefresh, LastOp, LastVisited, Brought, RefreshStage, IsRefreshStep;
    RefreshMoves(r, step);
    OpMoves(r, step);
    LastsSnoc(before, step);
    LastIsOp(before);
    if step.Leave? {
      Left(r.op, LastOp(before));
    }
  }

  lemma Left(op: Option<Op>, last: Option<Step>)
    requires OpStage(op, last) && op.Some? && (last.Some? ==> IsOpStep(last.value))
    ensures op.value.phase.Processed? <==> last == Some(Process)
  {
  }

  lemma AdmitLeaves(r: Room, s: Snapshot)
    ensures var n := AdmitTimeline(r, s); n.refresh == r.refresh && n.op == r.op && n.admitted == r.admitted
  {
  }

  lemma {:induction false} RunTracks(steps: seq<Step>)
    requires Legal(INITIAL, steps)
    ensures Tracks(After(INITIAL, steps), steps)
    decreases |steps|
  {
    hide Enabled, Next, Legal, After;
    if steps == [] {
      NothingDone();
    } else {
      var before := steps[..|steps| - 1];
      Snoc(INITIAL, steps);
      RunTracks(before);
      StepTracks(After(INITIAL, before), before, steps[|steps| - 1]);
      assert before + [steps[|steps| - 1]] == steps;
    }
  }

  lemma NothingDone()
    ensures Legal(INITIAL, []) && After(INITIAL, []) == INITIAL && Tracks(INITIAL, [])
  {
  }

  // ---------- the order of the stages ----------

  /** A refresh goes through its stages one after the other, and may end from any of them. */
  predicate RefreshOrder(last: Option<Step>, step: Step) {
    match step
    case RefreshStart => last.None? || last.value.RefreshEnd?
    case Retire => last == Some(RefreshStart)
    case Restart => last == Some(Retire)
    case Visit => last == Some(Restart)
    case RefreshEnd => last.Some? && !last.value.RefreshEnd?
    case _ => true
  }

  /** So do an open and the visit of a refresh. */
  predicate OpOrder(last: Option<Step>, visited: bool, step: Step) {
    match step
    case OpenStart => last.None? || last.value.OpenEnd? || last.value.Leave?
    case Visit => last.None? || last.value.OpenEnd? || last.value.Leave?
    case Retire => last.None? || last.value.OpenEnd? || last.value.Leave?
    case Bind => last == Some(OpenStart)
    case Fetch(_) => last.Some? && (last.value.Bind? || last.value.Visit? || last.value.Fetch?)
    case Admit => last.Some? && last.value.Fetch?
    case Process => last == Some(Admit)
    case Catch => last.Some? && !visited && (last.value.Bind? || last.value.Fetch? || last.value.Admit? || last.value.Process?)
    case OpenEnd(ok) =>
      && last.Some? && !visited
      && (if ok then last.value.Process? else last.value.OpenStart? || last.value.Bind? || last.value.Admit? || last.value.Catch?)
    case Leave => last.Some? && visited && !last.value.Leave? && !last.value.OpenEnd?
    case RefreshEnd => last.None? || last.value.OpenEnd? || last.value.Leave? || !visited
    case _ => true
  }

  /** An open does not start behind the fence of a refresh. */
  predicate Apart(last: Option<Step>, step: Step) {
    step.OpenStart? ==> last.None? || last.value.RefreshStart? || last.value.RefreshEnd?
  }

  lemma StepInOrder(r: Room, before: seq<Step>, step: Step)
    requires Tracks(r, before) && Enabled(r, step)
    ensures RefreshOrder(LastRefresh(before), step) && OpOrder(LastOp(before), LastVisited(before), step) && Apart(LastRefresh(before), step)
  {
    LastIsRefresh(before);
    LastIsOp(before);
    LastStarts(before);
  }

  lemma {:induction false} LastStarts(steps: seq<Step>)
    ensures LastOp(steps) == Some(Visit) ==> LastVisited(steps)
    ensures LastOp(steps) == Some(OpenStart) ==> !LastVisited(steps)
  {
    if steps != [] {
      LastStarts(steps[..|steps| - 1]);
    }
  }

  lemma {:induction false} LastIsRefresh(steps: seq<Step>)
    ensures LastRefresh(steps).Some? ==> IsRefreshStep(LastRefresh(steps).value)
  {
    if steps != [] {
      LastIsRefresh(steps[..|steps| - 1]);
    }
  }

  lemma {:induction false} LastIsOp(steps: seq<Step>)
    ensures LastOp(steps).Some? ==> IsOpStep(LastOp(steps).value)
  {
    if steps != [] {
      LastIsOp(steps[..|steps| - 1]);
    }
  }

  /** Every step of every run is in the order of its operation and of its refresh; the timelines are retired at one
      point of a refresh, when no operation is under way. */
  lemma {:induction false} StagesInOrder(steps: seq<Step>, i: nat)
    requires Legal(INITIAL, steps) && i < |steps|
    ensures RefreshOrder(LastRefresh(steps[..i]), steps[i]) && OpOrder(LastOp(steps[..i]), LastVisited(steps[..i]), steps[i])
    ensures Apart(LastRefresh(steps[..i]), steps[i])
    decreases |steps|
  {
    hide Enabled, Next, Legal, After, Tracks, RefreshOrder, OpOrder, Apart;
    var before := steps[..|steps| - 1];
    Snoc(INITIAL, steps);
    if i == |steps| - 1 {
      RunTracks(before);
      StepInOrder(After(INITIAL, before), before, steps[i]);
    } else {
      StagesInOrder(before, i);
      assert before[..i] == steps[..i];
    }
  }

  /** A refresh hands its queue over exactly if its visit of the room came to processing the snapshot that it fetched. */
  lemma RefreshBringsIff(steps: seq<Step>)
    requires Legal(INITIAL, steps)
    ensures After(INITIAL, steps).admitted <==> Brought(steps)
  {
    RunTracks(steps);
  }

  // ---------- what the timeline shows ----------

  /** The timeline stands at the last commit of its admission, or at nothing. */
  predicate Shows(r: Room) {
    && (r.timeline.None? ==> r.commits == [] && r.epoch == 0)
    && (r.timeline.Some? ==> r.epoch > 0)
    && (forall i :: 0 <= i < |r.commits| ==> r.commits[i].epoch <= r.epoch)
    && (r.timeline.Some? ==>
          var t := r.timeline.value;
          if r.commits != [] && r.commits[|r.commits| - 1].epoch == r.epoch then
            var last := r.commits[|r.commits| - 1];
            last.snapshot.id == t.id && last.snapshot.revision == Some(t.revision) && last.snapshot.hasMore == Some(t.hasMore)
            && last.revision == t.revision
          else t.revision == -1 && t.hasMore)
  }

  lemma CommitShows(r: Room, s: Snapshot)
    requires Shows(r)
    ensures Shows(TryCommit(r, s))
  {
  }

  lemma AdmitShows(r: Room, s: Snapshot)
    requires Shows(r)
    ensures Shows(AdmitTimeline(r, s))
  {
  }

  lemma SameShown(r: Room, n: Room)
    requires Shows(r) && n.commits == r.commits && n.epoch == r.epoch && SameEntry(r.timeline, n.timeline)
    ensures Shows(n)
  {
  }

  lemma StepShows(r: Room, step: Step)
    requires Shows(r) && Enabled(r, step)
    ensures Shows(Next(r, step))
  {
    hide Shows, Hold, Lookup, TryCommit, Admissible, AdmitTimeline, QueuedForTimeline, HoldsBack;
    match step {
      case Live(s) =>
        CommitShows(r, s);
        SameShown(r, r.(queue := Hold(r.queue, s), held := r.held + [s]));
      case Process =>
        var s := r.op.value.phase.snapshot;
        CommitShows(r, s);
        CommitLeaves(r, s);
        SameShown(TryCommit(r, s), Next(r, step));
      case Post(i) =>
        var rest := r.(posted := Removed(r.posted, i));
        SameShown(r, rest);
        CommitShows(rest, r.posted[i]);
      case Admit =>
        var s := r.op.value.phase.latest.value;
        AdmitShows(r, s);
        AdmitLeaves(r, s);
        SameShown(r, Caught(r));
        SameShown(AdmitTimeline(r, s), At(AdmitTimeline(r, s), Admitted(s)));
      case _ => SameShown(r, Next(r, step));
    }
  }

  /** In every run the revision and the cursor of the timeline are those of the last snapshot that was committed under
      its admission; a timeline without one stands before its first revision, with more history to load. */
  lemma {:induction false} TimelineShowsLast(steps: seq<Step>)
    requires Legal(INITIAL, steps)
    ensures Shows(After(INITIAL, steps))
    decreases |steps|
  {
    hide Enabled, Next, Legal, After, Shows;
    if steps == [] {
      NothingShown();
    } else {
      Snoc(INITIAL, steps);
      TimelineShowsLast(steps[..|steps| - 1]);
      StepShows(After(INITIAL, steps[..|steps| - 1]), steps[|steps| - 1]);
    }
  }

  lemma NothingShown()
    ensures Legal(INITIAL, []) && After(INITIAL, []) == INITIAL && Shows(INITIAL)
  {
  }

  // ---------- one timeline over all its admissions ----------

  /** Later admissions are of later timelines. */
  predicate Named(r: Room) {
    && (forall i :: 0 <= i < |r.commits| ==>
          r.timeline.Some? && r.commits[i].epoch <= r.epoch && r.commits[i].snapshot.id <= r.timeline.value.id
          && (r.commits[i].epoch < r.epoch ==> r.commits[i].snapshot.id < r.timeline.value.id)
          && (r.commits[i].epoch == r.epoch ==> r.commits[i].snapshot.id == r.timeline.value.id))
    && (forall i, j :: 0 <= i < j < |r.commits| && r.commits[i].epoch < r.commits[j].epoch ==> r.commits[i].snapshot.id < r.commits[j].snapshot.id)
  }

  lemma CommitNamed(r: Room, s: Snapshot)
    requires Named(r)
    ensures Named(TryCommit(r, s))
  {
  }

  lemma AdmitNamed(r: Room, s: Snapshot)
    requires Named(r) && (r.timeline.Some? ==> r.timeline.value.id <= s.id)
    ensures Named(AdmitTimeline(r, s))
  {
  }

  lemma SameNamed(r: Room, n: Room)
    requires Named(r) && n.commits == r.commits && n.epoch == r.epoch && SameEntry(r.timeline, n.timeline)
    ensures Named(n)
  {
  }

  lemma StepNamed(r: Room, step: Step)
    requires Named(r) && Ids(r) && Enabled(r, step)
    ensures Named(Next(r, step))
  {
    hide Named, Hold, Lookup, TryCommit, Admissible, AdmitTimeline, QueuedForTimeline, HoldsBack;
    match step {
      case Live(s) =>
        CommitNamed(r, s);
        SameNamed(r, r.(queue := Hold(r.queue, s), held := r.held + [s]));
      case Process =>
        var s := r.op.value.phase.snapshot;
        CommitNamed(r, s);
        CommitLeaves(r, s);
        SameNamed(TryCommit(r, s), Next(r, step));
      case Post(i) =>
        var rest := r.(posted := Removed(r.posted, i));
        SameNamed(r, rest);
        CommitNamed(rest, r.posted[i]);
      case Admit =>
        var s := r.op.value.phase.latest.value;
        AdmitNamed(r, s);
        AdmitLeaves(r, s);
        SameNamed(r, Caught(r));
        SameNamed(AdmitTimeline(r, s), At(AdmitTimeline(r, s), Admitted(s)));
      case _ => SameNamed(r, Next(r, step));
    }
  }

  lemma {:induction false} RunNamed(steps: seq<Step>)
    requires Legal(INITIAL, steps)
    ensures Named(After(INITIAL, steps)) && Inv(After(INITIAL, steps))
    decreases |steps|
  {
    hide Enabled, Next, Legal, After, Named, Inv;
    if steps == [] {
      NothingNamed();
      InitialInv();
    } else {
      Snoc(INITIAL, steps);
      var r := After(INITIAL, steps[..|steps| - 1]);
      RunNamed(steps[..|steps| - 1]);
      IdsOf(r);
      StepNamed(r, steps[|steps| - 1]);
      StepKeeps(r, steps[|steps| - 1]);
    }
  }

  lemma IdsOf(r: Room)
    requires Inv(r)
    ensures Ids(r)
  {
  }

  lemma NothingNamed()
    ensures Legal(INITIAL, []) && After(INITIAL, []) == INITIAL && Named(INITIAL)
  {
  }

  /** Over a whole run the committed revisions of one timeline strictly increase, however often it is opened again. */
  lemma RevisionsIncrease(steps: seq<Step>, i: nat, j: nat)
    requires Legal(INITIAL, steps)
    requires var commits := After(INITIAL, steps).commits; i < j < |commits| && commits[i].snapshot.id == commits[j].snapshot.id
    ensures var commits := After(INITIAL, steps).commits; commits[i].revision < commits[j].revision
  {
    hide Legal, After;
    RunNamed(steps);
    CommitsIncrease(steps);
    assert Earlier(After(INITIAL, steps).commits[i], After(INITIAL, steps).commits[j]);
  }

  // ---------- which rooms are known ----------

  predicate Known(r: Room) {
    && (r.known <==> r.timeline.Some? || (r.op.Some? && r.op.value.kind.Opening? && r.op.value.phase.Fetching?))
    && Working(r)
  }

  lemma StepKnown(r: Room, step: Step)
    requires Known(r) && Enabled(r, step)
    ensures Known(Next(r, step))
  {
    hide HoldAll, Hold, Lookup, TryCommit, Admissible, AdmitTimeline, Working, QueuedForTimeline, HoldsBack;
    StepWorking(r, step);
    match step {
      case Live(s) => SameTimeline(r, s);
      case Process => SameTimeline(r, r.op.value.phase.snapshot);
      case Post(i) => SameTimeline(r.(posted := Removed(r.posted, i)), r.posted[i]);
      case Admit => SameAdmission(r, r.op.value.phase.latest.value); ReopensKnown(r);
      case Catch => CatchKnown(r);
      case Visit => VisitKnown(r);
      case Leave => ReopensKnown(r);
      case OpenEnd(_) => EndKnown(r);
      case Bind => BindKnown(r);
      case Fetch(_) => ReopensKnown(r);
      case _ => OthersKnown(r, step);
    }
  }

  lemma BindKnown(r: Room)
    requires Known(r) && Enabled(r, Bind)
    ensures Known(Next(r, Bind))
  {
  }

  lemma OthersKnown(r: Room, step: Step)
    requires Known(r) && Enabled(r, step)
    requires step.OpenStart? || step.RefreshStart? || step.Retire? || step.Restart? || step.RefreshEnd? || step.Flush?
          || step.NativeOpen? || step.NativeClose? || step.Elsewhere? || step.Release?
    ensures Known(Next(r, step))
  {
    hide HoldAll, Hold, Lookup, QueuedForTimeline, Working;
    StepWorking(r, step);
  }

  lemma ReopensKnown(r: Room)
    requires Known(r) && r.op.Some?
    ensures r.op.value.kind.Reopening? || r.op.value.phase.Fetching? ==> r.known
    ensures r.op.value.kind.Reopening? ==> r.timeline.Some?
  {
  }

  lemma CatchKnown(r: Room)
    requires Known(r) && Enabled(r, Catch)
    ensures Known(Next(r, Catch))
  {
  }

  lemma VisitKnown(r: Room)
    requires Known(r) && Enabled(r, Visit)
    ensures Known(Next(r, Visit))
  {
  }

  lemma EndKnown(r: Room)
    requires Known(r) && r.op.Some?
    ensures r.op.value.phase.Processed? ==> r.timeline.Some?
  {
  }

  /** In every run a room is known exactly while it has a timeline, or while an open waits for its first one: a failed
      open leaves no room behind that never had a timeline. */
  lemma {:induction false} KnownExact(steps: seq<Step>)
    requires Legal(INITIAL, steps)
    ensures Known(After(INITIAL, steps))
    decreases |steps|
  {
    hide Enabled, Next, Legal, After, Known;
    if steps == [] {
      NothingKnown();
    } else {
      Snoc(INITIAL, steps);
      KnownExact(steps[..|steps| - 1]);
      StepKnown(After(INITIAL, steps[..|steps| - 1]), steps[|steps| - 1]);
    }
  }

  lemma NothingKnown()
    ensures Legal(INITIAL, []) && After(INITIAL, []) == INITIAL && Known(INITIAL)
  {
  }

  // ---------- the fence ----------

  lemma {:induction false} Split(r: Room, steps: seq<Step>, i: nat)
    requires Legal(r, steps) && i <= |steps|
    ensures Legal(r, steps[..i]) && Legal(After(r, steps[..i]), steps[i..])
    ensures After(r, steps) == After(After(r, steps[..i]), steps[i..])
    decreases i
  {
    hide Enabled, Next;
    if i == 0 {
      assert steps[..0] == [] && steps[0..] == steps;
    } else {
      Split(Next(r, steps[0]), steps[1..], i - 1);
      assert steps[..i][1..] == steps[1..][..i - 1] && steps[1..][i - 1..] == steps[i..];
    }
  }

  /** Wherever a refresh retires the timeline in a run, nothing of that timeline is committed in the rest of the run. */
  lemma RetireFences(steps: seq<Step>, i: nat, k: nat)
    requires Legal(INITIAL, steps) && i < |steps| && steps[i] == Retire
    requires Legal(INITIAL, steps[..i]) && After(INITIAL, steps[..i]).timeline.Some?
    requires |After(INITIAL, steps[..i]).commits| <= k < |After(INITIAL, steps).commits|
    ensures After(INITIAL, steps).commits[k].snapshot.id != After(INITIAL, steps[..i]).timeline.value.id
  {
    hide Inv, Legal, After;
    Split(INITIAL, steps, i);
    InitialInv();
    RunKeeps(INITIAL, steps[..i]);
    var r, rest := After(INITIAL, steps[..i]), steps[i..];
    First(r, rest);
    StepKeeps(r, Retire);
    var n := Next(r, Retire);
    RetiredNeverCommits(n, rest[1..]);
  }

  lemma First(r: Room, steps: seq<Step>)
    requires Legal(r, steps) && steps != []
    ensures Enabled(r, steps[0]) && Legal(Next(r, steps[0]), steps[1..]) && After(r, steps) == After(Next(r, steps[0]), steps[1..])
  {
    hide Enabled, Next;
  }

  /** Live snapshots, the native side and a closing of the handle may come in at any moment. */
  lemma Interrupted(r: Room, s: Snapshot, ids: nat)
    ensures Enabled(r, Live(s)) && Enabled(r, NativeOpen) && Enabled(r, NativeClose) && Enabled(r, Elsewhere(ids)) && Enabled(r, Release)
    ensures !Next(r, Release).active && Next(r, NativeClose).live.None? && Next(r, NativeOpen).live.Some?
  {
  }

  /** A released handle starts no open, no refresh and no fence; an active one may always start a refresh if none runs. */
  lemma {:induction false} ReleasedStartsNothing(r: Room, steps: seq<Step>, i: nat)
    requires Legal(r, steps) && i < |steps|
    ensures !r.active ==> !steps[i].OpenStart? && !steps[i].RefreshStart? && !steps[i].Retire?
    ensures r.active && r.refresh.None? ==> Enabled(r, RefreshStart)
    decreases |steps|
  {
    hide Next;
    if !r.active && i > 0 {
      ReleasedStep(r, steps[0]);
      ReleasedStartsNothing(Next(r, steps[0]), steps[1..], i - 1);
    }
  }

  /** An open can always fail and end. */
  lemma OpenCanFail(r: Room) returns (steps: seq<Step>)
    requires r.op.Some? && r.op.value.kind.Opening?
    ensures Legal(r, steps) && steps != [] && steps[|steps| - 1] == OpenEnd(false) && After(r, steps).op.None?
  {
    hide QueuedForTimeline;
    if r.op.value.phase.Binding? || r.op.value.phase.Failed? {
      Done(Next(r, OpenEnd(false)));
      Chain(r, OpenEnd(false), []);
      steps := [OpenEnd(false)] + [];
    } else {
      var n := Next(r, Catch);
      Done(Next(n, OpenEnd(false)));
      Chain(n, OpenEnd(false), []);
      Chain(r, Catch, [OpenEnd(false)] + []);
      steps := [Catch] + ([OpenEnd(false)] + []);
    }
  }

  // ---------- operations can succeed ----------

  predicate Wellformed(s: Snapshot) { s.revision.Some? && s.revision.value >= 0 && s.hasMore.Some? }

  lemma Chain(r: Room, step: Step, steps: seq<Step>)
    requires Enabled(r, step) && Legal(Next(r, step), steps)
    ensures Legal(r, [step] + steps) && After(r, [step] + steps) == After(Next(r, step), steps)
  {
    hide Enabled, Next;
    assert ([step] + steps)[1..] == steps;
  }

  lemma Done(r: Room)
    ensures Legal(r, []) && After(r, []) == r
  {
  }

  /** An operation that fetches `s` can admit and process it. */
  lemma Brings(r: Room, s: Snapshot) returns (n: Room)
    requires r.active && r.known && r.op.Some? && r.op.value.phase == Fetching(None) && s.id == NativeId(r) && Wellformed(s)
    requires r.timeline.Some? ==> r.timeline.value.id != s.id || !r.timeline.value.retired
    ensures var steps := [Fetch(s)] + ([Admit] + ([Process] + [])); Legal(r, steps) && After(r, steps) == n
    ensures n.op == Some(Op(r.op.value.kind, Processed(s))) && n.active && n.known && n.refresh == r.refresh
    ensures n.queue == r.queue && n.flushes == r.flushes
    ensures n.timeline.Some? && n.timeline.value.id == s.id && !n.timeline.value.retired && n.timeline.value.revision >= s.revision.value
    ensures r.timeline.None? || r.timeline.value.id != s.id ==>
      n.timeline.value == Timeline(s.id, s.revision.value, s.hasMore.value, false)
      && n.commits == r.commits + [Commit(r.epoch + 1, s.revision.value, s)]
  {
    var r1 := Next(r, Fetch(s));
    var r2 := Next(r1, Admit);
    n := Next(r2, Process);
    Done(n);
    Chain(r2, Process, []);
    Chain(r1, Admit, [Process] + []);
    Chain(r, Fetch(s), [Admit] + ([Process] + []));
  }

  lemma Joined(r: Room, first: seq<Step>, second: seq<Step>)
    requires Legal(r, first) && Legal(After(r, first), second)
    ensures Legal(r, first + second) && After(r, first + second) == After(After(r, first), second)
    decreases |first|
  {
    hide Enabled, Next;
    if first == [] {
      assert first + second == second;
    } else {
      Joined(Next(r, first[0]), first[1..], second);
      assert (first + second)[1..] == first[1..] + second;
    }
  }

  /** Whenever the handle is active and neither an open nor the fence of a refresh is in the way, an open can succeed with
      any well-formed snapshot of the native timeline, unless that is the retired one, and then shows at least its revision. */
  lemma OpenCanSucceed(r: Room, s: Snapshot) returns (steps: seq<Step>)
    requires r.active && r.op.None? && (r.refresh.None? || r.refresh == Some(Early)) && s.id == NativeId(r) && Wellformed(s)
    requires r.timeline.Some? ==> r.timeline.value.id != s.id || !r.timeline.value.retired
    ensures Legal(r, steps) && steps != [] && steps[|steps| - 1] == OpenEnd(true)
    ensures var n := After(r, steps);
      && n.known && n.op.None? && n.timeline.Some? && n.timeline.value.id == s.id && !n.timeline.value.retired
      && n.timeline.value.revision >= s.revision.value
  {
    var r1 := Next(r, OpenStart);
    var r2 := Next(r1, Bind);
    var n := Brings(r2, s);
    var middle := [Fetch(s)] + ([Admit] + ([Process] + []));
    Done(Next(n, OpenEnd(true)));
    Chain(n, OpenEnd(true), []);
    Joined(r2, middle, [OpenEnd(true)] + []);
    Chain(r1, Bind, middle + ([OpenEnd(true)] + []));
    Chain(r, OpenStart, [Bind] + (middle + ([OpenEnd(true)] + [])));
    steps := [OpenStart] + ([Bind] + (middle + ([OpenEnd(true)] + [])));
  }

  /** A refresh can bring a known room back: the restarted native side opens a timeline with a new id, and whatever
      well-formed snapshot it has is committed. */
  lemma RefreshCanSucceed(r: Room, s: Snapshot) returns (steps: seq<Step>)
    requires Inv(r) && r.active && r.known && r.op.None? && r.refresh.None? && s.id == r.nextId && Wellformed(s)
    ensures Legal(r, steps) && steps != [] && steps[|steps| - 1] == RefreshEnd
    ensures var n := After(r, steps);
      && n.refresh.None? && n.timeline == Some(Timeline(s.id, s.revision.value, s.hasMore.value, false))
      && n.commits == r.commits + [Commit(r.epoch + 1, s.revision.value, s)] && n.flushes == r.flushes + [r.queue]
  {
    hide Inv, Legal, After, Next, Enabled;
    var r4 := Visits(r, s);
    var n := Brings(r4, s);
    var middle := [Fetch(s)] + ([Admit] + ([Process] + []));
    var end, n2 := Leaves(n);
    Joined(r4, middle, end);
    var start := [RefreshStart] + ([Retire] + ([Restart] + ([Visit] + [])));
    Joined(r, start, middle + end);
    steps := start + (middle + end);
    assert steps[|steps| - 1] == end[|end| - 1];
  }

  /** Up to the visit: the native side has no timeline any more, and the client none that counts. */
  lemma Visits(r: Room, s: Snapshot) returns (n: Room)
    requires Inv(r) && r.active && r.known && r.op.None? && r.refresh.None? && s.id == r.nextId
    ensures var steps := [RefreshStart] + ([Retire] + ([Restart] + ([Visit] + []))); Legal(r, steps) && After(r, steps) == n
    ensures n.active && n.known && n.refresh == Some(Restarted(true)) && n.op == Some(Op(Reopening, Fetching(None)))
    ensures s.id == NativeId(n) && (n.timeline.Some? ==> n.timeline.value.id != s.id)
    ensures n.epoch == r.epoch && n.commits == r.commits && n.queue == r.queue && n.flushes == r.flushes
  {
    hide HoldAll, Increasing, Covered;
    var r1 := Next(r, RefreshStart);
    var r2 := Next(r1, Retire);
    var r3 := Next(r2, Restart);
    n := Next(r3, Visit);
    Done(n);
    Chain(r3, Visit, []);
    Chain(r2, Restart, [Visit] + []);
    Chain(r1, Retire, [Restart] + ([Visit] + []));
    Chain(r, RefreshStart, [Retire] + ([Restart] + ([Visit] + [])));
  }

  lemma Leaves(r: Room) returns (steps: seq<Step>, n: Room)
    requires r.op.Some? && r.op.value.kind.Reopening? && r.op.value.phase.Processed? && r.refresh.Some?
    ensures steps == [Leave] + ([RefreshEnd] + []) && Legal(r, steps) && After(r, steps) == n
    ensures n.refresh.None? && n.timeline == r.timeline && n.commits == r.commits && n.flushes == r.flushes + [r.queue]
  {
    var n1 := Next(r, Leave);
    n := Next(n1, RefreshEnd);
    Done(n);
    Chain(n1, RefreshEnd, []);
    Chain(r, Leave, [RefreshEnd] + []);
    steps := [Leave] + ([RefreshEnd] + []);
  }
}
