/** Listeners, stale batches and shutdown: what every run of the native mirror keeps. */
module MirrorRuns {
  import opened TimelineMirror

  // ---------- what the source means by a diff ----------

  /** A diff turns `v` into `w`, position by position. */
  ghost predicate Turns<T(!new)>(v: seq<T>, d: Diff<T>, w: seq<T>) {
    match d
    case Append(values) =>
      && |w| == |v| + |values| && (forall k :: 0 <= k < |v| ==> w[k] == v[k])
      && forall k :: 0 <= k < |values| ==> w[|v| + k] == values[k]
    case Clear => |w| == 0
    case PushFront(value) => |w| == |v| + 1 && w[0] == value && forall k :: 0 <= k < |v| ==> w[k + 1] == v[k]
    case PushBack(value) => |w| == |v| + 1 && w[|v|] == value && forall k :: 0 <= k < |v| ==> w[k] == v[k]
    case PopFront => |v| == |w| + 1 && forall k :: 0 <= k < |w| ==> w[k] == v[k + 1]
    case PopBack => |v| == |w| + 1 && forall k :: 0 <= k < |w| ==> w[k] == v[k]
    case Insert(index, value) =>
      && index <= |v| && |w| == |v| + 1 && w[index] == value
      && (forall k :: 0 <= k < index ==> w[k] == v[k]) && forall k :: index <= k < |v| ==> w[k + 1] == v[k]
    case Replace(index, value) =>
      index < |v| && |w| == |v| && forall k :: 0 <= k < |v| ==> w[k] == if k == index then value else v[k]
    case Remove(index) =>
      && index < |v| && |v| == |w| + 1
      && (forall k :: 0 <= k < index ==> w[k] == v[k]) && forall k :: index <= k < |w| ==> w[k] == v[k + 1]
    case Truncate(length) => |w| == length <= |v| && forall k :: 0 <= k < |w| ==> w[k] == v[k]
    case Reset(values) => |w| == |values| && forall k :: 0 <= k < |w| ==> w[k] == values[k]
  }

  /** The diffs that have a meaning on `v`. */
  predicate InRange<T>(v: seq<T>, d: Diff<T>) {
    match d
    case PopFront => |v| > 0
    case PopBack => |v| > 0
    case Insert(index, _) => index <= |v|
    case Replace(index, _) => index < |v|
    case Remove(index) => index < |v|
    case Truncate(length) => length <= |v|
    case _ => true
  }

  /** The mirror applies every meaningful diff exactly, and ignores the others. */
  lemma DiffExact<T(!new)>(v: seq<T>, d: Diff<T>, w: seq<T>)
    ensures Turns(v, d, w) <==> InRange(v, d) && w == ApplyDiff(v, d)
    ensures !InRange(v, d) ==> ApplyDiff(v, d) == v
  {
  }

  // ---------- the world around the mirror ----------

  /** The deliveries of one subscription: a reset to the vector at `start`, then every later batch in order. */
  datatype Stream = Stream(start: nat, delivered: nat)

  datatype Sent<+T> = Sent(report: Report<T>, live: bool)

  /** The mirror, the source vectors with the batches between them, and the subscriptions by generation.
      `shown` keeps the items of each revision, `sent` the snapshots handed to the client, and `pagers` counts
      the calls of paginateRoom that are loading a page. */
  datatype World<T> = World(mirror: Mirror<T>, history: seq<seq<T>>, batches: seq<seq<Diff<T>>>,
                            streams: map<nat, Stream>, shown: seq<seq<T>>, sent: seq<Sent<T>>, pagers: nat)

  datatype Step<T> =
    | Publish(diffs: seq<Diff<T>>, path: seq<seq<T>>)
    | Begin
    | Subscribe(generation: nat)
    | Deliver(generation: nat)
    | Send
    | Shutdown
    | Start(reached: bool)
    | BeginPage
    | EndPage

  ghost predicate Path<T(!new)>(v: seq<T>, ds: seq<Diff<T>>, path: seq<seq<T>>) {
    |path| == |ds| + 1 && path[0] == v && forall i :: 0 <= i < |ds| ==> Turns(path[i], ds[i], path[i + 1])
  }

  predicate HasNext<T>(w: World<T>, generation: nat) {
    generation in w.streams && w.streams[generation].start + w.streams[generation].delivered < |w.history|
  }

  function NextBatch<T>(w: World<T>, generation: nat): seq<Diff<T>>
    requires HasNext(w, generation) && |w.batches| + 1 == |w.history|
  {
    var s := w.streams[generation];
    if s.delivered == 0 then [Reset(w.history[s.start])] else w.batches[s.start + s.delivered - 1]
  }

  ghost predicate Enabled<T(!new)>(w: World<T>, step: Step<T>) {
    && |w.history| > 0 && |w.batches| + 1 == |w.history|
    && match step
       case Publish(diffs, path) => Path(w.history[|w.history| - 1], diffs, path)
       case Subscribe(generation) => 0 < generation <= w.mirror.generation && generation !in w.streams
       case Deliver(generation) => HasNext(w, generation)
       case EndPage => w.pagers > 0
       case _ => true
  }

  ghost function Next<T(!new)>(w: World<T>, step: Step<T>): World<T>
    requires Enabled(w, step)
  {
    match step
    case Publish(diffs, path) => w.(history := w.history + [path[|diffs|]], batches := w.batches + [diffs])
    case Begin => w.(mirror := Begun(w.mirror))
    case Subscribe(generation) => w.(streams := w.streams[generation := Stream(|w.history| - 1, 0)])
    case Deliver(generation) =>
      var s := w.streams[generation];
      var mirror := Applied(w.mirror, NextBatch(w, generation), generation);
      w.(mirror := mirror, streams := w.streams[generation := s.(delivered := s.delivered + 1)],
         shown := if Current(w.mirror, generation) then w.shown + [mirror.items] else w.shown)
    case Send => w.(sent := w.sent + [Sent(Snapshot(w.mirror), w.mirror.active)])
    case Shutdown => w.(mirror := Deactivated(w.mirror))
    case Start(reached) => w.(mirror := ReachedStart(w.mirror, reached))
    case BeginPage =>
      if PageAllowed(w.mirror) then w.(mirror := w.mirror.(paginating := true), pagers := w.pagers + 1) else w
    case EndPage => w.(mirror := w.mirror.(paginating := false), pagers := w.pagers - 1)
  }

  ghost predicate Legal<T(!new)>(w: World<T>, steps: seq<Step<T>>)
    decreases |steps|
  {
    steps == [] || (Enabled(w, steps[0]) && Legal(Next(w, steps[0]), steps[1..]))
  }

  ghost function After<T(!new)>(w: World<T>, steps: seq<Step<T>>): World<T>
    requires Legal(w, steps)
    decreases |steps|
  {
    if steps == [] then w else After(Next(w, steps[0]), steps[1..])
  }

  function Initial<T>(v: seq<T>): World<T> {
    World(Fresh(), [v], [], map[], [[]], [], 0)
  }

  // ---------- the invariant ----------

  /** The current subscription has delivered its reset. */
  predicate Mirrored<T>(w: World<T>) {
    w.mirror.active && w.mirror.generation in w.streams && w.streams[w.mirror.generation].delivered > 0
  }

  /** How far the current subscription has come in the history of the source. */
  function Position<T>(w: World<T>): int
    requires Mirrored(w)
  {
    var s := w.streams[w.mirror.generation];
    s.start + s.delivered - 1
  }

  predicate Chained<T(==)>(w: World<T>) {
    && |w.history| > 0 && |w.batches| + 1 == |w.history|
    && forall i :: 0 <= i < |w.batches| ==> ApplyAll(w.history[i], w.batches[i]) == w.history[i + 1]
  }

  predicate Streaming<T>(w: World<T>) {
    forall g :: g in w.streams ==>
      g <= w.mirror.generation && w.streams[g].start < |w.history| && w.streams[g].start + w.streams[g].delivered <= |w.history|
  }

  predicate Consistent<T(==)>(w: World<T>) {
    && |w.shown| == w.mirror.revision + 1
    && (if w.mirror.active then w.mirror.items == w.shown[w.mirror.revision] else w.mirror.items == [])
  }

  predicate Truthful<T(==)>(w: World<T>, s: Sent<T>) {
    && s.report.revision < |w.shown|
    && s.report.items == if s.live then w.shown[s.report.revision] else []
  }

  predicate Inv<T(==)>(w: World<T>) {
    && Chained(w) && Streaming(w) && Consistent(w)
    && (Mirrored(w) ==> w.mirror.items == w.history[Position(w)])
    && forall i :: 0 <= i < |w.sent| ==> Truthful(w, w.sent[i])
  }

  lemma {:induction false} PathApplies<T(!new)>(v: seq<T>, ds: seq<Diff<T>>, path: seq<seq<T>>)
    requires Path(v, ds, path)
    ensures ApplyAll(v, ds) == path[|ds|]
    decreases |ds|
  {
    hide Turns, ApplyDiff;
    if ds != [] {
      DiffExact(v, ds[0], path[1]);
      forall i | 0 <= i < |ds[1..]|
        ensures Turns(path[1..][i], ds[1..][i], path[1..][i + 1])
      {
        assert Turns(path[i + 1], ds[i + 1], path[i + 2]);
      }
      PathApplies(path[1], ds[1..], path[1..]);
    }
  }

  lemma ResetApplies<T>(v: seq<T>, values: seq<T>)
    ensures ApplyAll(v, [Reset(values)]) == values
  {
    assert ApplyAll(values, []) == values;
    assert [Reset(values)][1..] == [];
  }

  lemma PublishKeeps<T(!new)>(w: World<T>, diffs: seq<Diff<T>>, path: seq<seq<T>>)
    requires Inv(w) && Enabled(w, Publish(diffs, path))
    ensures Inv(Next(w, Publish(diffs, path)))
  {
    hide ApplyAll, Path;
    var last := w.history[|w.history| - 1];
    PathShape(last, diffs, path);
    PathApplies(last, diffs, path);
    var n := Next(w, Publish(diffs, path));
    assert forall i :: 0 <= i < |w.sent| ==> Truthful(w, w.sent[i]) ==> Truthful(n, n.sent[i]);
  }

  lemma PathShape<T(!new)>(v: seq<T>, diffs: seq<Diff<T>>, path: seq<seq<T>>)
    requires Path(v, diffs, path)
    ensures |path| == |diffs| + 1
  {
  }

  lemma DeliverKeeps<T(!new)>(w: World<T>, g: nat)
    requires Inv(w) && Enabled(w, Deliver(g))
    ensures Inv(Next(w, Deliver(g)))
  {
    hide ApplyAll;
    var n := Next(w, Deliver(g));
    var s := w.streams[g];
    if Current(w.mirror, g) {
      if s.delivered == 0 {
        ResetApplies(w.mirror.items, w.history[s.start]);
      } else {
        assert Mirrored(w);
      }
    }
    assert forall i :: 0 <= i < |w.sent| ==> Truthful(w, w.sent[i]) ==> Truthful(n, n.sent[i]);
  }

  lemma StepKeeps<T(!new)>(w: World<T>, step: Step<T>)
    requires Inv(w) && Enabled(w, step)
    ensures Inv(Next(w, step))
  {
    hide ApplyAll, Path, Turns;
    match step {
      case Publish(diffs, path) => PublishKeeps(w, diffs, path);
      case Deliver(g) => DeliverKeeps(w, g);
      case _ =>
        var n := Next(w, step);
        assert forall i :: 0 <= i < |w.sent| ==> Truthful(w, w.sent[i]) ==> Truthful(n, n.sent[i]);
    }
  }

  lemma {:induction false} RunKeeps<T(!new)>(w: World<T>, steps: seq<Step<T>>)
    requires Inv(w) && Legal(w, steps)
    ensures Inv(After(w, steps))
    decreases |steps|
  {
    hide Inv, Enabled, Next;
    if steps != [] {
      StepKeeps(w, steps[0]);
      RunKeeps(Next(w, steps[0]), steps[1..]);
    }
  }

  lemma InitialInv<T>(v: seq<T>)
    ensures Inv(Initial(v))
  {
  }

  // ---------- the theorems ----------

  /** Once the reset of the current listener is in, the mirror is the source vector after the last accepted
      batch, and the newest source vector as soon as nothing is left to deliver. */
  lemma MirrorRefinesSource<T(!new)>(v: seq<T>, steps: seq<Step<T>>)
    requires Legal(Initial(v), steps) && Mirrored(After(Initial(v), steps))
    ensures var w := After(Initial(v), steps);
      && 0 <= Position(w) < |w.history| && w.mirror.items == w.history[Position(w)]
      && (!HasNext(w, w.mirror.generation) ==> w.mirror.items == w.history[|w.history| - 1])
  {
    InitialInv(v);
    RunKeeps(Initial(v), steps);
  }

  /** The batches of a run that the mirror accepts. */
  ghost function AcceptedIn<T(!new)>(w: World<T>, steps: seq<Step<T>>): nat
    requires Legal(w, steps)
    decreases |steps|
  {
    if steps == [] then 0
    else (if steps[0].Deliver? && Current(w.mirror, steps[0].generation) then 1 else 0) + AcceptedIn(Next(w, steps[0]), steps[1..])
  }

  lemma {:induction false} RevisionCountsBatches<T(!new)>(w: World<T>, steps: seq<Step<T>>)
    requires Legal(w, steps)
    ensures After(w, steps).mirror.revision == w.mirror.revision + AcceptedIn(w, steps)
    decreases |steps|
  {
    hide ApplyAll, Path;
    if steps != [] {
      RevisionCountsBatches(Next(w, steps[0]), steps[1..]);
    }
  }

  /** After beginListener nothing from an older subscription changes what is shown. */
  lemma {:induction false} RetiredStreamsAreFenced<T(!new)>(w: World<T>, generation: nat, steps: seq<Step<T>>)
    requires Legal(w, steps) && w.mirror.generation >= generation
    requires forall i :: 0 <= i < |steps| ==> !steps[i].Shutdown? && (steps[i].Deliver? ==> steps[i].generation < generation)
    ensures After(w, steps).mirror.items == w.mirror.items && After(w, steps).mirror.revision == w.mirror.revision
    decreases |steps|
  {
    hide ApplyAll, Path;
    if steps != [] {
      RetiredStreamsAreFenced(Next(w, steps[0]), generation, steps[1..]);
    }
  }

  /** A deactivated mirror stays empty, at one revision and one cursor, whatever is still delivered. */
  lemma {:induction false} DeactivatedForever<T(!new)>(w: World<T>, steps: seq<Step<T>>)
    requires Legal(w, steps) && !w.mirror.active && w.mirror.items == []
    ensures var m := After(w, steps).mirror;
      !m.active && m.items == [] && m.revision == w.mirror.revision && m.hasMore == w.mirror.hasMore
    decreases |steps|
  {
    hide ApplyAll, Path;
    if steps != [] {
      DeactivatedForever(Next(w, steps[0]), steps[1..]);
    }
  }

  /** At most one page is loading, in every state of every run. */
  lemma {:induction false} OnePageAtATime<T(!new)>(w: World<T>, steps: seq<Step<T>>)
    requires Legal(w, steps) && w.pagers == (if w.mirror.paginating then 1 else 0)
    ensures var n := After(w, steps); n.pagers == (if n.mirror.paginating then 1 else 0)
    decreases |steps|
  {
    hide ApplyAll, Path;
    if steps != [] {
      OnePageAtATime(Next(w, steps[0]), steps[1..]);
    }
  }

  /** Live snapshots of one revision show the same items, at any distance in a run. */
  lemma LiveReportsAgree<T(!new)>(v: seq<T>, steps: seq<Step<T>>, i: nat, j: nat)
    requires Legal(Initial(v), steps)
    requires var sent := After(Initial(v), steps).sent;
      i < |sent| && j < |sent| && sent[i].live && sent[j].live && sent[i].report.revision == sent[j].report.revision
    ensures var sent := After(Initial(v), steps).sent;
      sent[i].report.items == sent[j].report.items
  {
    InitialInv(v);
    RunKeeps(Initial(v), steps);
    var w := After(Initial(v), steps);
    assert Truthful(w, w.sent[i]) && Truthful(w, w.sent[j]);
  }

  /** Any two snapshots of one revision show the same items if and only if both or neither were taken while active,
      or that revision has no items at all. */
  lemma ReportsAgreeIff<T(!new)>(v: seq<T>, steps: seq<Step<T>>, i: nat, j: nat)
    requires Legal(Initial(v), steps)
    requires var sent := After(Initial(v), steps).sent;
      i < |sent| && j < |sent| && sent[i].report.revision == sent[j].report.revision
    ensures var w := After(Initial(v), steps);
      && w.sent[i].report.revision < |w.shown|
      && (w.sent[i].report.items == w.sent[j].report.items
          <==> w.sent[i].live == w.sent[j].live || w.shown[w.sent[i].report.revision] == [])
  {
    hide Next, Enabled;
    InitialInv(v);
    RunKeeps(Initial(v), steps);
    var w := After(Initial(v), steps);
    assert Truthful(w, w.sent[i]) && Truthful(w, w.sent[j]);
  }

  lemma {:induction false} Extend<T(!new)>(w: World<T>, steps: seq<Step<T>>, step: Step<T>)
    requires Legal(w, steps) && Enabled(After(w, steps), step)
    ensures Legal(w, steps + [step]) && After(w, steps + [step]) == Next(After(w, steps), step)
    decreases |steps|
  {
    hide Enabled, Next;
    if steps == [] {
      assert [] + [step] == [step] && [step][1..] == [];
    } else {
      Extend(Next(w, steps[0]), steps[1..], step);
      assert (steps + [step])[1..] == steps[1..] + [step];
    }
  }

  lemma LegalNothing<T(!new)>(w: World<T>)
    ensures Legal(w, []) && After(w, []) == w
  {
  }

  /** The mirror of a room with one item, after its reset. */
  function Showing<T>(x: T): World<T> {
    World(Mirror(true, [x], 1, 1, true, false), [[x]], [], map[1 := Stream(0, 1)], [[], [x]], [], 0)
  }

  lemma Shows<T(!new)>(x: T)
    ensures var steps := [] + [Begin] + [Subscribe(1)] + [Deliver(1)];
      Legal(Initial([x]), steps) && After(Initial([x]), steps) == Showing(x)
  {
    hide Legal, After;
    var w0 := Initial([x]);
    LegalNothing(w0);
    Extend(w0, [], Begin);
    Extend(w0, [] + [Begin], Subscribe(1));
    ResetApplies([], [x]);
    Extend(w0, [] + [Begin] + [Subscribe(1)], Deliver(1));
  }

  /** The exception: apply and snapshot lock separately, so a shutdown between them reports the same revision empty. */
  lemma ShutdownReportsEmpty<T(!new)>(x: T)
    ensures exists steps: seq<Step<T>> ::
      && Legal(Initial([x]), steps)
      && var sent := After(Initial([x]), steps).sent;
         |sent| == 2 && sent[0].report.revision == sent[1].report.revision && sent[0].report.items == [x] && sent[1].report.items == []
  {
    hide Legal, After;
    var w0 := Initial([x]);
    var shown := [] + [Begin] + [Subscribe(1)] + [Deliver(1)];
    Shows(x);
    Extend(w0, shown, Send);
    Extend(w0, shown + [Send], Shutdown);
    Extend(w0, shown + [Send] + [Shutdown], Send);
    var sent := After(w0, shown + [Send] + [Shutdown] + [Send]).sent;
    assert |sent| == 2 && sent[0].report == Report([x], 1, true) && sent[1].report == Report([], 1, true);
  }
}
