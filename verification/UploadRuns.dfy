/** Any schedule of the four workers uploads every part once, and completes with all of them. */
module UploadRuns {
  import opened Wrappers
  import opened UploadPool
  import Ordering

  // ---------- the slices ----------

  function Edge(u: Upload, k: nat): nat { Min(k * u.partSize, u.size) }

  lemma EdgeStep(u: Upload, k: nat)
    ensures Edge(u, k) <= Edge(u, k + 1)
    ensures SliceStart(u, k) == Edge(u, k) && SliceEnd(u, k) == Edge(u, k + 1)
    ensures SliceSize(u, k) == Edge(u, k + 1) - Edge(u, k)
  {
    assert (k + 1) * u.partSize == k * u.partSize + u.partSize;
  }

  lemma {:induction false} EdgeOrder(u: Upload, j: nat, k: nat)
    requires j <= k
    ensures Edge(u, j) <= Edge(u, k)
    decreases k - j
  {
    if j < k {
      EdgeStep(u, j);
      EdgeOrder(u, j + 1, k);
    }
  }

  /** Slices of different parts have no byte in common. */
  lemma SlicesDisjoint(u: Upload, j: nat, k: nat, b: nat)
    requires SliceStart(u, j) <= b < SliceEnd(u, j) && SliceStart(u, k) <= b < SliceEnd(u, k)
    ensures j == k
  {
    EdgeStep(u, j);
    EdgeStep(u, k);
    if j < k {
      EdgeOrder(u, j + 1, k);
    } else if k < j {
      EdgeOrder(u, k + 1, j);
    }
  }

  /** The slice that holds byte `b`, among the first `n`. */
  lemma {:induction false} SliceOf(u: Upload, b: nat, n: nat) returns (k: nat)
    requires b < Edge(u, n)
    ensures k < n && SliceStart(u, k) <= b < SliceEnd(u, k)
  {
    assert n > 0;
    EdgeStep(u, n - 1);
    if Edge(u, n - 1) <= b {
      k := n - 1;
    } else {
      k := SliceOf(u, b, n - 1);
    }
  }

  /** Every byte of the file is in the slice of exactly one part. */
  lemma SlicesTile(u: Upload, b: nat)
    requires Covers(u) && b < u.size
    ensures exists k :: 0 <= k < |u.parts| && SliceStart(u, k) <= b < SliceEnd(u, k)
    ensures forall j, k :: 0 <= j && 0 <= k && SliceStart(u, j) <= b < SliceEnd(u, j) && SliceStart(u, k) <= b < SliceEnd(u, k) ==> j == k
  {
    var k := SliceOf(u, b, |u.parts|);
    forall j: nat, k: nat | SliceStart(u, j) <= b < SliceEnd(u, j) && SliceStart(u, k) <= b < SliceEnd(u, k)
      ensures j == k
    {
      SlicesDisjoint(u, j, k, b);
    }
  }

  predicate InSlice(u: Upload, k: nat, b: nat) { SliceStart(u, k) <= b < SliceEnd(u, k) }

  ghost predicate Sliced(u: Upload, b: nat) { exists k: nat :: k < |u.parts| && InSlice(u, k, b) }

  /** The parts cover the file exactly if each of its bytes is in a slice. */
  lemma CoversIff(u: Upload)
    ensures Covers(u) <==> forall b: nat :: b < u.size ==> Sliced(u, b)
  {
    if Covers(u) {
      forall b: nat | b < u.size
        ensures Sliced(u, b)
      {
        var k := SliceOf(u, b, |u.parts|);
        assert InSlice(u, k, b);
      }
    } else {
      var b: nat := u.size - 1;
      forall k: nat | k < |u.parts|
        ensures !InSlice(u, k, b)
      {
        EdgeStep(u, k);
        EdgeOrder(u, k + 1, |u.parts|);
      }
      assert !Sliced(u, b);
    }
  }

  lemma {:induction false} TotalOfSlices(u: Upload, loaded: seq<nat>)
    requires forall i :: 0 <= i < |loaded| ==> loaded[i] == SliceSize(u, i)
    ensures Total(loaded) == Edge(u, |loaded|)
  {
    if loaded != [] {
      TotalOfSlices(u, loaded[..|loaded| - 1]);
      EdgeStep(u, |loaded| - 1);
    }
  }

  lemma {:induction false} TotalBound(u: Upload, loaded: seq<nat>)
    requires forall i :: 0 <= i < |loaded| ==> loaded[i] <= SliceSize(u, i)
    ensures Total(loaded) <= Edge(u, |loaded|)
  {
    if loaded != [] {
      TotalBound(u, loaded[..|loaded| - 1]);
      EdgeStep(u, |loaded| - 1);
    }
  }

  // ---------- who holds which part ----------

  function NumbersOf(parts: seq<Part>): (r: seq<nat>)
    ensures |r| == |parts| && forall i :: 0 <= i < |parts| ==> r[i] == parts[i].number
  {
    seq(|parts|, i requires 0 <= i < |parts| => parts[i].number)
  }

  function Received(rs: seq<Receipt>): (r: seq<nat>)
    ensures |r| == |rs| && forall i :: 0 <= i < |rs| ==> r[i] == rs[i].number
  {
    seq(|rs|, i requires 0 <= i < |rs| => rs[i].number)
  }

  predicate Holds(w: Worker, n: nat) { w.Sending? && w.part.number == n }

  /** How many workers have part `n` in flight. */
  function Flying(workers: seq<Worker>, n: nat): nat {
    if workers == [] then 0 else (if Holds(workers[0], n) then 1 else 0) + Flying(workers[1..], n)
  }

  lemma {:induction false} FlyingUpdate(workers: seq<Worker>, w: nat, next: Worker, n: nat)
    requires w < |workers|
    ensures Flying(workers[w := next], n) + (if Holds(workers[w], n) then 1 else 0)
         == Flying(workers, n) + (if Holds(next, n) then 1 else 0)
  {
    var changed := workers[w := next];
    if w == 0 {
      assert changed[1..] == workers[1..];
    } else {
      assert changed[1..] == workers[1..][w - 1 := next];
      FlyingUpdate(workers[1..], w - 1, next, n);
    }
  }

  lemma {:induction false} NoneFlying(workers: seq<Worker>, n: nat)
    requires forall i :: 0 <= i < |workers| ==> !workers[i].Sending?
    ensures Flying(workers, n) == 0
  {
    if workers != [] {
      NoneFlying(workers[1..], n);
    }
  }

  lemma {:induction false} FlyingHas(workers: seq<Worker>, w: nat)
    requires w < |workers| && workers[w].Sending?
    ensures Flying(workers, workers[w].part.number) > 0
  {
    if w > 0 {
      FlyingHas(workers[1..], w - 1);
    }
  }

  predicate AnyFailed(workers: seq<Worker>) { exists i :: 0 <= i < |workers| && workers[i].Failed? }

  /** The parts that were received or are in flight are the requested ones, until a worker fails with its part. */
  ghost predicate Accounted(p: Pool) {
    forall n: nat :: Balanced(p, n)
  }

  predicate Balanced(p: Pool, n: nat) {
    var gone := multiset(Received(p.completed))[n] + Flying(p.workers, n);
    gone <= multiset(NumbersOf(p.requests))[n] && (!AnyFailed(p.workers) ==> gone == multiset(NumbersOf(p.requests))[n])
  }

  predicate Measured(u: Upload, p: Pool) {
    && |p.loaded| == |u.parts|
    && forall k :: 0 <= k < |p.completed| ==>
         1 <= p.completed[k].number <= |p.loaded| && p.loaded[p.completed[k].number - 1] == SliceSize(u, p.completed[k].number - 1)
  }

  predicate AllExited(p: Pool) { forall i :: 0 <= i < |p.workers| ==> p.workers[i].Exited? }

  predicate Staffed(u: Upload, p: Pool) {
    && |p.workers| == Min(MAX_WORKERS, |u.parts|)
    && p.cursor <= |u.parts| && p.requests == u.parts[..p.cursor]
    && (forall i :: 0 <= i < |p.workers| && p.workers[i].Exited? ==> p.cursor == |u.parts|)
    && (forall i :: 0 <= i < |p.workers| && p.workers[i].Sending? ==>
          1 <= p.workers[i].part.number <= |u.parts| && p.workers[i].part in p.requests)
  }

  predicate Finishing(p: Pool) { p.result.Completing? || p.result.Completed? }

  ghost predicate Inv(u: Upload, p: Pool) {
    && Staffed(u, p) && Accounted(p) && Measured(u, p)
    && (Finishing(p) ==> p.result.parts == p.completed && AllExited(p))
  }

  lemma RequestsOnce(u: Upload, p: Pool, n: nat)
    requires Numbered(u) && Staffed(u, p)
    ensures multiset(NumbersOf(p.requests))[n] <= 1
  {
    var numbers := NumbersOf(p.requests);
    assert Ordering.NoDuplicates(numbers);
    Ordering.NoDuplicatesMultiset(numbers);
  }

  /** A part in flight has not been received. */
  lemma FlyingNotReceived(u: Upload, p: Pool, w: nat, k: nat)
    requires Numbered(u) && Inv(u, p) && w < |p.workers| && p.workers[w].Sending? && k < |p.completed|
    ensures p.completed[k].number != p.workers[w].part.number
  {
    hide Measured, Flying, Staffed;
    var n := p.workers[w].part.number;
    var m := p.completed[k].number;
    FlyingHas(p.workers, w);
    RequestsOnce(u, p, n);
    assert Received(p.completed)[k] == m;
    assert multiset(Received(p.completed))[m] > 0;
    assert Balanced(p, n);
  }

  lemma FailedStays(workers: seq<Worker>, w: nat, next: Worker)
    requires w < |workers| && !workers[w].Failed?
    ensures AnyFailed(workers[w := next]) <==> AnyFailed(workers) || next.Failed?
  {
    var changed := workers[w := next];
    if AnyFailed(workers) {
      var i :| 0 <= i < |workers| && workers[i].Failed?;
      assert changed[i].Failed?;
    }
    if next.Failed? {
      assert changed[w].Failed?;
    }
  }

  lemma ClaimAccounted(u: Upload, p: Pool, w: nat)
    requires Staffed(u, p) && Accounted(p) && Enabled(u, p, Claim(w))
    ensures Accounted(Next(u, p, Claim(w)))
  {
    hide Flying;
    var n := Next(u, p, Claim(w));
    var part := u.parts[p.cursor];
    FailedStays(p.workers, w, Sending(part));
    assert NumbersOf(n.requests) == NumbersOf(p.requests) + [part.number];
    forall k: nat
      ensures Balanced(n, k)
    {
      assert Balanced(p, k);
      FlyingUpdate(p.workers, w, Sending(part), k);
    }
  }

  lemma LoadedAccounted(u: Upload, p: Pool, w: nat, etag: string)
    requires Accounted(p) && Enabled(u, p, Loaded(w, etag))
    ensures Accounted(Next(u, p, Loaded(w, etag)))
  {
    hide Flying, SliceSize;
    var n := Next(u, p, Loaded(w, etag));
    FailedStays(p.workers, w, Idle);
    assert Received(n.completed) == Received(p.completed) + [p.workers[w].part.number];
    forall k: nat
      ensures Balanced(n, k)
    {
      assert Balanced(p, k);
      FlyingUpdate(p.workers, w, Idle, k);
    }
  }

  lemma LeaveAccounted(p: Pool, w: nat, next: Worker)
    requires Accounted(p) && w < |p.workers|
    requires if next == Exited then p.workers[w].Idle? else next == Failed && p.workers[w].Sending?
    ensures Accounted(p.(workers := p.workers[w := next]))
  {
    hide Flying;
    var n := p.(workers := p.workers[w := next]);
    FailedStays(p.workers, w, next);
    forall k: nat
      ensures Balanced(n, k)
    {
      assert Balanced(p, k);
      FlyingUpdate(p.workers, w, next, k);
    }
  }

  lemma StepStaffed(u: Upload, p: Pool, step: Step)
    requires Numbered(u) && Staffed(u, p) && Enabled(u, p, step)
    ensures Staffed(u, Next(u, p, step))
  {
    hide SliceSize;
  }

  lemma StepMeasured(u: Upload, p: Pool, step: Step)
    requires Numbered(u) && Inv(u, p) && Enabled(u, p, step)
    ensures Measured(u, Next(u, p, step))
  {
    hide SliceSize, Accounted, Staffed;
    if step.Progress? || step.Loaded? {
      forall k | 0 <= k < |p.completed|
        ensures p.completed[k].number != p.workers[step.worker].part.number
      {
        FlyingNotReceived(u, p, step.worker, k);
      }
    }
  }

  lemma StepKeeps(u: Upload, p: Pool, step: Step)
    requires Numbered(u) && Inv(u, p) && Enabled(u, p, step)
    ensures Inv(u, Next(u, p, step))
  {
    hide SliceSize, Accounted, Measured, Staffed, Numbered;
    StepStaffed(u, p, step);
    StepMeasured(u, p, step);
    match step {
      case Claim(w) => ClaimAccounted(u, p, w);
      case Loaded(w, etag) => LoadedAccounted(u, p, w, etag);
      case Exit(w) => LeaveAccounted(p, w, Exited);
      case Break(w) => LeaveAccounted(p, w, Failed);
      case _ => SameAccounts(p, Next(u, p, step));
    }
  }

  lemma SameAccounts(p: Pool, n: Pool)
    requires Accounted(p) && n.completed == p.completed && n.workers == p.workers && n.requests == p.requests
    ensures Accounted(n)
  {
    assert forall k: nat :: Balanced(p, k) ==> Balanced(n, k);
  }

  lemma {:induction false} RunKeeps(u: Upload, p: Pool, steps: seq<Step>)
    requires Numbered(u) && Inv(u, p) && Legal(u, p, steps)
    ensures Inv(u, After(u, p, steps))
    decreases |steps|
  {
    hide Inv, Enabled, Next, Numbered;
    if steps != [] {
      StepKeeps(u, p, steps[0]);
      RunKeeps(u, Next(u, p, steps[0]), steps[1..]);
    }
  }

  lemma InitialInv(u: Upload)
    ensures Inv(u, Initial(u))
  {
    var p := Initial(u);
    forall n: nat
      ensures Balanced(p, n)
    {
      NoneFlying(p.workers, n);
    }
  }

  // ---------- the theorems ----------

  /** Each part is sent at most once, in the order of the plan, and at most four are in flight, to the addresses of the plan. */
  lemma EachPartOnce(u: Upload, steps: seq<Step>)
    requires Numbered(u) && Legal(u, Initial(u), steps)
    ensures var p := After(u, Initial(u), steps);
      && p.cursor <= |u.parts| && p.requests == u.parts[..p.cursor] && |p.workers| == (if |u.parts| < 4 then |u.parts| else 4)
      && (forall i :: 0 <= i < |p.workers| && p.workers[i].Sending? ==> p.workers[i].part in p.requests)
      && forall n: nat :: multiset(Received(p.completed))[n] + Flying(p.workers, n) <= 1
  {
    InitialInv(u);
    RunKeeps(u, Initial(u), steps);
    var p := After(u, Initial(u), steps);
    forall n: nat
      ensures multiset(Received(p.completed))[n] + Flying(p.workers, n) <= 1
    {
      assert Balanced(p, n);
      RequestsOnce(u, p, n);
    }
  }

  // ---------- where the receipts come from ----------

  /** The state behind the first `k` steps. */
  function StateAt(u: Upload, p: Pool, steps: seq<Step>, k: nat): Pool
    requires Legal(u, p, steps) && k <= |steps|
    decreases k
  {
    if k == 0 then p else StateAt(u, Next(u, p, steps[0]), steps[1..], k - 1)
  }

  /** Step `k` is the good answer to a request for a part of the plan, and `r` has its number and the ETag of the answer. */
  predicate Answers(u: Upload, p: Pool, steps: seq<Step>, k: nat, r: Receipt)
    requires Legal(u, p, steps)
  {
    && k < |steps| && steps[k].Loaded?
    && var workers := StateAt(u, p, steps, k).workers;
    && steps[k].worker < |workers| && workers[steps[k].worker].Sending?
    && r.number == workers[steps[k].worker].part.number && r.etag == steps[k].etag && r.etag != ""
  }

  predicate Increasing(at: seq<nat>) { forall i, j :: 0 <= i < j < |at| ==> at[i] < at[j] }

  function Shifted(at: seq<nat>): (r: seq<nat>)
    ensures |r| == |at| && forall i :: 0 <= i < |at| ==> r[i] == at[i] + 1
  {
    seq(|at|, i requires 0 <= i < |at| => at[i] + 1)
  }

  lemma CompletedGrows(u: Upload, p: Pool, step: Step)
    requires Enabled(u, p, step)
    ensures Next(u, p, step).completed ==
      p.completed + (if step.Loaded? then [Receipt(p.workers[step.worker].part.number, step.etag)] else [])
    ensures step.Loaded? ==> step.worker < |p.workers| && p.workers[step.worker].Sending? && step.etag != ""
  {
    hide SliceSize;
  }

  /** The receipts that a run adds, with the steps that they answer. */
  lemma {:induction false} ReceiptsAdded(u: Upload, p: Pool, steps: seq<Step>) returns (at: seq<nat>)
    requires Legal(u, p, steps)
    ensures Increasing(at) && |After(u, p, steps).completed| == |p.completed| + |at|
    ensures After(u, p, steps).completed[..|p.completed|] == p.completed
    ensures forall i :: 0 <= i < |at| ==> Answers(u, p, steps, at[i], After(u, p, steps).completed[|p.completed| + i])
    ensures forall k :: 0 <= k < |steps| && steps[k].Loaded? ==> k in at
    decreases |steps|
  {
    hide Enabled, Next;
    if steps == [] {
      at := [];
    } else {
      var n, rest := Next(u, p, steps[0]), steps[1..];
      var more := ReceiptsAdded(u, n, rest);
      at := ReceiptsJoin(u, p, steps, more, After(u, p, steps).completed);
    }
  }

  lemma ReceiptsJoin(u: Upload, p: Pool, steps: seq<Step>, more: seq<nat>, end: seq<Receipt>) returns (at: seq<nat>)
    requires Legal(u, p, steps) && steps != [] && Increasing(more)
    requires var n, rest := Next(u, p, steps[0]), steps[1..];
      && |end| == |n.completed| + |more| && end[..|n.completed|] == n.completed
      && (forall i :: 0 <= i < |more| ==> Answers(u, n, rest, more[i], end[|n.completed| + i]))
      && forall k :: 0 <= k < |rest| && rest[k].Loaded? ==> k in more
    ensures Increasing(at) && |end| == |p.completed| + |at| && end[..|p.completed|] == p.completed
    ensures forall i :: 0 <= i < |at| ==> Answers(u, p, steps, at[i], end[|p.completed| + i])
    ensures forall k :: 0 <= k < |steps| && steps[k].Loaded? ==> k in at
  {
    hide Enabled, Next, Answers;
    var n, c := Next(u, p, steps[0]), |p.completed|;
    CompletedGrows(u, p, steps[0]);
    at := (if steps[0].Loaded? then [0] else []) + Shifted(more);
    var first := if steps[0].Loaded? then 1 else 0;
    assert end[..c] == end[..|n.completed|][..c];
    forall i | 0 <= i < |at|
      ensures Answers(u, p, steps, at[i], end[c + i])
    {
      if i < first {
        assert end[c] == end[..|n.completed|][c];
        AnswersNow(u, p, steps);
      } else {
        AnswersLater(u, p, steps, more[i - first], end[c + i]);
      }
    }
    AllAnswers(steps, more, at);
  }

  lemma AllAnswers(steps: seq<Step>, more: seq<nat>, at: seq<nat>)
    requires steps != [] && at == (if steps[0].Loaded? then [0] else []) + Shifted(more)
    requires forall k :: 0 <= k < |steps[1..]| && steps[1..][k].Loaded? ==> k in more
    ensures forall k :: 0 <= k < |steps| && steps[k].Loaded? ==> k in at
  {
    var first := if steps[0].Loaded? then 1 else 0;
    forall k | 0 <= k < |steps| && steps[k].Loaded?
      ensures k in at
    {
      if k > 0 {
        assert steps[1..][k - 1] == steps[k];
        var i :| 0 <= i < |more| && more[i] == k - 1;
        assert at[first + i] == k;
      } else {
        assert at[0] == 0;
      }
    }
  }

  lemma AnswersNow(u: Upload, p: Pool, steps: seq<Step>)
    requires Legal(u, p, steps) && steps != [] && steps[0].Loaded?
    ensures steps[0].worker < |p.workers| && p.workers[steps[0].worker].Sending?
    ensures Answers(u, p, steps, 0, Receipt(p.workers[steps[0].worker].part.number, steps[0].etag))
  {
    hide SliceSize;
    assert StateAt(u, p, steps, 0) == p;
  }

  lemma AnswersLater(u: Upload, p: Pool, steps: seq<Step>, k: nat, r: Receipt)
    requires Legal(u, p, steps) && steps != [] && Answers(u, Next(u, p, steps[0]), steps[1..], k, r)
    ensures Answers(u, p, steps, k + 1, r)
  {
    hide Enabled, Next;
    assert steps[1..][k] == steps[k + 1];
  }

  /** The complete call sends, for each part, the ETag with which its own request was answered, in the order of the
      answers: one receipt for each good answer of the run. */
  lemma CompletesWithItsAnswers(u: Upload, steps: seq<Step>) returns (at: seq<nat>)
    requires Numbered(u) && Legal(u, Initial(u), steps) && Finishing(After(u, Initial(u), steps))
    ensures var parts := After(u, Initial(u), steps).result.parts;
      && |at| == |parts| && Increasing(at)
      && forall i :: 0 <= i < |at| ==> Answers(u, Initial(u), steps, at[i], parts[i])
    ensures forall k :: 0 <= k < |steps| && steps[k].Loaded? ==> k in at
  {
    hide Enabled, Next, Legal, After, Inv, Answers, Numbered;
    InitialInv(u);
    RunKeeps(u, Initial(u), steps);
    FinishedParts(u, After(u, Initial(u), steps));
    at := ReceiptsAdded(u, Initial(u), steps);
  }

  lemma FinishedParts(u: Upload, p: Pool)
    requires Inv(u, p) && Finishing(p)
    ensures p.result.parts == p.completed
  {
  }

  /** The complete call carries every part once, and the progress then recorded is the whole file. */
  lemma CompletesWithEveryPart(u: Upload, steps: seq<Step>)
    requires Numbered(u) && Covers(u) && Legal(u, Initial(u), steps) && Finishing(After(u, Initial(u), steps))
    ensures var p := After(u, Initial(u), steps);
      && multiset(Received(p.result.parts)) == multiset(NumbersOf(u.parts))
      && p.requests == u.parts && Total(p.loaded) == u.size
  {
    hide Inv;
    InitialInv(u);
    RunKeeps(u, Initial(u), steps);
    var p := After(u, Initial(u), steps);
    AllSent(u, p);
    AllLoaded(u, p);
  }

  lemma AllSent(u: Upload, p: Pool)
    requires Inv(u, p) && Finishing(p)
    ensures p.requests == u.parts && p.result.parts == p.completed
    ensures multiset(Received(p.completed)) == multiset(NumbersOf(u.parts))
  {
    hide Measured;
    if |u.parts| > 0 {
      assert p.workers[0].Exited?;
    }
    assert u.parts[..p.cursor] == u.parts;
    assert !AnyFailed(p.workers);
    forall n: nat
      ensures multiset(Received(p.completed))[n] == multiset(NumbersOf(u.parts))[n]
    {
      assert Balanced(p, n);
      NoneFlying(p.workers, n);
    }
  }

  lemma AllLoaded(u: Upload, p: Pool)
    requires Numbered(u) && Covers(u) && Inv(u, p) && multiset(Received(p.completed)) == multiset(NumbersOf(u.parts))
    ensures Total(p.loaded) == u.size
  {
    hide SliceSize, Total, Accounted, Staffed, Numbered;
    var numbers, received := NumbersOf(u.parts), Received(p.completed);
    EveryNumberUsed(u);
    forall i | 0 <= i < |p.loaded|
      ensures p.loaded[i] == SliceSize(u, i)
    {
      assert i + 1 in numbers;
      assert i + 1 in multiset(numbers);
      assert i + 1 in received;
      var k :| 0 <= k < |received| && received[k] == i + 1;
      assert p.completed[k].number == i + 1;
    }
    TotalOfSlices(u, p.loaded);
  }

  lemma EveryNumberUsed(u: Upload)
    requires Numbered(u)
    ensures forall x :: 1 <= x <= |u.parts| ==> x in NumbersOf(u.parts)
  {
    var numbers := NumbersOf(u.parts);
    var all: seq<nat> := seq(|u.parts|, i requires 0 <= i => i + 1);
    forall x | x in numbers
      ensures x in all
    {
      assert all[x - 1] == x;
    }
    Ordering.FillsUp(numbers, all);
    forall x: nat | 1 <= x <= |u.parts|
      ensures x in numbers
    {
      assert all[x - 1] == x;
      assert x in multiset(all);
    }
  }

  /** Progress events never report more than the file as long as none reports more than its body. */
  lemma {:induction false} ProgressBounded(u: Upload, p: Pool, steps: seq<Step>)
    requires Legal(u, p, steps) && Honest(u, p, steps) && |p.loaded| == |u.parts|
    requires forall i :: 0 <= i < |p.loaded| ==> p.loaded[i] <= SliceSize(u, i)
    ensures Total(After(u, p, steps).loaded) <= u.size
    decreases |steps|
  {
    hide SliceSize, Total;
    if steps == [] {
      TotalBound(u, p.loaded);
      assert Edge(u, |p.loaded|) <= u.size;
    } else {
      ProgressBounded(u, Next(u, p, steps[0]), steps[1..]);
    }
  }

  predicate Honest(u: Upload, p: Pool, steps: seq<Step>)
    requires Legal(u, p, steps)
    decreases |steps|
  {
    steps != [] ==>
      && (steps[0].Progress? ==> steps[0].bytes <= SliceSize(u, p.workers[steps[0].worker].part.number - 1))
      && Honest(u, Next(u, p, steps[0]), steps[1..])
  }

  /** An upload that was completed or aborted stays so, whatever its other workers still do. */
  lemma {:induction false} ResultIsFinal(u: Upload, p: Pool, steps: seq<Step>)
    requires Legal(u, p, steps) && (p.result.Completed? || p.result.Aborting?)
    ensures After(u, p, steps).result == p.result
    decreases |steps|
  {
    if steps != [] {
      ResultIsFinal(u, Next(u, p, steps[0]), steps[1..]);
    }
  }

  /** Once a part has failed the complete call is never made. */
  lemma {:induction false} FailureNeverCompletes(u: Upload, p: Pool, steps: seq<Step>)
    requires Legal(u, p, steps) && AnyFailed(p.workers) && !Finishing(p)
    ensures !Finishing(After(u, p, steps)) && AnyFailed(After(u, p, steps).workers)
    decreases |steps|
  {
    hide Total, SliceSize;
    if steps != [] {
      FailureStep(u, p, steps[0]);
      FailureNeverCompletes(u, Next(u, p, steps[0]), steps[1..]);
    }
  }

  lemma FailureStep(u: Upload, p: Pool, step: Step)
    requires Enabled(u, p, step) && AnyFailed(p.workers) && !Finishing(p)
    ensures !Finishing(Next(u, p, step)) && AnyFailed(Next(u, p, step).workers)
  {
    hide SliceSize;
    match step {
      case Claim(w) => FailedStays(p.workers, w, Sending(u.parts[p.cursor]));
      case Exit(w) => FailedStays(p.workers, w, Exited);
      case Loaded(w, _) => FailedStays(p.workers, w, Idle);
      case Break(w) => FailedStays(p.workers, w, Failed);
      case _ =>
    }
  }

  /** The numbers from 1 to `n`. */
  function UpTo(n: nat): (r: seq<nat>)
    ensures |r| == n && forall i :: 0 <= i < n ==> r[i] == i + 1
  {
    seq(n, i requires 0 <= i < n => i + 1)
  }

  /** The parts are numbered exactly if their numbers are 1 to n in some order. */
  lemma NumberedIff(u: Upload)
    ensures Numbered(u) <==> multiset(NumbersOf(u.parts)) == multiset(UpTo(|u.parts|))
  {
    var numbers, all := NumbersOf(u.parts), UpTo(|u.parts|);
    assert Ordering.NoDuplicates(all);
    if Numbered(u) {
      forall x | x in numbers
        ensures x in all
      {
        assert all[x - 1] == x;
      }
      Ordering.FillsUp(numbers, all);
    }
    if multiset(numbers) == multiset(all) {
      Ordering.SameDuplicates(all, numbers);
      forall i | 0 <= i < |u.parts|
        ensures 1 <= u.parts[i].number <= |u.parts|
      {
        assert numbers[i] in multiset(all);
      }
      forall i, j | 0 <= i < j < |u.parts|
        ensures u.parts[i].number != u.parts[j].number
      {
        assert numbers[i] != numbers[j];
      }
    }
  }

  // ---------- how an upload ends ----------

  /** Some request of the history has failed. */
  predicate Broken(steps: seq<Step>) { exists i :: 0 <= i < |steps| && steps[i].Break? }

  lemma FailsByBreak(u: Upload, p: Pool, step: Step)
    requires Enabled(u, p, step)
    ensures AnyFailed(Next(u, p, step).workers) <==> AnyFailed(p.workers) || step.Break?
  {
    hide SliceSize;
    match step {
      case Claim(w) => FailedStays(p.workers, w, Sending(u.parts[p.cursor]));
      case Exit(w) => FailedStays(p.workers, w, Exited);
      case Loaded(w, _) => FailedStays(p.workers, w, Idle);
      case Break(w) => FailedStays(p.workers, w, Failed);
      case _ =>
    }
  }

  lemma BrokenFront(step: Step, rest: seq<Step>)
    ensures Broken([step] + rest) <==> step.Break? || Broken(rest)
  {
    var all := [step] + rest;
    if step.Break? {
      assert all[0].Break?;
    }
    if Broken(rest) {
      var i :| 0 <= i < |rest| && rest[i].Break?;
      assert all[i + 1].Break?;
    }
  }

  lemma {:induction false} FailedIff(u: Upload, p: Pool, steps: seq<Step>)
    requires Legal(u, p, steps)
    ensures AnyFailed(After(u, p, steps).workers) <==> AnyFailed(p.workers) || Broken(steps)
    decreases |steps|
  {
    hide Enabled, Next, Broken, AnyFailed;
    if steps == [] {
      NothingBroken();
    } else {
      FailsByBreak(u, p, steps[0]);
      FailedIff(u, Next(u, p, steps[0]), steps[1..]);
      BrokenFront(steps[0], steps[1..]);
      assert steps == [steps[0]] + steps[1..];
    }
  }

  lemma NothingBroken()
    ensures !Broken([])
  {
  }

  /** As long as an upload runs, it may be aborted exactly if a request has failed, and completed exactly if all its
      workers have left without a failure. */
  lemma SettlesIff(u: Upload, steps: seq<Step>)
    requires Legal(u, Initial(u), steps) && After(u, Initial(u), steps).result.Running?
    ensures var p := After(u, Initial(u), steps);
      && (Enabled(u, p, Abort) <==> Broken(steps))
      && (Enabled(u, p, Complete) ==> !Broken(steps))
      && (Enabled(u, p, Complete) <==> forall i :: 0 <= i < |p.workers| ==> p.workers[i].Exited?)
  {
    hide Legal, After, Broken;
    FailedIff(u, Initial(u), steps);
    NotFailedAtFirst(u);
    var p := After(u, Initial(u), steps);
    if AnyFailed(p.workers) {
      var i :| 0 <= i < |p.workers| && p.workers[i].Failed?;
      assert !p.workers[i].Exited?;
    }
  }

  lemma NotFailedAtFirst(u: Upload)
    ensures !AnyFailed(Initial(u).workers)
  {
  }

  predicate Has(steps: seq<Step>, step: Step) { exists i :: 0 <= i < |steps| && steps[i] == step }

  lemma HasFront(first: Step, rest: seq<Step>, step: Step)
    ensures Has([first] + rest, step) <==> first == step || Has(rest, step)
  {
    var all := [first] + rest;
    if first == step {
      assert all[0] == step;
    }
    if Has(rest, step) {
      var i :| 0 <= i < |rest| && rest[i] == step;
      assert all[i + 1] == step;
    }
  }

  lemma ResultStep(u: Upload, p: Pool, step: Step)
    requires Enabled(u, p, step)
    ensures Next(u, p, step).result.Completed? <==> p.result.Completed? || step == Answer(true)
    ensures Next(u, p, step).result.Aborting? <==> p.result.Aborting? || step == Answer(false) || step == Abort
  {
    hide SliceSize;
  }

  /** An upload counts as complete exactly when the complete call was answered well, and is aborted exactly when a part
      has failed or that call was answered badly. */
  lemma {:induction false} ResultIff(u: Upload, p: Pool, steps: seq<Step>)
    requires Legal(u, p, steps)
    ensures After(u, p, steps).result.Completed? <==> p.result.Completed? || Has(steps, Answer(true))
    ensures After(u, p, steps).result.Aborting? <==> p.result.Aborting? || Has(steps, Answer(false)) || Has(steps, Abort)
    decreases |steps|
  {
    hide Enabled, Next, Has;
    if steps == [] {
      HasNothing();
    } else {
      var rest := steps[1..];
      ResultStep(u, p, steps[0]);
      ResultIff(u, Next(u, p, steps[0]), rest);
      HasFront(steps[0], rest, Answer(true));
      HasFront(steps[0], rest, Answer(false));
      HasFront(steps[0], rest, Abort);
      assert steps == [steps[0]] + rest;
    }
  }

  lemma HasNothing()
    ensures forall step :: !Has([], step)
  {
  }

  // ---------- every upload can complete ----------

  function Weight(w: Worker): nat { if w.Sending? then 2 else if w.Idle? then 1 else 0 }

  function Weights(workers: seq<Worker>): nat {
    if workers == [] then 0 else Weight(workers[0]) + Weights(workers[1..])
  }

  lemma {:induction false} WeightsUpdate(workers: seq<Worker>, w: nat, next: Worker)
    requires w < |workers|
    ensures Weights(workers[w := next]) + Weight(workers[w]) == Weights(workers) + Weight(next)
  {
    var changed := workers[w := next];
    if w == 0 {
      assert changed[1..] == workers[1..];
    } else {
      assert changed[1..] == workers[1..][w - 1 := next];
      WeightsUpdate(workers[1..], w - 1, next);
    }
  }

  /** What is left to do. */
  function Left(u: Upload, p: Pool): nat
    requires p.cursor <= |u.parts|
  {
    3 * (|u.parts| - p.cursor) + Weights(p.workers)
  }

  /** A worker that has not left takes its next step. */
  lemma Advances(u: Upload, p: Pool, w: nat) returns (step: Step)
    requires Staffed(u, p) && |p.loaded| == |u.parts| && w < |p.workers| && !p.workers[w].Exited? && !p.workers[w].Failed?
    ensures Enabled(u, p, step) && !step.Break? && Next(u, p, step).result == p.result
    ensures Next(u, p, step).cursor <= |u.parts| && Left(u, Next(u, p, step)) < Left(u, p)
  {
    hide SliceSize;
    if p.workers[w].Sending? {
      step := Loaded(w, "etag");
      WeightsUpdate(p.workers, w, Idle);
    } else if p.cursor < |u.parts| {
      step := Claim(w);
      WeightsUpdate(p.workers, w, Sending(u.parts[p.cursor]));
    } else {
      step := Exit(w);
      WeightsUpdate(p.workers, w, Exited);
    }
  }

  lemma CompletesNow(u: Upload, p: Pool) returns (steps: seq<Step>)
    requires p.result.Running? && forall i :: 0 <= i < |p.workers| ==> p.workers[i].Exited?
    ensures Legal(u, p, steps) && After(u, p, steps).result.Completed?
  {
    steps := [Complete, Answer(true)];
    var n := Next(u, p, Complete);
    assert steps[1..] == [Answer(true)] && [Answer(true)][1..] == [];
    assert Legal(u, n, [Answer(true)]);
  }

  /** From every state of every run in which nothing has failed, the upload can still complete. */
  lemma {:induction false} CanComplete(u: Upload, p: Pool) returns (steps: seq<Step>)
    requires Numbered(u) && Inv(u, p) && p.result.Running? && !AnyFailed(p.workers)
    ensures Legal(u, p, steps) && After(u, p, steps).result.Completed?
    decreases Left(u, p)
  {
    hide Enabled, Next, Accounted, Measured, Numbered;
    if exists w :: 0 <= w < |p.workers| && !p.workers[w].Exited? {
      var w :| 0 <= w < |p.workers| && !p.workers[w].Exited?;
      LoadedWide(u, p);
      var step := Advances(u, p, w);
      StepKeeps(u, p, step);
      FailsByBreak(u, p, step);
      var rest := CanComplete(u, Next(u, p, step));
      steps := [step] + rest;
      assert steps[1..] == rest;
    } else {
      steps := CompletesNow(u, p);
    }
  }

  lemma LoadedWide(u: Upload, p: Pool)
    requires Inv(u, p)
    ensures |p.loaded| == |u.parts|
  {
  }
}
