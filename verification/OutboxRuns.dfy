/** Overlapping mutations of one durable queue behave as if they ran one after the other, in call order. */
module OutboxRuns {
  import opened Wrappers
  import opened OutboxRecords
  import opened Outbox

  // ---------- the sequential meaning ----------

  /** The successful mutations among the first calls, in call order. */
  function Folded<B>(store: seq<Entry<B>>, tasks: seq<Task<B>>): seq<Entry<B>> {
    if tasks == [] then store
    else
      var before := Folded(store, tasks[..|tasks| - 1]);
      var last := tasks[|tasks| - 1];
      if last.phase == Done(true) then Mutate(before, last.mutation) else before
  }

  /** Every call before `i` is settled. */
  predicate SettledBefore<B>(tasks: seq<Task<B>>, i: nat) {
    forall j :: 0 <= j < i && j < |tasks| ==> tasks[j].phase.Done?
  }

  predicate Ordered<B>(s: State<B>, i: nat)
    requires i < |s.tasks|
  {
    var t := s.tasks[i];
    && (t.previous == None ==> SettledBefore(s.tasks, i))
    && (t.previous.Some? ==> i > 0 && t.previous.value == i - 1)
    && (!t.phase.Waiting? ==> SettledBefore(s.tasks, i))
  }

  predicate Reading<B(==)>(s: State<B>, i: nat)
    requires i < |s.tasks|
  {
    var t := s.tasks[i];
    && ((t.phase.Loaded? || t.phase.Saving?) ==> t.phase.items == s.store)
    && (t.phase.Writing? ==> t.phase.items == Mutate(s.store, t.mutation))
  }

  predicate TailOk<B>(s: State<B>) {
    match s.tail
    case None => SettledBefore(s.tasks, |s.tasks|)
    case Some(t) => t + 1 == |s.tasks|
  }

  predicate Inv<B(==)>(store: seq<Entry<B>>, s: State<B>) {
    && TailOk(s)
    && (forall i :: 0 <= i < |s.tasks| ==> Ordered(s, i) && Reading(s, i))
    && s.store == Folded(store, s.tasks)
  }

  lemma {:induction false} FoldedUnsettled<B>(store: seq<Entry<B>>, tasks: seq<Task<B>>, i: nat, t: Task<B>)
    requires i < |tasks| && tasks[i].phase != Done(true) && t.phase != Done(true)
    ensures Folded(store, tasks[i := t]) == Folded(store, tasks)
  {
    hide Mutate;
    var n := |tasks| - 1;
    var changed := tasks[i := t];
    if i == n {
      assert changed[..n] == tasks[..n];
    } else {
      assert changed[..n] == tasks[..n][i := t];
      FoldedUnsettled(store, tasks[..n], i, t);
    }
  }

  /** The first call that is not settled succeeds: nothing after it has been applied. */
  lemma {:induction false} FoldedNext<B>(store: seq<Entry<B>>, tasks: seq<Task<B>>, i: nat, t: Task<B>)
    requires i < |tasks| && t.phase == Done(true)
    requires tasks[i].phase != Done(true) && tasks[i].mutation == t.mutation
    requires forall j :: i < j < |tasks| ==> !tasks[j].phase.Done?
    ensures Folded(store, tasks[i := t]) == Mutate(Folded(store, tasks), t.mutation)
  {
    hide Mutate;
    var n := |tasks| - 1;
    var changed := tasks[i := t];
    if i == n {
      assert changed[..n] == tasks[..n];
    } else {
      assert changed[..n] == tasks[..n][i := t];
      FoldedNext(store, tasks[..n], i, t);
    }
  }

  lemma CallKeeps<B>(store: seq<Entry<B>>, s: State<B>, key: nat, m: Mutation<B>)
    requires Inv(store, s)
    ensures Inv(store, Next(s, Call(key, m)))
  {
    hide Mutate;
    var n := Next(s, Call(key, m));
    assert n.tasks[..|s.tasks|] == s.tasks;
    forall i | 0 <= i < |n.tasks|
      ensures Ordered(n, i) && Reading(n, i)
    {
      if i < |s.tasks| {
        assert Ordered(s, i) && Reading(s, i);
      }
    }
  }

  /** A change of one task that is in the critical section or about to enter it. */
  lemma EnterKeeps<B>(store: seq<Entry<B>>, s: State<B>, n: State<B>, i: nat)
    requires Inv(store, s) && i < |s.tasks| && SettledBefore(s.tasks, i) && !s.tasks[i].phase.Done?
    requires |n.tasks| == |s.tasks| && n.tasks == s.tasks[i := n.tasks[i]] && n.tail == s.tail && n.store == s.store
    requires n.tasks[i].previous == s.tasks[i].previous && n.tasks[i].phase != Done(true)
    requires Reading(n, i)
    ensures Inv(store, n)
  {
    hide Mutate, Folded;
    FoldedUnsettled(store, s.tasks, i, n.tasks[i]);
    forall j | 0 <= j < |n.tasks|
      ensures Ordered(n, j) && Reading(n, j)
    {
      assert Ordered(s, j) && Reading(s, j);
    }
  }

  lemma SettleKeeps<B>(store: seq<Entry<B>>, s: State<B>, i: nat)
    requires Inv(store, s) && Enabled(s, Settle(i, true))
    ensures Inv(store, Next(s, Settle(i, true)))
  {
    hide Mutate, Folded;
    var n := Next(s, Settle(i, true));
    assert Ordered(s, i) && Reading(s, i);
    forall j | i < j < |s.tasks|
      ensures s.tasks[j].phase.Waiting?
    {
      assert Ordered(s, j);
    }
    FoldedNext(store, s.tasks, i, n.tasks[i]);
    forall j | 0 <= j < |n.tasks|
      ensures Ordered(n, j) && Reading(n, j)
    {
      assert Ordered(s, j) && Reading(s, j);
    }
  }

  lemma StartSettled<B>(store: seq<Entry<B>>, s: State<B>, i: nat)
    requires Inv(store, s) && Enabled(s, Start(i))
    ensures SettledBefore(s.tasks, i)
  {
    hide Mutate, Folded;
    assert Ordered(s, i);
    if s.tasks[i].previous.Some? {
      assert Ordered(s, i - 1);
    }
  }

  lemma StepKeeps<B>(store: seq<Entry<B>>, s: State<B>, step: Step<B>)
    requires Inv(store, s) && Enabled(s, step)
    ensures Inv(store, Next(s, step))
  {
    hide Mutate, Folded, SettledBefore;
    var n := Next(s, step);
    match step {
      case Call(key, m) => CallKeeps(store, s, key, m);
      case Start(i) => StartSettled(store, s, i); EnterKeeps(store, s, n, i);
      case Load(i, read) => assert Ordered(s, i); EnterKeeps(store, s, n, i);
      case Save(i) => assert Ordered(s, i) && Reading(s, i); EnterKeeps(store, s, n, i);
      case Write(i, submitted) => assert Ordered(s, i) && Reading(s, i); EnterKeeps(store, s, n, i);
      case Settle(i, written) =>
        assert Ordered(s, i) && Reading(s, i);
        if written {
          SettleKeeps(store, s, i);
        } else {
          EnterKeeps(store, s, n, i);
        }
      case Release(i) => ReleaseKeeps(store, s, i);
      case Close(key) => CloseKeeps(store, s, key);
    }
  }

  lemma ReleaseKeeps<B>(store: seq<Entry<B>>, s: State<B>, i: nat)
    requires Inv(store, s) && Enabled(s, Release(i))
    ensures Inv(store, Next(s, Release(i)))
  {
    hide Mutate, Folded;
    var n := Next(s, Release(i));
    assert Ordered(s, i);
    forall j | 0 <= j < |n.tasks|
      ensures Ordered(n, j) && Reading(n, j)
    {
      assert Ordered(s, j) && Reading(s, j);
    }
  }

  lemma CloseKeeps<B>(store: seq<Entry<B>>, s: State<B>, key: nat)
    requires Inv(store, s)
    ensures Inv(store, Next(s, Close(key)))
  {
    hide Mutate, Folded;
    var n := Next(s, Close(key));
    forall j | 0 <= j < |n.tasks|
      ensures Ordered(n, j) && Reading(n, j)
    {
      assert Ordered(s, j) && Reading(s, j);
    }
  }

  lemma {:induction false} RunKeeps<B>(store: seq<Entry<B>>, s: State<B>, steps: seq<Step<B>>)
    requires Inv(store, s) && Legal(s, steps)
    ensures Inv(store, After(s, steps))
    decreases |steps|
  {
    hide Inv, Enabled, Next;
    if steps != [] {
      StepKeeps(store, s, steps[0]);
      RunKeeps(store, Next(s, steps[0]), steps[1..]);
    }
  }

  // ---------- the theorems ----------

  /** Whatever the calls interleave to, the store is the fold of the successful mutations in call order. */
  lemma Linearisable<B>(store: seq<Entry<B>>, steps: seq<Step<B>>)
    requires Legal(Initial(store), steps)
    ensures var s := After(Initial(store), steps); s.store == Folded(store, s.tasks)
  {
    assert Inv(store, Initial(store));
    RunKeeps(store, Initial(store), steps);
  }

  predicate Inside<B>(t: Task<B>) { !t.phase.Waiting? && !t.phase.Done? }

  /** At most one call is between its start and its end. */
  lemma OneInside<B>(store: seq<Entry<B>>, steps: seq<Step<B>>, i: nat, j: nat)
    requires Legal(Initial(store), steps)
    requires var s := After(Initial(store), steps); i < |s.tasks| && j < |s.tasks| && Inside(s.tasks[i]) && Inside(s.tasks[j])
    ensures i == j
  {
    hide Folded, Mutate;
    assert Inv(store, Initial(store)) by { assert Folded<B>(store, []) == store by { FoldedNone(store); } }
    RunKeeps(store, Initial(store), steps);
    var s := After(Initial(store), steps);
    assert Ordered(s, i) && Ordered(s, j);
  }

  lemma FoldedNone<B>(store: seq<Entry<B>>)
    ensures Folded(store, []) == store
  {
  }

  /** While a call is not settled, one of the calls can take a step: the chain never blocks. */
  lemma {:induction false} NeverBlocked<B>(store: seq<Entry<B>>, s: State<B>, i: nat) returns (step: Step<B>)
    requires Inv(store, s) && i < |s.tasks| && !s.tasks[i].phase.Done?
    ensures Enabled(s, step) && !step.Call? && !step.Close? && !step.Release?
    ensures Next(s, step).tasks != s.tasks
  {
    hide Folded, Mutate;
    assert Ordered(s, i);
    var t := s.tasks[i];
    match t.phase {
      case Waiting =>
        if t.previous.Some? && !s.tasks[i - 1].phase.Done? {
          step := NeverBlocked(store, s, i - 1);
        } else {
          step := Start(i);
        }
      case Loading => step := Load(i, false);
      case Loaded(_) => step := Save(i);
      case Saving(_) => step := Write(i, false);
      case Writing(_) => step := Settle(i, false);
    }
    if step == Start(i) || t.phase.Loading? || t.phase.Loaded? || t.phase.Saving? || t.phase.Writing? {
      assert Next(s, step).tasks[i].phase != t.phase;
    }
  }

  // ---------- the lock ----------

  /** How many calls there were. */
  function Calls<B>(steps: seq<Step<B>>): nat {
    if steps == [] then 0 else Calls(steps[..|steps| - 1]) + if steps[|steps| - 1].Call? then 1 else 0
  }

  /** The promise in the map of locks: that of the last call, until its own end removes it. */
  function LockAfter<B>(steps: seq<Step<B>>): Option<nat> {
    if steps == [] then None
    else
      var before, last := steps[..|steps| - 1], steps[|steps| - 1];
      if last.Call? then Some(Calls(before))
      else if last.Release? && LockAfter(before) == Some(last.task) then None
      else LockAfter(before)
  }

  lemma {:induction false} Snoc<B>(s: State<B>, steps: seq<Step<B>>)
    requires Legal(s, steps) && steps != []
    ensures var before, last := steps[..|steps| - 1], steps[|steps| - 1];
      Legal(s, before) && Enabled(After(s, before), last) && After(s, steps) == Next(After(s, before), last)
    decreases |steps|
  {
    hide Enabled, Next;
    if |steps| == 1 {
      assert steps[..0] == [] && steps[1..] == [];
    } else {
      Snoc(Next(s, steps[0]), steps[1..]);
      assert steps[..|steps| - 1][1..] == steps[1..][..|steps| - 2] && steps[1..][|steps| - 2] == steps[|steps| - 1];
    }
  }

  /** In every run the map of locks holds the promise of the last call exactly until that call has ended. */
  lemma {:induction false} LockExact<B>(store: seq<Entry<B>>, steps: seq<Step<B>>)
    requires Legal(Initial(store), steps)
    ensures After(Initial(store), steps).tail == LockAfter(steps) && |After(Initial(store), steps).tasks| == Calls(steps)
    decreases |steps|
  {
    hide Mutate, Legal, After;
    if steps == [] {
      NothingCalled(store);
    } else {
      Snoc(Initial(store), steps);
      LockExact(store, steps[..|steps| - 1]);
    }
  }

  lemma NothingCalled<B>(store: seq<Entry<B>>)
    ensures Legal(Initial(store), []) && After(Initial(store), []) == Initial(store)
  {
  }

  // ---------- the stored list ----------

  lemma {:induction false} FoldedDistinct<B>(store: seq<Entry<B>>, tasks: seq<Task<B>>)
    requires DistinctIds(store)
    ensures DistinctIds(Folded(store, tasks))
  {
    hide Mutate, DistinctIds;
    if tasks != [] {
      FoldedDistinct(store, tasks[..|tasks| - 1]);
      MutateDistinct(Folded(store, tasks[..|tasks| - 1]), tasks[|tasks| - 1].mutation);
    }
  }

  lemma {:induction false} RunBounded<B>(s: State<B>, steps: seq<Step<B>>)
    requires Legal(s, steps) && |s.store| <= MAX_OUTBOX_ITEMS
    ensures |After(s, steps).store| <= MAX_OUTBOX_ITEMS
    decreases |steps|
  {
    hide Mutate;
    if steps != [] {
      RunBounded(Next(s, steps[0]), steps[1..]);
    }
  }

  /** From an empty store: one record for each logical id, and never more than 256. */
  lemma OneRecordPerId<B>(steps: seq<Step<B>>)
    requires Legal(Initial<B>([]), steps)
    ensures var s := After(Initial([]), steps); DistinctIds(s.store) && |s.store| <= MAX_OUTBOX_ITEMS
  {
    hide Folded;
    Linearisable([], steps);
    var s := After(Initial<B>([]), steps);
    FoldedDistinct([], s.tasks);
    RunBounded(Initial<B>([]), steps);
  }

  /** No lost update: a stored record stays until a later successful call names its id. */
  lemma {:induction false} NothingLost<B>(store: seq<Entry<B>>, tasks: seq<Task<B>>, i: nat)
    requires i < |tasks| && tasks[i].phase == Done(true) && tasks[i].mutation.Put?
    requires forall j :: i < j < |tasks| && tasks[j].phase == Done(true) ==> Target(tasks[j].mutation) != tasks[i].mutation.entry.id
    ensures tasks[i].mutation.entry in Folded(store, tasks)
  {
    var n := |tasks| - 1;
    var e := tasks[i].mutation.entry;
    if i < n {
      NothingLost(store, tasks[..n], i);
      if tasks[n].phase == Done(true) {
        MutateKeeps(Folded(store, tasks[..n]), tasks[n].mutation, e);
      }
    }
  }

  // ---------- one instant for each mutation ----------

  /** The mutations that a run writes, in the order of their writes. */
  function Written<B>(s: State<B>, steps: seq<Step<B>>): seq<Mutation<B>>
    requires Legal(s, steps)
    decreases |steps|
  {
    if steps == [] then []
    else
      (if steps[0].Settle? && steps[0].written then [s.tasks[steps[0].task].mutation] else [])
      + Written(Next(s, steps[0]), steps[1..])
  }

  /** A store that takes each mutation at one instant, and none that would make it too long. */
  predicate Atomic<B(==)>(store: seq<Entry<B>>, ms: seq<Mutation<B>>, end: seq<Entry<B>>)
    decreases |ms|
  {
    if ms == [] then end == store
    else |Mutate(store, ms[0])| <= MAX_OUTBOX_ITEMS && Atomic(Mutate(store, ms[0]), ms[1..], end)
  }

  lemma WriteIsMutation<B>(store: seq<Entry<B>>, s: State<B>, i: nat)
    requires Inv(store, s) && Enabled(s, Settle(i, true))
    ensures Next(s, Settle(i, true)).store == Mutate(s.store, s.tasks[i].mutation)
    ensures |Mutate(s.store, s.tasks[i].mutation)| <= MAX_OUTBOX_ITEMS
  {
    hide Mutate, Folded;
    assert Reading(s, i);
  }

  /** The steps of mutateOutbox, with their loads, saves and failures, are a run of the atomic store. */
  lemma {:induction false} RunIsAtomic<B>(store: seq<Entry<B>>, s: State<B>, steps: seq<Step<B>>)
    requires Inv(store, s) && Legal(s, steps)
    ensures Atomic(s.store, Written(s, steps), After(s, steps).store)
    decreases |steps|
  {
    hide Inv, Mutate, Enabled, Next;
    if steps != [] {
      var n := Next(s, steps[0]);
      StepKeeps(store, s, steps[0]);
      RunIsAtomic(store, n, steps[1..]);
      if steps[0].Settle? && steps[0].written {
        WriteIsMutation(store, s, steps[0].task);
        var tail := Written(n, steps[1..]);
        assert Written(s, steps)[1..] == tail;
      } else {
        StoreStays(s, steps[0]);
        assert Written(s, steps) == Written(n, steps[1..]);
      }
    }
  }

  lemma StoreStays<B>(s: State<B>, step: Step<B>)
    requires Enabled(s, step) && !(step.Settle? && step.written)
    ensures Next(s, step).store == s.store
  {
    hide Mutate;
  }

  lemma {:induction false} AtomicJoins<B>(store: seq<Entry<B>>, first: seq<Mutation<B>>, middle: seq<Entry<B>>, second: seq<Mutation<B>>, end: seq<Entry<B>>)
    requires Atomic(store, first, middle) && Atomic(middle, second, end)
    ensures Atomic(store, first + second, end)
    decreases |first|
  {
    hide Mutate;
    if first == [] {
      assert first + second == second;
    } else {
      AtomicJoins(Mutate(store, first[0]), first[1..], middle, second, end);
      assert (first + second)[1..] == first[1..] + second;
    }
  }

  /** Each process is a run that a crash may cut off anywhere; the next one starts from what is stored. */
  predicate LegalLives<B>(store: seq<Entry<B>>, lives: seq<seq<Step<B>>>)
    decreases |lives|
  {
    lives == [] || (Legal(Initial(store), lives[0]) && LegalLives(After(Initial(store), lives[0]).store, lives[1..]))
  }

  function StoreAfter<B>(store: seq<Entry<B>>, lives: seq<seq<Step<B>>>): seq<Entry<B>>
    requires LegalLives(store, lives)
    decreases |lives|
  {
    if lives == [] then store else StoreAfter(After(Initial(store), lives[0]).store, lives[1..])
  }

  function WrittenIn<B>(store: seq<Entry<B>>, lives: seq<seq<Step<B>>>): seq<Mutation<B>>
    requires LegalLives(store, lives)
    decreases |lives|
  {
    if lives == [] then []
    else Written(Initial(store), lives[0]) + WrittenIn(After(Initial(store), lives[0]).store, lives[1..])
  }

  /** With a crash between any two steps, any number of times, the store has taken exactly the written mutations,
      each at one instant. */
  lemma {:induction false} CrashesAreAtomic<B>(store: seq<Entry<B>>, lives: seq<seq<Step<B>>>)
    requires LegalLives(store, lives)
    ensures Atomic(store, WrittenIn(store, lives), StoreAfter(store, lives))
    decreases |lives|
  {
    hide Mutate, Legal, After, Written, Atomic;
    if lives == [] {
      AtomicNothing(store);
    } else {
      var first := Initial(store);
      InitialInv(store);
      RunIsAtomic(store, first, lives[0]);
      var middle := After(first, lives[0]).store;
      CrashesAreAtomic(middle, lives[1..]);
      AtomicJoins(store, Written(first, lives[0]), middle, WrittenIn(middle, lives[1..]), StoreAfter(middle, lives[1..]));
    }
  }

  lemma AtomicNothing<B>(store: seq<Entry<B>>)
    ensures Atomic(store, [], store)
  {
  }

  lemma InitialInv<B>(store: seq<Entry<B>>)
    ensures Inv(store, Initial(store))
  {
    FoldedNone(store);
  }

  // ---------- the key fence ----------

  /** No write of `key` is under way. */
  predicate Drained<B>(s: State<B>, key: nat) {
    forall i :: 0 <= i < |s.tasks| && s.tasks[i].key == key ==> !s.tasks[i].phase.Saving? && !s.tasks[i].phase.Writing?
  }

  /** The writes of `key` in a run. */
  function WritesOf<B>(s: State<B>, steps: seq<Step<B>>, key: nat): nat
    requires Legal(s, steps)
    decreases |steps|
  {
    if steps == [] then 0
    else
      (if steps[0].Settle? && steps[0].written && s.tasks[steps[0].task].key == key then 1 else 0)
      + WritesOf(Next(s, steps[0]), steps[1..], key)
  }

  /** closeMatrixKey: once it is closed and drained, a key never writes again. */
  lemma {:induction false} ClosedKeyNeverWrites<B>(s: State<B>, steps: seq<Step<B>>, key: nat)
    requires Legal(s, steps) && key in s.closed && Drained(s, key)
    ensures WritesOf(s, steps, key) == 0
    decreases |steps|
  {
    hide Mutate;
    if steps != [] {
      ClosedKeyNeverWrites(Next(s, steps[0]), steps[1..], key);
    }
  }
}
