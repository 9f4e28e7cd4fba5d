/** What a caller sees of a durable queue: calls join at the end of a line, and only the first of them settles, with
    its mutation or as a failure. The promise chain of Outbox allows exactly that. */
module OutboxOrder {
  import opened Wrappers
  import opened OutboxRecords
  import opened Outbox
  import opened OutboxRuns

  // ---------- the line ----------

  /** The stored list, and the mutations of the calls that are not settled, in call order; a put waits with its
      `submitted` field open. */
  datatype Line<B> = Line(store: seq<Entry<B>>, waiting: seq<Mutation<B>>)

  datatype Event<+B> = Stay | Join(mutation: Mutation<B>) | Fault | Take(submitted: bool) | Restart

  predicate Possible<B>(l: Line<B>, e: Event<B>) {
    && (e.Fault? || e.Take? ==> l.waiting != [])
    && (e.Take? ==> |Mutate(l.store, Resolve(l.waiting[0], e.submitted))| <= MAX_OUTBOX_ITEMS)
  }

  function Moved<B>(l: Line<B>, e: Event<B>): Line<B>
    requires Possible(l, e)
  {
    match e
    case Stay => l
    case Join(m) => l.(waiting := l.waiting + [Resolve(m, false)])
    case Fault => l.(waiting := l.waiting[1..])
    case Take(submitted) => Line(Mutate(l.store, Resolve(l.waiting[0], submitted)), l.waiting[1..])
    case Restart => l.(waiting := [])
  }

  /** The events lead from `l` to `end`. */
  ghost predicate Serves<B>(l: Line<B>, events: seq<Event<B>>, end: Line<B>)
    decreases |events|
  {
    if events == [] then end == l else Possible(l, events[0]) && Serves(Moved(l, events[0]), events[1..], end)
  }

  lemma {:induction false} ServesJoins<B>(l: Line<B>, first: seq<Event<B>>, middle: Line<B>, second: seq<Event<B>>, end: Line<B>)
    requires Serves(l, first, middle) && Serves(middle, second, end)
    ensures Serves(l, first + second, end)
    decreases |first|
  {
    hide Possible, Moved;
    if first == [] {
      assert first + second == second;
    } else {
      ServesJoins(Moved(l, first[0]), first[1..], middle, second, end);
      assert (first + second)[1..] == first[1..] + second;
    }
  }

  // ---------- the promise chain as a line ----------

  /** The calls that are not settled. */
  function Unsettled<B>(tasks: seq<Task<B>>): seq<Mutation<B>> {
    if tasks == [] then []
    else
      var last := tasks[|tasks| - 1];
      Unsettled(tasks[..|tasks| - 1]) + (if last.phase.Done? then [] else [Resolve(last.mutation, false)])
  }

  function View<B>(s: State<B>): Line<B> { Line(s.store, Unsettled(s.tasks)) }

  /** What a step is for the line. */
  function EventOf<B>(s: State<B>, step: Step<B>): Event<B>
    requires Enabled(s, step)
  {
    match step
    case Call(_, m) => Join(m)
    case Load(_, read) => if read then Stay else Fault
    case Settle(i, written) =>
      var m := s.tasks[i].mutation;
      if written then Take(m.Put? && m.entry.submitted) else Fault
    case Start(i) => if s.tasks[i].key in s.closed then Fault else Stay
    case Save(i) => if s.tasks[i].key in s.closed then Fault else Stay
    case Write(i, _) => if s.tasks[i].key in s.closed then Fault else Stay
    case Release(_) => Stay
    case Close(_) => Stay
  }

  lemma {:induction false} AllSettled<B>(tasks: seq<Task<B>>)
    requires SettledBefore(tasks, |tasks|)
    ensures Unsettled(tasks) == []
  {
    if tasks != [] {
      AllSettled(tasks[..|tasks| - 1]);
    }
  }

  lemma {:induction false} StillUnsettled<B>(tasks: seq<Task<B>>, i: nat, t: Task<B>)
    requires i < |tasks| && !tasks[i].phase.Done? && !t.phase.Done? && Resolve(t.mutation, false) == Resolve(tasks[i].mutation, false)
    ensures Unsettled(tasks[i := t]) == Unsettled(tasks)
  {
    var n := |tasks| - 1;
    var changed := tasks[i := t];
    if i == n {
      assert changed[..n] == tasks[..n];
    } else {
      assert changed[..n] == tasks[..n][i := t];
      StillUnsettled(tasks[..n], i, t);
    }
  }

  /** The call that settles is the first one. */
  lemma {:induction false} FirstSettles<B>(tasks: seq<Task<B>>, i: nat, t: Task<B>)
    requires i < |tasks| && SettledBefore(tasks, i) && !tasks[i].phase.Done? && t.phase.Done?
    ensures Unsettled(tasks) != [] && Unsettled(tasks)[0] == Resolve(tasks[i].mutation, false)
    ensures Unsettled(tasks[i := t]) == Unsettled(tasks)[1..]
  {
    var n := |tasks| - 1;
    var changed := tasks[i := t];
    if i == n {
      assert changed[..n] == tasks[..n];
      AllSettled(tasks[..n]);
    } else {
      assert changed[..n] == tasks[..n][i := t];
      FirstSettles(tasks[..n], i, t);
    }
  }

  lemma ResolvedAgain<B>(m: Mutation<B>)
    ensures Resolve(Resolve(m, false), m.Put? && m.entry.submitted) == m
  {
  }

  /** A call in the critical section, or about to enter it, goes on or fails. */
  lemma OneMoves<B>(store: seq<Entry<B>>, s: State<B>, n: State<B>, i: nat)
    requires Inv(store, s) && i < |s.tasks| && SettledBefore(s.tasks, i) && !s.tasks[i].phase.Done?
    requires |n.tasks| == |s.tasks| && n == s.(tasks := s.tasks[i := n.tasks[i]])
    requires n.tasks[i].phase.Done? || Resolve(n.tasks[i].mutation, false) == Resolve(s.tasks[i].mutation, false)
    ensures var e := if n.tasks[i].phase.Done? then Fault else Stay; Possible(View(s), e) && View(n) == Moved(View(s), e)
  {
    hide Inv, Mutate;
    if n.tasks[i].phase.Done? {
      FirstSettles(s.tasks, i, n.tasks[i]);
    } else {
      StillUnsettled(s.tasks, i, n.tasks[i]);
    }
  }

  lemma Takes<B>(store: seq<Entry<B>>, s: State<B>, i: nat)
    requires Inv(store, s) && Enabled(s, Settle(i, true))
    ensures var e := EventOf(s, Settle(i, true)); Possible(View(s), e) && View(Next(s, Settle(i, true))) == Moved(View(s), e)
  {
    hide Mutate, Folded;
    assert Ordered(s, i);
    WriteIsMutation(store, s, i);
    ResolvedAgain(s.tasks[i].mutation);
    FirstSettles(s.tasks, i, s.tasks[i].(phase := Done(true)));
  }

  /** Every step of the promise chain is an event of the line. */
  lemma StepIsEvent<B>(store: seq<Entry<B>>, s: State<B>, step: Step<B>)
    requires Inv(store, s) && Enabled(s, step)
    ensures Possible(View(s), EventOf(s, step)) && View(Next(s, step)) == Moved(View(s), EventOf(s, step))
  {
    hide Mutate, Folded, SettledBefore, Possible, Moved, Unsettled;
    var n := Next(s, step);
    match step {
      case Call(_, _) => Joins(s, step);
      case Start(i) => StartSettled(store, s, i); OneMoves(store, s, n, i);
      case Load(i, _) => assert Ordered(s, i); OneMoves(store, s, n, i);
      case Save(i) => assert Ordered(s, i); OneMoves(store, s, n, i);
      case Write(i, _) => assert Ordered(s, i); OneMoves(store, s, n, i);
      case Settle(i, written) =>
        assert Ordered(s, i);
        if written {
          Takes(store, s, i);
        } else {
          OneMoves(store, s, n, i);
        }
      case _ => Stands(s, step);
    }
  }

  lemma Joins<B>(s: State<B>, step: Step<B>)
    requires step.Call?
    ensures Possible(View(s), EventOf(s, step)) && View(Next(s, step)) == Moved(View(s), EventOf(s, step))
  {
    assert Next(s, step).tasks[..|s.tasks|] == s.tasks;
  }

  lemma Stands<B>(s: State<B>, step: Step<B>)
    requires Enabled(s, step) && (step.Release? || step.Close?)
    ensures Possible(View(s), EventOf(s, step)) && View(Next(s, step)) == Moved(View(s), EventOf(s, step))
  {
  }

  function Events<B>(s: State<B>, steps: seq<Step<B>>): seq<Event<B>>
    requires Legal(s, steps)
    decreases |steps|
  {
    if steps == [] then [] else [EventOf(s, steps[0])] + Events(Next(s, steps[0]), steps[1..])
  }

  /** However the activations of mutateOutbox interleave, their calls settle one after the other in call order. */
  lemma {:induction false} RunIsLine<B>(store: seq<Entry<B>>, s: State<B>, steps: seq<Step<B>>)
    requires Inv(store, s) && Legal(s, steps)
    ensures Serves(View(s), Events(s, steps), View(After(s, steps)))
    decreases |steps|
  {
    hide Inv, Enabled, Next, View, EventOf, Possible, Moved;
    if steps != [] {
      StepIsEvent(store, s, steps[0]);
      StepKeeps(store, s, steps[0]);
      RunIsLine(store, Next(s, steps[0]), steps[1..]);
      assert Events(s, steps)[1..] == Events(Next(s, steps[0]), steps[1..]);
    }
  }

  /** The events of several processes, each cut off by a crash. */
  function EventsIn<B>(store: seq<Entry<B>>, lives: seq<seq<Step<B>>>): seq<Event<B>>
    requires LegalLives(store, lives)
    decreases |lives|
  {
    if lives == [] then []
    else Events(Initial(store), lives[0]) + [Restart] + EventsIn(After(Initial(store), lives[0]).store, lives[1..])
  }

  lemma Restarts<B>(l: Line<B>)
    ensures Serves(l, [Restart], Line(l.store, []))
  {
    var events: seq<Event<B>> := [Restart];
    assert events[1..] == [];
    assert Serves(Line(l.store, []), [], Line(l.store, []));
  }

  /** A crash forgets the calls that were not settled, and leaves the stored list as it is. */
  lemma {:induction false} LivesAreLine<B>(store: seq<Entry<B>>, lives: seq<seq<Step<B>>>)
    requires LegalLives(store, lives)
    ensures Serves(Line(store, []), EventsIn(store, lives), Line(StoreAfter(store, lives), []))
    decreases |lives|
  {
    hide Legal, After, Events, Mutate;
    if lives != [] {
      var first := Initial(store);
      InitialInv(store);
      RunIsLine(store, first, lives[0]);
      var end := After(first, lives[0]);
      Restarts(View(end));
      ServesJoins(View(first), Events(first, lives[0]), View(end), [Restart], Line(end.store, []));
      LivesAreLine(end.store, lives[1..]);
      var events := Events(first, lives[0]) + [Restart];
      ServesJoins(View(first), events, Line(end.store, []), EventsIn(end.store, lives[1..]), Line(StoreAfter(store, lives), []));
    }
  }

  // ---------- every line is served by the promise chain ----------

  /** No key is closed, and no call is inside. */
  predicate Calm<B>(s: State<B>) {
    s.closed == {} && forall i :: 0 <= i < |s.tasks| ==> s.tasks[i].phase.Waiting? || s.tasks[i].phase.Done?
  }

  lemma OneMore<B>(s: State<B>, step: Step<B>, steps: seq<Step<B>>)
    requires Enabled(s, step) && Legal(Next(s, step), steps)
    ensures Legal(s, [step] + steps) && After(s, [step] + steps) == After(Next(s, step), steps)
  {
    hide Enabled, Next;
    assert ([step] + steps)[1..] == steps;
  }

  lemma {:induction false} Concat<B>(s: State<B>, first: seq<Step<B>>, second: seq<Step<B>>)
    requires Legal(s, first) && Legal(After(s, first), second)
    ensures Legal(s, first + second) && After(s, first + second) == After(After(s, first), second)
    decreases |first|
  {
    hide Enabled, Next;
    if first == [] {
      assert first + second == second;
    } else {
      Concat(Next(s, first[0]), first[1..], second);
      assert (first + second)[1..] == first[1..] + second;
    }
  }

  lemma {:induction false} FirstUnsettled<B>(tasks: seq<Task<B>>) returns (i: nat)
    requires Unsettled(tasks) != []
    ensures i < |tasks| && SettledBefore(tasks, i) && !tasks[i].phase.Done?
  {
    var n := |tasks| - 1;
    if Unsettled(tasks[..n]) == [] {
      NoneUnsettled(tasks[..n]);
      i := n;
    } else {
      i := FirstUnsettled(tasks[..n]);
    }
  }

  lemma {:induction false} NoneUnsettled<B>(tasks: seq<Task<B>>)
    requires Unsettled(tasks) == []
    ensures SettledBefore(tasks, |tasks|)
  {
    if tasks != [] {
      NoneUnsettled(tasks[..|tasks| - 1]);
    }
  }

  lemma FirstStarts<B>(store: seq<Entry<B>>, s: State<B>) returns (i: nat, n: State<B>)
    requires Inv(store, s) && Calm(s) && Unsettled(s.tasks) != []
    ensures Enabled(s, Start(i)) && n == Next(s, Start(i)) && n == At(s, i, Loading)
    ensures i < |s.tasks| && s.tasks[i].phase.Waiting? && SettledBefore(s.tasks, i)
  {
    hide Folded, Mutate, Unsettled;
    i := FirstUnsettled(s.tasks);
    assert Ordered(s, i);
    n := Next(s, Start(i));
  }

  lemma Nothing<B>(s: State<B>)
    ensures Legal(s, []) && After(s, []) == s
  {
  }

  lemma FaultServed<B>(store: seq<Entry<B>>, s: State<B>) returns (steps: seq<Step<B>>)
    requires Inv(store, s) && Calm(s) && Unsettled(s.tasks) != []
    ensures Legal(s, steps) && Calm(After(s, steps)) && View(After(s, steps)) == Moved(View(s), Fault)
  {
    hide Inv, Unsettled, Mutate;
    var i, s1 := FirstStarts(store, s);
    var s2 := Next(s1, Load(i, false));
    Nothing(s2);
    OneMore(s1, Load(i, false), []);
    steps := [Load(i, false)] + [];
    OneMore(s, Start(i), steps);
    steps := [Start(i)] + steps;
    assert s2 == s.(tasks := s.tasks[i := s2.tasks[i]]);
    FirstSettles(s.tasks, i, s2.tasks[i]);
  }

  /** The first call is written while its key is open. */
  lemma Writes<B>(s: State<B>, i: nat, submitted: bool) returns (n: State<B>)
    requires s.closed == {} && i < |s.tasks| && s.tasks[i].phase.Loading?
    requires |Mutate(s.store, Resolve(s.tasks[i].mutation, submitted))| <= MAX_OUTBOX_ITEMS
    ensures var steps := [Load(i, true)] + ([Save(i)] + ([Write(i, submitted)] + ([Settle(i, true)] + [])));
      Legal(s, steps) && After(s, steps) == n
    ensures var m := Resolve(s.tasks[i].mutation, submitted);
      n == s.(store := Mutate(s.store, m), tasks := s.tasks[i := s.tasks[i].(mutation := m, phase := Done(true))])
  {
    hide Mutate;
    var s2 := Next(s, Load(i, true));
    var s3 := Next(s2, Save(i));
    var s4 := Next(s3, Write(i, submitted));
    assert Enabled(s4, Settle(i, true));
    n := Next(s4, Settle(i, true));
    Nothing(n);
    OneMore(s4, Settle(i, true), []);
    OneMore(s3, Write(i, submitted), [Settle(i, true)] + []);
    OneMore(s2, Save(i), [Write(i, submitted)] + ([Settle(i, true)] + []));
    OneMore(s, Load(i, true), [Save(i)] + ([Write(i, submitted)] + ([Settle(i, true)] + [])));
  }

  lemma TakeServed<B>(store: seq<Entry<B>>, s: State<B>, submitted: bool) returns (steps: seq<Step<B>>)
    requires Inv(store, s) && Calm(s) && Unsettled(s.tasks) != [] && Possible(View(s), Take(submitted))
    ensures Legal(s, steps) && Calm(After(s, steps)) && View(After(s, steps)) == Moved(View(s), Take(submitted))
  {
    hide Inv, Unsettled, Mutate, Legal, After;
    var i, s1 := FirstStarts(store, s);
    var t := s.tasks[i].(mutation := Resolve(s.tasks[i].mutation, submitted), phase := Done(true));
    FirstSettles(s.tasks, i, t);
    var n := Writes(s1, i, submitted);
    steps := [Load(i, true)] + ([Save(i)] + ([Write(i, submitted)] + ([Settle(i, true)] + [])));
    OneMore(s, Start(i), steps);
    steps := [Start(i)] + steps;
    assert n.tasks == s.tasks[i := t];
  }

  lemma EventServed<B>(store: seq<Entry<B>>, s: State<B>, e: Event<B>) returns (steps: seq<Step<B>>)
    requires Inv(store, s) && Calm(s) && Possible(View(s), e) && !e.Restart?
    ensures Legal(s, steps) && Calm(After(s, steps)) && View(After(s, steps)) == Moved(View(s), e)
  {
    hide Inv, Unsettled, Mutate;
    match e {
      case Stay => steps := []; Nothing(s);
      case Join(m) =>
        var step := Call(0, m);
        Nothing(Next(s, step));
        OneMore(s, step, []);
        steps := [step] + [];
        Joins(s, step);
      case Fault => steps := FaultServed(store, s);
      case Take(submitted) => steps := TakeServed(store, s, submitted);
    }
  }

  /** And every line of calls that only the first of may settle, each of them as a failure or with its mutation if
      the list stays short enough, is a run of mutateOutbox. */
  lemma {:induction false} LineIsRun<B>(store: seq<Entry<B>>, s: State<B>, events: seq<Event<B>>, end: Line<B>) returns (steps: seq<Step<B>>)
    requires Inv(store, s) && Calm(s) && Serves(View(s), events, end) && forall i :: 0 <= i < |events| ==> !events[i].Restart?
    ensures Legal(s, steps) && View(After(s, steps)) == end
    decreases |events|
  {
    hide Inv, Calm, View, Possible, Moved, Enabled, Next;
    if events == [] {
      steps := [];
    } else {
      var first := EventServed(store, s, events[0]);
      RunKeeps(store, s, first);
      var rest := LineIsRun(store, After(s, first), events[1..], end);
      Concat(s, first, rest);
      steps := first + rest;
    }
  }
}
