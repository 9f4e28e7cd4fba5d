/** The fields of the mirror, read off the history of its calls. */
module MirrorHistory {
  import opened TimelineMirror
  import opened MirrorRuns

  /** The mirror was never deactivated. */
  predicate Alive<T>(steps: seq<Step<T>>) { forall i :: 0 <= i < |steps| ==> !steps[i].Shutdown? }

  /** How many calls of beginListener and deactivate there were. */
  function Listeners<T>(steps: seq<Step<T>>): nat {
    if steps == [] then 0
    else
      var last := steps[|steps| - 1];
      Listeners(steps[..|steps| - 1]) + if last.Begin? || last.Shutdown? then 1 else 0
  }

  /** There is more history, as the last report of the start says that came before a deactivation. */
  function MoreHistory<T>(steps: seq<Step<T>>): bool {
    if steps == [] then true
    else
      var before, last := steps[..|steps| - 1], steps[|steps| - 1];
      if last.Start? && Alive(before) then !last.reached else MoreHistory(before)
  }

  /** A page was begun while the mirror was active, and none has ended since. */
  function Paging<T>(steps: seq<Step<T>>): bool {
    if steps == [] then false
    else
      var before, last := steps[..|steps| - 1], steps[|steps| - 1];
      if last.EndPage? then false else Paging(before) || (last.BeginPage? && Alive(before))
  }

  lemma {:induction false} Snoc<T(!new)>(w: World<T>, steps: seq<Step<T>>)
    requires Legal(w, steps) && steps != []
    ensures var before, last := steps[..|steps| - 1], steps[|steps| - 1];
      Legal(w, before) && Enabled(After(w, before), last) && After(w, steps) == Next(After(w, before), last)
    decreases |steps|
  {
    hide Enabled, Next;
    if |steps| == 1 {
      assert steps[..0] == [];
      LegalNothing(w);
      LegalNothing(Next(w, steps[0]));
      assert steps[1..] == [];
    } else {
      var n, rest := Next(w, steps[0]), steps[1..];
      Snoc(n, rest);
      assert steps[..|steps| - 1][1..] == rest[..|rest| - 1] && rest[|rest| - 1] == steps[|steps| - 1];
    }
  }

  lemma StepShutdown<T(!new)>(w: World<T>, step: Step<T>)
    requires Enabled(w, step)
    ensures var m, n := w.mirror, Next(w, step).mirror;
      && n.active == (m.active && !step.Shutdown?)
      && n.generation == m.generation + (if step.Begin? || step.Shutdown? then 1 else 0)
      && n.hasMore == (if step.Start? && m.active then !step.reached else m.hasMore)
      && n.paginating == (if step.EndPage? then false else m.paginating || (step.BeginPage? && m.active))
  {
    hide ApplyAll, Path;
  }

  lemma AliveSnoc<T>(steps: seq<Step<T>>)
    requires steps != []
    ensures Alive(steps) <==> Alive(steps[..|steps| - 1]) && !steps[|steps| - 1].Shutdown?
  {
    var before := steps[..|steps| - 1];
    if Alive(before) && !steps[|steps| - 1].Shutdown? {
      forall i | 0 <= i < |steps|
        ensures !steps[i].Shutdown?
      {
        if i < |before| {
          assert !before[i].Shutdown?;
        }
      }
    }
  }

  /** In every run the fields are these functions of the calls that were made. */
  lemma {:induction false} FieldsExact<T(!new)>(v: seq<T>, steps: seq<Step<T>>)
    requires Legal(Initial(v), steps)
    ensures var m := After(Initial(v), steps).mirror;
      && m.active == Alive(steps) && m.generation == Listeners(steps)
      && m.hasMore == MoreHistory(steps) && m.paginating == Paging(steps)
    decreases |steps|
  {
    hide Enabled, Next, Legal, After;
    if steps == [] {
      LegalNothing(Initial(v));
    } else {
      var before := steps[..|steps| - 1];
      Snoc(Initial(v), steps);
      FieldsExact(v, before);
      StepShutdown(After(Initial(v), before), steps[|steps| - 1]);
      AliveSnoc(steps);
    }
  }

  /** A page may begin exactly when the mirror is active and no page is loading; a listener is the current one exactly
      when the mirror is active and nothing has begun since its own call. */
  lemma AllowedExact<T(!new)>(v: seq<T>, steps: seq<Step<T>>, generation: nat)
    requires Legal(Initial(v), steps)
    ensures var m := After(Initial(v), steps).mirror;
      && (PageAllowed(m) <==> Alive(steps) && !Paging(steps))
      && (Current(m, generation) <==> Alive(steps) && generation == Listeners(steps))
      && Snapshot(m).hasMore == MoreHistory(steps)
  {
    hide Legal, After;
    FieldsExact(v, steps);
  }
}
