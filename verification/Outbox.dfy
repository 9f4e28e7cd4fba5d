/** The promise chain of outboxLocks that orders the mutations of a durable queue. */
module Outbox {
  import opened Wrappers
  import opened OutboxRecords

  // ---------- one call of mutateOutbox ----------

  /** Loaded and Saving hold the list that was read, Writing the list that is being stored. */
  datatype Phase<+B> =
    | Waiting
    | Loading
    | Loaded(items: seq<Entry<B>>)
    | Saving(items: seq<Entry<B>>)
    | Writing(items: seq<Entry<B>>)
    | Done(ok: bool)

  datatype Task<+B> = Task(previous: Option<nat>, key: nat, mutation: Mutation<B>, phase: Phase<B>)

  /** The stored list, the calls so far in order, the promise in outboxLocks, and the closed keys. */
  datatype State<B> = State(store: seq<Entry<B>>, tasks: seq<Task<B>>, tail: Option<nat>, closed: set<nat>)

  datatype Step<+B> =
    | Call(key: nat, mutation: Mutation<B>)
    | Start(task: nat)
    | Load(task: nat, read: bool)
    | Save(task: nat)
    | Write(task: nat, submitted: bool)
    | Settle(task: nat, written: bool)
    | Release(task: nat)
    | Close(key: nat)

  predicate Enabled<B>(s: State<B>, step: Step<B>) {
    match step
    case Call(_, _) => true
    case Close(_) => true
    case Start(i) =>
      && i < |s.tasks| && s.tasks[i].phase.Waiting?
      && (s.tasks[i].previous.Some? ==>
            s.tasks[i].previous.value < |s.tasks| && s.tasks[s.tasks[i].previous.value].phase.Done?)
    case Load(i, _) => i < |s.tasks| && s.tasks[i].phase.Loading?
    case Save(i) => i < |s.tasks| && s.tasks[i].phase.Loaded?
    case Write(i, _) => i < |s.tasks| && s.tasks[i].phase.Saving?
    case Settle(i, written) =>
      i < |s.tasks| && s.tasks[i].phase.Writing? && (written ==> |s.tasks[i].phase.items| <= MAX_OUTBOX_ITEMS)
    case Release(i) => i < |s.tasks| && s.tasks[i].phase.Done?
  }

  function At<B>(s: State<B>, i: nat, phase: Phase<B>): State<B>
    requires i < |s.tasks|
  {
    s.(tasks := s.tasks[i := s.tasks[i].(phase := phase)])
  }

  function Next<B>(s: State<B>, step: Step<B>): State<B>
    requires Enabled(s, step)
  {
    match step
    case Call(key, mutation) =>
      s.(tasks := s.tasks + [Task(s.tail, key, mutation, Waiting)], tail := Some(|s.tasks|))
    case Start(i) => At(s, i, if s.tasks[i].key in s.closed then Done(false) else Loading)
    case Load(i, read) => At(s, i, if read then Loaded(s.store) else Done(false))
    case Save(i) => At(s, i, if s.tasks[i].key in s.closed then Done(false) else Saving(s.tasks[i].phase.items))
    case Write(i, submitted) =>
      var t := s.tasks[i];
      var m := Resolve(t.mutation, submitted);
      if t.key in s.closed then At(s, i, Done(false))
      else s.(tasks := s.tasks[i := t.(mutation := m, phase := Writing(Mutate(t.phase.items, m)))])
    case Settle(i, written) =>
      At(s.(store := if written then s.tasks[i].phase.items else s.store), i, Done(written))
    case Release(i) => if s.tail == Some(i) then s.(tail := None) else s
    case Close(key) => s.(closed := s.closed + {key})
  }

  predicate Legal<B>(s: State<B>, steps: seq<Step<B>>)
    decreases |steps|
  {
    steps == [] || (Enabled(s, steps[0]) && Legal(Next(s, steps[0]), steps[1..]))
  }

  function After<B>(s: State<B>, steps: seq<Step<B>>): State<B>
    requires Legal(s, steps)
    decreases |steps|
  {
    if steps == [] then s else After(Next(s, steps[0]), steps[1..])
  }

  function Initial<B>(store: seq<Entry<B>>): State<B> { State(store, [], None, {}) }

  // ---------- the engine's own variables ----------

  /** The steps of mutateOutbox between its awaits; the array of tasks is the list of its activations. */
  class Queue<B> {
    var store: seq<Entry<B>>
    var tasks: seq<Task<B>>
    var locks: Option<nat>
    var closed: set<nat>

    function Abstract(): State<B>
      reads this
    {
      State(store, tasks, locks, closed)
    }

    constructor (stored: seq<Entry<B>>)
      ensures Abstract() == Initial(stored)
    {
      store := stored;
      tasks := [];
      locks := None;
      closed := {};
    }

    method Enter(i: nat, phase: Phase<B>)
      requires i < |tasks|
      modifies this
      ensures Abstract() == At(old(Abstract()), i, phase)
    {
      tasks := tasks[i := tasks[i].(phase := phase)];
    }

    method MutateOutbox(key: nat, mutation: Mutation<B>) returns (current: nat)
      modifies this
      ensures Abstract() == Next(old(Abstract()), Call(key, mutation)) && current == |old(tasks)|
    {
      var previous := locks;
      current := |tasks|;
      tasks := tasks + [Task(previous, key, mutation, Waiting)];
      locks := Some(current);
    }

    method AfterPrevious(i: nat)
      requires Enabled(Abstract(), Start(i))
      modifies this
      ensures Abstract() == Next(old(Abstract()), Start(i))
    {
      if tasks[i].key in closed {
        Enter(i, Done(false));
      } else {
        Enter(i, Loading);
      }
    }

    method LoadOutbox(i: nat, read: bool)
      requires Enabled(Abstract(), Load(i, read))
      modifies this
      ensures Abstract() == Next(old(Abstract()), Load(i, read))
    {
      if read {
        Enter(i, Loaded(store));
      } else {
        Enter(i, Done(false));
      }
    }

    method SaveOutbox(i: nat)
      requires Enabled(Abstract(), Save(i))
      modifies this
      ensures Abstract() == Next(old(Abstract()), Save(i))
    {
      if tasks[i].key in closed {
        Enter(i, Done(false));
      } else {
        Enter(i, Saving(tasks[i].phase.items));
      }
    }

    method WithMatrixKeyWrite(i: nat, submitted: bool)
      requires Enabled(Abstract(), Write(i, submitted))
      modifies this
      ensures Abstract() == Next(old(Abstract()), Write(i, submitted))
    {
      var t := tasks[i];
      if t.key in closed {
        Enter(i, Done(false));
      } else {
        var m := Resolve(t.mutation, submitted);
        tasks := tasks[i := t.(mutation := m, phase := Writing(Mutate(t.phase.items, m)))];
      }
    }

    method SetItem(i: nat, written: bool)
      requires Enabled(Abstract(), Settle(i, written))
      modifies this
      ensures Abstract() == Next(old(Abstract()), Settle(i, written))
    {
      if written {
        store := tasks[i].phase.items;
      }
      Enter(i, Done(written));
    }

    method Finally(i: nat)
      requires Enabled(Abstract(), Release(i))
      modifies this
      ensures Abstract() == Next(old(Abstract()), Release(i))
    {
      if locks == Some(i) {
        locks := None;
      }
    }

    method CloseMatrixKey(key: nat)
      modifies this
      ensures Abstract() == Next(old(Abstract()), Close(key))
    {
      closed := closed + {key};
    }
  }
}
