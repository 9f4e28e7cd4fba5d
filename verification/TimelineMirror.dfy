/** The native mirror of one room timeline: MatrixTimelineState and its listeners. */
module TimelineMirror {

  /** The vector diffs of the SDK. */
  datatype Diff<+T> =
    | Append(values: seq<T>)
    | Clear
    | PushFront(value: T)
    | PushBack(value: T)
    | PopFront
    | PopBack
    | Insert(index: nat, value: T)
    | Replace(index: nat, value: T)
    | Remove(index: nat)
    | Truncate(length: nat)
    | Reset(values: seq<T>)

  /** The fields of MatrixTimelineState. */
  datatype Mirror<+T> = Mirror(active: bool, items: seq<T>, revision: nat, generation: nat, hasMore: bool, paginating: bool)

  datatype Report<+T> = Report(items: seq<T>, revision: nat, hasMore: bool)

  // ---------- the state and its operations ----------

  /** One diff; an index out of range and an empty pop leave the items alone. */
  function ApplyDiff<T>(v: seq<T>, d: Diff<T>): seq<T> {
    match d
    case Append(values) => v + values
    case Clear => []
    case PushFront(value) => [value] + v
    case PushBack(value) => v + [value]
    case PopFront => if v == [] then v else v[1..]
    case PopBack => if v == [] then v else v[..|v| - 1]
    case Insert(index, value) => if index <= |v| then v[..index] + [value] + v[index..] else v
    case Replace(index, value) => if index < |v| then v[index := value] else v
    case Remove(index) => if index < |v| then v[..index] + v[index + 1..] else v
    case Truncate(length) => if |v| > length then v[..length] else v
    case Reset(values) => values
  }

  function ApplyAll<T>(v: seq<T>, ds: seq<Diff<T>>): seq<T>
    decreases |ds|
  {
    if ds == [] then v else ApplyAll(ApplyDiff(v, ds[0]), ds[1..])
  }

  predicate Current<T>(m: Mirror<T>, generation: nat) { m.active && generation == m.generation }

  function Applied<T>(m: Mirror<T>, ds: seq<Diff<T>>, generation: nat): Mirror<T> {
    if Current(m, generation) then m.(items := ApplyAll(m.items, ds), revision := m.revision + 1) else m
  }

  function Snapshot<T>(m: Mirror<T>): Report<T> {
    Report(if m.active then m.items else [], m.revision, m.hasMore)
  }

  function Begun<T>(m: Mirror<T>): Mirror<T> { m.(generation := m.generation + 1) }

  function Deactivated<T>(m: Mirror<T>): Mirror<T> {
    m.(active := false, generation := m.generation + 1, items := [])
  }

  function ReachedStart<T>(m: Mirror<T>, reached: bool): Mirror<T> {
    if m.active then m.(hasMore := !reached) else m
  }

  predicate PageAllowed<T>(m: Mirror<T>) { m.active && !m.paginating }

  function Fresh<T>(): Mirror<T> { Mirror(true, [], 0, 0, true, false) }

  class MatrixTimelineState<T> {
    var active: bool
    var items: seq<T>
    var revision: nat
    var listenerGeneration: nat
    var hasMoreHistory: bool
    var paginating: bool

    function State(): Mirror<T>
      reads this
    {
      Mirror(active, items, revision, listenerGeneration, hasMoreHistory, paginating)
    }

    constructor ()
      ensures State() == Fresh<T>()
    {
      active := true;
      items := [];
      revision := 0;
      listenerGeneration := 0;
      hasMoreHistory := true;
      paginating := false;
    }

    method Apply(ds: seq<Diff<T>>, generation: nat) returns (accepted: bool)
      modifies this
      ensures accepted == Current(old(State()), generation)
      ensures State() == Applied(old(State()), ds, generation)
    {
      if !active || generation != listenerGeneration {
        return false;
      }
      var i := 0;
      while i < |ds|
        invariant 0 <= i <= |ds|
        invariant State() == old(State()).(items := items)
        invariant ApplyAll(items, ds[i..]) == ApplyAll(old(items), ds)
      {
        assert ds[i..][1..] == ds[i + 1..];
        match ds[i] {
          case Append(values) => items := items + values;
          case Clear => items := [];
          case PushFront(value) => items := [value] + items;
          case PushBack(value) => items := items + [value];
          case PopFront => if items != [] { items := items[1..]; }
          case PopBack => if items != [] { items := items[..|items| - 1]; }
          case Insert(index, value) =>
            if index <= |items| { items := items[..index] + [value] + items[index..]; }
          case Replace(index, value) =>
            if index < |items| { items := items[index := value]; }
          case Remove(index) =>
            if index < |items| { items := items[..index] + items[index + 1..]; }
          case Truncate(length) =>
            if |items| > length { items := items[..length]; }
          case Reset(values) => items := values;
        }
        i := i + 1;
      }
      revision := revision + 1;
      return true;
    }

    method TakeSnapshot() returns (r: Report<T>)
      ensures r == Snapshot(State())
    {
      r := Report(if active then items else [], revision, hasMoreHistory);
    }

    method BeginListener() returns (generation: nat)
      modifies this
      ensures State() == Begun(old(State())) && generation == State().generation
    {
      listenerGeneration := listenerGeneration + 1;
      return listenerGeneration;
    }

    method IsCurrentListener(generation: nat) returns (current: bool)
      ensures current == Current(State(), generation)
    {
      current := active && listenerGeneration == generation;
    }

    method BeginPagination() returns (begun: bool)
      modifies this
      ensures begun == PageAllowed(old(State()))
      ensures State() == old(State()).(paginating := old(paginating) || begun)
    {
      if !active || paginating {
        return false;
      }
      paginating := true;
      return true;
    }

    method EndPagination()
      modifies this
      ensures State() == old(State()).(paginating := false)
    {
      paginating := false;
    }

    method SetReachedStart(reachedStart: bool) returns (written: bool)
      modifies this
      ensures written == old(active) && State() == ReachedStart(old(State()), reachedStart)
    {
      if !active {
        return false;
      }
      hasMoreHistory := !reachedStart;
      return true;
    }

    method Deactivate()
      modifies this
      ensures State() == Deactivated(old(State()))
    {
      active := false;
      listenerGeneration := listenerGeneration + 1;
      items := [];
    }
  }
}
