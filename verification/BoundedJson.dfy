/** Attachment metadata: normalizeBoundedJson with its shared node budget, and the pure
    limits that it decides. */
module BoundedJson {
  import opened Wrappers
  import opened Unicode
  import opened Json
  import opened Ordering

  const MAX_DEPTH := 5
  const MAX_NODES := 256
  const MAX_WIDTH := 64
  const MAX_STRING := 4096
  const MAX_KEY := 80

  const PROTO: Text := Lit("__proto__")
  const CONSTRUCTOR: Text := Lit("constructor")
  const PROTOTYPE: Text := Lit("prototype")

  predicate Forbidden(key: Text) { key == PROTO || key == CONSTRUCTOR || key == PROTOTYPE }

  // ---------- the limits, without a budget ----------

  /** Depth, widths, strings and keys are within the limits, and every leaf is JSON. */
  predicate Shaped(v: Value, depth: nat) {
    depth <= MAX_DEPTH &&
    match v
    case Undefined => false
    case NonFinite => false
    case Exotic => false
    case Str(s) => |s| <= MAX_STRING
    case Arr(items) => |items| <= MAX_WIDTH && forall i :: 0 <= i < |items| ==> Shaped(items[i], depth + 1)
    case Obj(fields) => |fields| <= MAX_WIDTH && forall i :: 0 <= i < |fields| ==> FieldShaped(fields[i], depth)
    case _ => true
  }

  predicate FieldShaped(f: Field, depth: nat) {
    !Forbidden(f.key) && |f.key| <= MAX_KEY && Shaped(f.value, depth + 1)
  }

  function Nodes(v: Value): (n: nat)
    ensures n > 0
    decreases v, 0
  {
    match v
    case Arr(items) => 1 + NodesOfItems(items)
    case Obj(fields) => 1 + NodesOfFields(fields)
    case _ => 1
  }

  function NodesOfItems(items: seq<Value>): nat
    decreases items, 1
  {
    if items == [] then 0 else NodesOfItems(items[..|items| - 1]) + Nodes(items[|items| - 1])
  }

  function NodesOfFields(fields: seq<Field>): nat
    decreases fields, 1
  {
    if fields == [] then 0 else NodesOfFields(fields[..|fields| - 1]) + Nodes(fields[|fields| - 1].value)
  }

  predicate Within(v: Value) { Shaped(v, 0) && Nodes(v) <= MAX_NODES }

  // ---------- the normal form ----------

  predicate FieldLeq(f: Field, g: Field) { TextLeq(f.key, g.key) }

  function SortFields(fields: seq<Field>): seq<Field> { Sort(FieldLeq, fields) }

  /** The value with the keys of every object sorted. */
  function Canon(v: Value): Value
    decreases v, 0
  {
    match v
    case Arr(items) => Arr(CanonItems(items))
    case Obj(fields) => Obj(SortFields(CanonFields(fields)))
    case _ => v
  }

  function CanonItems(items: seq<Value>): (r: seq<Value>)
    ensures |r| == |items|
    decreases items, 1
  {
    if items == [] then [] else CanonItems(items[..|items| - 1]) + [Canon(items[|items| - 1])]
  }

  function CanonField(f: Field): Field
    decreases f, 0
  {
    Field(f.key, Canon(f.value))
  }

  function CanonFields(fields: seq<Field>): (r: seq<Field>)
    ensures |r| == |fields|
    decreases fields, 1
  {
    if fields == [] then [] else CanonFields(fields[..|fields| - 1]) + [CanonField(fields[|fields| - 1])]
  }

  lemma {:induction false} CanonItemsAt(items: seq<Value>, i: nat)
    requires i < |items|
    ensures CanonItems(items)[i] == Canon(items[i])
  {
    if i < |items| - 1 {
      CanonItemsAt(items[..|items| - 1], i);
    }
  }

  lemma {:induction false} CanonFieldsAt(fields: seq<Field>, i: nat)
    requires i < |fields|
    ensures CanonFields(fields)[i] == CanonField(fields[i])
  {
    if i < |fields| - 1 {
      CanonFieldsAt(fields[..|fields| - 1], i);
    }
  }

  lemma {:induction false} CanonFieldsFront(f: Field, fields: seq<Field>)
    ensures CanonFields([f] + fields) == [CanonField(f)] + CanonFields(fields)
  {
    hide CanonField;
    var all := [f] + fields;
    forall i | 0 <= i < |all|
      ensures CanonFields(all)[i] == ([CanonField(f)] + CanonFields(fields))[i]
    {
      CanonFieldsAt(all, i);
      if i > 0 {
        CanonFieldsAt(fields, i - 1);
      }
    }
  }

  lemma {:induction false} CanonInsert(f: Field, fields: seq<Field>)
    ensures CanonFields(Insert(FieldLeq, f, fields)) == Insert(FieldLeq, CanonField(f), CanonFields(fields))
  {
    CanonFieldsFront(f, fields);
    if fields != [] {
      assert fields == [fields[0]] + fields[1..];
      CanonFieldsFront(fields[0], fields[1..]);
      CanonInsert(f, fields[1..]);
      CanonFieldsFront(fields[0], Insert(FieldLeq, f, fields[1..]));
      assert CanonFields(fields)[1..] == CanonFields(fields[1..]);
    }
  }

  /** Sorting the keys and normalising the values commute. */
  lemma {:induction false} CanonSort(fields: seq<Field>)
    ensures CanonFields(SortFields(fields)) == SortFields(CanonFields(fields))
  {
    if fields != [] {
      assert fields == [fields[0]] + fields[1..];
      CanonFieldsFront(fields[0], fields[1..]);
      assert CanonFields(fields)[1..] == CanonFields(fields[1..]);
      CanonSort(fields[1..]);
      CanonInsert(fields[0], SortFields(fields[1..]));
    }
  }

  // ---------- counting nodes ----------

  lemma {:induction false} NodesFront(f: Field, fields: seq<Field>)
    ensures NodesOfFields([f] + fields) == Nodes(f.value) + NodesOfFields(fields)
  {
    var all := [f] + fields;
    if fields == [] {
      assert all[..0] == [];
    } else {
      NodesFront(f, fields[..|fields| - 1]);
      assert all[..|all| - 1] == [f] + fields[..|fields| - 1];
    }
  }

  lemma {:induction false} NodesInsert(f: Field, fields: seq<Field>)
    ensures NodesOfFields(Insert(FieldLeq, f, fields)) == Nodes(f.value) + NodesOfFields(fields)
  {
    NodesFront(f, fields);
    if fields != [] {
      assert fields == [fields[0]] + fields[1..];
      NodesFront(fields[0], fields[1..]);
      NodesInsert(f, fields[1..]);
      NodesFront(fields[0], Insert(FieldLeq, f, fields[1..]));
    }
  }

  lemma {:induction false} NodesSort(fields: seq<Field>)
    ensures NodesOfFields(SortFields(fields)) == NodesOfFields(fields)
  {
    if fields != [] {
      assert fields == [fields[0]] + fields[1..];
      NodesFront(fields[0], fields[1..]);
      NodesSort(fields[1..]);
      NodesInsert(fields[0], SortFields(fields[1..]));
    }
  }

  lemma {:induction false} NodesPrefix(items: seq<Value>, k: nat)
    requires k <= |items|
    ensures NodesOfItems(items[..k]) <= NodesOfItems(items)
  {
    if k < |items| {
      NodesPrefix(items[..|items| - 1], k);
      assert items[..|items| - 1][..k] == items[..k];
    } else {
      assert items[..k] == items;
    }
  }

  lemma {:induction false} NodesFieldsPrefix(fields: seq<Field>, k: nat)
    requires k <= |fields|
    ensures NodesOfFields(fields[..k]) <= NodesOfFields(fields)
  {
    if k < |fields| {
      NodesFieldsPrefix(fields[..|fields| - 1], k);
      assert fields[..|fields| - 1][..k] == fields[..k];
    } else {
      assert fields[..k] == fields;
    }
  }

  // ---------- the walk ----------

  class Budget {
    var nodes: nat

    constructor ()
      ensures nodes == 0
    {
      nodes := 0;
    }
  }

  /** The budgeted walk accepts exactly the values within the limits that still fit the budget. */
  method NormalizeBoundedJson(value: Value, depth: nat, budget: Budget) returns (r: Outcome<Value>)
    modifies budget
    ensures r.Ok? <==> Shaped(value, depth) && old(budget.nodes) + Nodes(value) <= MAX_NODES
    ensures r.Ok? ==> r.value == Canon(value) && budget.nodes == old(budget.nodes) + Nodes(value)
    ensures r.Fail? ==> r.code == "attachment_metadata"
    decreases value, 0
  {
    budget.nodes := budget.nodes + 1;
    if depth > MAX_DEPTH || budget.nodes > MAX_NODES {
      return Fail("attachment_metadata");
    }
    match value {
      case Arr(items) =>
        if |items| > MAX_WIDTH {
          return Fail("attachment_metadata");
        }
        r := NormalizeItems(items, depth, budget);
      case Obj(fields) =>
        if |fields| > MAX_WIDTH {
          return Fail("attachment_metadata");
        }
        r := NormalizeFields(fields, depth, budget);
      case Str(s) =>
        r := if |s| > MAX_STRING then Fail("attachment_metadata") else Ok(value);
      case Null => r := Ok(value);
      case Bool(_) => r := Ok(value);
      case Num(_) => r := Ok(value);
      case _ => r := Fail("attachment_metadata");
    }
  }

  method NormalizeItems(items: seq<Value>, depth: nat, budget: Budget) returns (r: Outcome<Value>)
    requires depth <= MAX_DEPTH && budget.nodes <= MAX_NODES
    modifies budget
    ensures r.Ok? <==> (forall i :: 0 <= i < |items| ==> Shaped(items[i], depth + 1))
                       && old(budget.nodes) + NodesOfItems(items) <= MAX_NODES
    ensures r.Ok? ==> r.value == Arr(CanonItems(items)) && budget.nodes == old(budget.nodes) + NodesOfItems(items)
    ensures r.Fail? ==> r.code == "attachment_metadata"
    decreases items, 1
  {
    var normalized: seq<Value> := [];
    var i := 0;
    while i < |items|
      invariant 0 <= i <= |items|
      invariant normalized == CanonItems(items[..i])
      invariant forall k :: 0 <= k < i ==> Shaped(items[k], depth + 1)
      invariant budget.nodes == old(budget.nodes) + NodesOfItems(items[..i]) <= MAX_NODES
    {
      assert items[..i + 1][..i] == items[..i];
      NodesPrefix(items, i + 1);
      var item := NormalizeBoundedJson(items[i], depth + 1, budget);
      if item.Fail? {
        return Fail(item.code);
      }
      normalized := normalized + [item.value];
      i := i + 1;
    }
    assert items[..i] == items;
    return Ok(Arr(normalized));
  }

  method NormalizeFields(fields: seq<Field>, depth: nat, budget: Budget) returns (r: Outcome<Value>)
    requires depth <= MAX_DEPTH && budget.nodes <= MAX_NODES
    modifies budget
    ensures r.Ok? <==> (forall i :: 0 <= i < |fields| ==> FieldShaped(fields[i], depth))
                       && old(budget.nodes) + NodesOfFields(fields) <= MAX_NODES
    ensures r.Ok? ==> r.value == Obj(SortFields(CanonFields(fields))) && budget.nodes == old(budget.nodes) + NodesOfFields(fields)
    ensures r.Fail? ==> r.code == "attachment_metadata"
    decreases fields, 1
  {
    hide Sort, Shaped, Canon, Nodes, Forbidden;
    SortMultiset(FieldLeq, fields);
    NodesSort(fields);
    CanonSort(fields);
    var keys := SortFields(fields);
    var normalized: seq<Field> := [];
    var i := 0;
    while i < |keys|
      invariant 0 <= i <= |keys|
      invariant normalized == CanonFields(keys[..i])
      invariant forall k :: 0 <= k < i ==> FieldShaped(keys[k], depth)
      invariant budget.nodes == old(budget.nodes) + NodesOfFields(keys[..i]) <= MAX_NODES
    {
      assert keys[..i + 1][..i] == keys[..i];
      NodesFieldsPrefix(keys, i + 1);
      var field := keys[i];
      assert field in keys && field in fields;
      ghost var k :| 0 <= k < |fields| && fields[k] == field;
      if Forbidden(field.key) || |field.key| > MAX_KEY {
        return Fail("attachment_metadata");
      }
      var item := NormalizeBoundedJson(field.value, depth + 1, budget);
      if item.Fail? {
        return Fail(item.code);
      }
      normalized := normalized + [Field(field.key, item.value)];
      i := i + 1;
    }
    assert keys[..i] == keys;
    forall k | 0 <= k < |fields|
      ensures FieldShaped(fields[k], depth)
    {
      assert fields[k] in keys;
    }
    return Ok(Obj(normalized));
  }

  /** What the two callers of the walk see: a fresh budget each time. */
  function BoundedForm(v: Value): Outcome<Value> {
    if Within(v) then Ok(Canon(v)) else Fail("attachment_metadata")
  }

  method NormalizeMetadata(value: Value) returns (r: Outcome<Value>)
    ensures r == BoundedForm(value)
  {
    var budget := new Budget();
    r := NormalizeBoundedJson(value, 0, budget);
  }
}
