/** What the normal form of attachment metadata keeps and what it forgets. */
module BoundedForms {
  import opened Wrappers
  import opened Unicode
  import opened Json
  import opened Ordering
  import opened BoundedJson

  /** Equal up to the order of the properties, at every level. */
  predicate SameUpToOrder(v: Value, w: Value) {
    match v
    case Arr(items) =>
      w.Arr? && |items| == |w.items| && forall i :: 0 <= i < |items| ==> SameUpToOrder(items[i], w.items[i])
    case Obj(fields) =>
      w.Obj? && |fields| == |w.fields|
      && forall i :: 0 <= i < |fields| ==> exists j :: 0 <= j < |w.fields| && SameField(fields[i], w.fields[j])
    case _ => v == w
  }

  predicate SameField(f: Field, g: Field) {
    f.key == g.key && SameUpToOrder(f.value, g.value)
  }

  lemma {:induction false} FieldOrder()
    ensures TotalPreorder(FieldLeq)
  {
    TextOrder();
    forall x: Field, y: Field
      ensures FieldLeq(x, y) || FieldLeq(y, x)
    {
      assert TextLeq(x.key, y.key) || TextLeq(y.key, x.key);
    }
    forall x: Field, y: Field, z: Field | FieldLeq(x, y) && FieldLeq(y, z)
      ensures FieldLeq(x, z)
    {
      assert TextLeq(x.key, y.key) && TextLeq(y.key, z.key);
    }
  }

  lemma {:induction false} DistinctSeparates(fields: seq<Field>)
    requires DistinctKeys(fields)
    ensures Separates(FieldLeq, fields) && NoDuplicates(fields)
  {
    TextOrder();
    forall x, y | x in fields && y in fields && FieldLeq(x, y) && FieldLeq(y, x)
      ensures x == y
    {
      var i :| 0 <= i < |fields| && fields[i] == x;
      var j :| 0 <= j < |fields| && fields[j] == y;
      assert x.key == y.key;
    }
  }

  lemma {:induction false} CanonKeys(fields: seq<Field>)
    requires DistinctKeys(fields)
    ensures DistinctKeys(CanonFields(fields))
  {
    forall i | 0 <= i < |fields|
      ensures CanonFields(fields)[i].key == fields[i].key
    {
      CanonFieldsAt(fields, i);
    }
  }

  // ---------- independence of key order ----------

  predicate HasTwin(x: Field, g: seq<Field>) {
    exists j :: 0 <= j < |g| && CanonField(x) == CanonField(g[j])
  }

  /** Same fields up to order have the same sorted normal form. */
  lemma {:induction false} CanonFieldsForget(f: seq<Field>, g: seq<Field>)
    requires DistinctKeys(f) && DistinctKeys(g) && |f| == |g|
    requires forall i :: 0 <= i < |f| ==> HasTwin(f[i], g)
    ensures SortFields(CanonFields(f)) == SortFields(CanonFields(g))
  {
    hide CanonField;
    CanonKeys(f);
    CanonKeys(g);
    var cf, cg := CanonFields(f), CanonFields(g);
    DistinctSeparates(cf);
    DistinctSeparates(cg);
    forall x | x in cf
      ensures x in cg
    {
      var i :| 0 <= i < |cf| && cf[i] == x;
      CanonFieldsAt(f, i);
      assert HasTwin(f[i], g);
      var j :| 0 <= j < |g| && CanonField(f[i]) == CanonField(g[j]);
      CanonFieldsAt(g, j);
    }
    FillsUp(cf, cg);
    FieldOrder();
    SortUnique(FieldLeq, cf, cg);
  }

  /** ... and conversely every field of one occurs in the other. */
  lemma {:induction false} CanonFieldsRecall(f: seq<Field>, g: seq<Field>, i: nat) returns (j: nat)
    requires SortFields(CanonFields(f)) == SortFields(CanonFields(g)) && i < |f|
    ensures |f| == |g| && j < |g| && CanonField(f[i]) == CanonField(g[j])
  {
    hide CanonField;
    var cf, cg := CanonFields(f), CanonFields(g);
    SortMultiset(FieldLeq, cf);
    SortMultiset(FieldLeq, cg);
    CanonFieldsAt(f, i);
    assert cf[i] in Sort(FieldLeq, cf);
    assert cf[i] in cg;
    j :| 0 <= j < |cg| && cg[j] == cf[i];
    CanonFieldsAt(g, j);
  }

  /** The normal form is the same for exactly the values that differ in key order only. */
  lemma {:induction false} CanonForgetsKeyOrder(v: Value, w: Value)
    requires IsValue(v) && IsValue(w)
    ensures Canon(v) == Canon(w) <==> SameUpToOrder(v, w)
    decreases v
  {
    match v
    case Arr(items) =>
      if w.Arr? && |items| == |w.items| {
        forall i | 0 <= i < |items|
          ensures CanonItems(items)[i] == CanonItems(w.items)[i] <==> SameUpToOrder(items[i], w.items[i])
        {
          CanonItemsAt(items, i);
          CanonItemsAt(w.items, i);
          CanonForgetsKeyOrder(items[i], w.items[i]);
        }
        if SameUpToOrder(v, w) {
          assert CanonItems(items) == CanonItems(w.items);
        }
      }
    case Obj(fields) =>
      if w.Obj? {
        forall i, j | 0 <= i < |fields| && 0 <= j < |w.fields|
          ensures CanonField(fields[i]) == CanonField(w.fields[j]) <==> SameField(fields[i], w.fields[j])
        {
          CanonForgetsKeyOrder(fields[i].value, w.fields[j].value);
        }
        ObjectForgets(fields, w.fields);
      }
    case _ =>
  }

  lemma {:induction false} ObjectForgets(f: seq<Field>, g: seq<Field>)
    requires DistinctKeys(f) && DistinctKeys(g)
    requires forall i, j :: 0 <= i < |f| && 0 <= j < |g| ==>
               (CanonField(f[i]) == CanonField(g[j]) <==> SameField(f[i], g[j]))
    ensures Canon(Obj(f)) == Canon(Obj(g)) <==> SameUpToOrder(Obj(f), Obj(g))
  {
    hide CanonField, SameField;
    if Canon(Obj(f)) == Canon(Obj(g)) {
      assert SortFields(CanonFields(f)) == SortFields(CanonFields(g));
      SortMultiset(FieldLeq, CanonFields(f));
      SortMultiset(FieldLeq, CanonFields(g));
      forall i | 0 <= i < |f|
        ensures exists j :: 0 <= j < |g| && SameField(f[i], g[j])
      {
        var j := CanonFieldsRecall(f, g, i);
      }
    }
    if SameUpToOrder(Obj(f), Obj(g)) {
      forall i | 0 <= i < |f|
        ensures HasTwin(f[i], g)
      {
        var j :| 0 <= j < |g| && SameField(f[i], g[j]);
      }
      CanonFieldsForget(f, g);
    }
  }

  // ---------- nodes, limits, fixed point ----------

  lemma {:induction false} CanonNodes(v: Value)
    ensures Nodes(Canon(v)) == Nodes(v)
    decreases v, 0
  {
    match v
    case Arr(items) => CanonItemsNodes(items);
    case Obj(fields) =>
      CanonFieldsNodes(fields);
      NodesSort(CanonFields(fields));
    case _ =>
  }

  lemma {:induction false} CanonItemsNodes(items: seq<Value>)
    ensures NodesOfItems(CanonItems(items)) == NodesOfItems(items)
    decreases items, 1
  {
    if items != [] {
      CanonItemsNodes(items[..|items| - 1]);
      CanonNodes(items[|items| - 1]);
      assert CanonItems(items)[..|items| - 1] == CanonItems(items[..|items| - 1]);
    }
  }

  lemma {:induction false} CanonFieldsNodes(fields: seq<Field>)
    ensures NodesOfFields(CanonFields(fields)) == NodesOfFields(fields)
    decreases fields, 1
  {
    if fields != [] {
      CanonFieldsNodes(fields[..|fields| - 1]);
      CanonNodes(fields[|fields| - 1].value);
      assert CanonFields(fields)[..|fields| - 1] == CanonFields(fields[..|fields| - 1]);
    }
  }

  /** Sorting keeps a property that holds of every field. */
  lemma {:induction false} SortedFieldsAll(fields: seq<Field>, p: Field -> bool)
    ensures (forall i :: 0 <= i < |fields| ==> p(fields[i]))
       <==> (forall i :: 0 <= i < |SortFields(fields)| ==> p(SortFields(fields)[i]))
  {
    var sorted := SortFields(fields);
    SortMultiset(FieldLeq, fields);
    if forall i :: 0 <= i < |fields| ==> p(fields[i]) {
      forall i | 0 <= i < |sorted|
        ensures p(sorted[i])
      {
        assert sorted[i] in fields;
      }
    }
    if forall i :: 0 <= i < |sorted| ==> p(sorted[i]) {
      forall i | 0 <= i < |fields|
        ensures p(fields[i])
      {
        assert fields[i] in sorted;
      }
    }
  }

  lemma {:induction false} CanonShaped(v: Value, depth: nat)
    ensures Shaped(Canon(v), depth) <==> Shaped(v, depth)
    decreases v
  {
    match v
    case Arr(items) =>
      forall i | 0 <= i < |items|
        ensures Shaped(CanonItems(items)[i], depth + 1) <==> Shaped(items[i], depth + 1)
      {
        CanonItemsAt(items, i);
        CanonShaped(items[i], depth + 1);
      }
    case Obj(fields) =>
      forall i | 0 <= i < |fields|
        ensures FieldShaped(CanonFields(fields)[i], depth) <==> FieldShaped(fields[i], depth)
      {
        CanonFieldsAt(fields, i);
        CanonShaped(fields[i].value, depth + 1);
      }
      ObjectShaped(fields, depth);
    case _ =>
  }

  lemma {:induction false} ObjectShaped(fields: seq<Field>, depth: nat)
    requires forall i :: 0 <= i < |fields| ==> (FieldShaped(CanonFields(fields)[i], depth) <==> FieldShaped(fields[i], depth))
    ensures Shaped(Canon(Obj(fields)), depth) <==> Shaped(Obj(fields), depth)
  {
    hide FieldShaped;
    var once := CanonFields(fields);
    SortedFieldsAll(once, (f: Field) => FieldShaped(f, depth));
    SortMultiset(FieldLeq, once);
    var p := (f: Field) => FieldShaped(f, depth);
    assert forall i :: 0 <= i < |once| ==> (p(once[i]) <==> FieldShaped(fields[i], depth));
    assert forall i :: 0 <= i < |once| ==> (p(SortFields(once)[i]) <==> FieldShaped(SortFields(once)[i], depth));
  }

  lemma {:induction false} CanonFixed(v: Value)
    ensures Canon(Canon(v)) == Canon(v)
    decreases v
  {
    match v
    case Arr(items) =>
      var once := CanonItems(items);
      forall i | 0 <= i < |items|
        ensures CanonItems(once)[i] == once[i]
      {
        CanonItemsAt(items, i);
        CanonItemsAt(once, i);
        CanonFixed(items[i]);
      }
      assert CanonItems(once) == once;
    case Obj(fields) =>
      var once := CanonFields(fields);
      forall i | 0 <= i < |fields|
        ensures CanonFields(once)[i] == once[i]
      {
        CanonFieldsAt(fields, i);
        CanonFieldsAt(once, i);
        CanonFixed(fields[i].value);
      }
      assert CanonFields(once) == once;
      SortedTwice(once);
    case _ =>
  }

  lemma {:induction false} SortedTwice(once: seq<Field>)
    requires CanonFields(once) == once
    ensures Canon(Obj(SortFields(once))) == Obj(SortFields(once))
  {
    CanonSort(once);
    FieldOrder();
    SortSorted(FieldLeq, once);
    SortFixed(FieldLeq, SortFields(once));
  }

  /** The normal form of metadata within the limits is JSON, is within the limits and normalises to itself. */
  lemma {:induction false} BoundedFormFixed(v: Value)
    requires IsValue(v) && BoundedForm(v).Ok?
    ensures BoundedForm(BoundedForm(v).value) == BoundedForm(v)
    ensures IsJson(BoundedForm(v).value)
  {
    CanonShaped(v, 0);
    CanonNodes(v);
    CanonFixed(v);
    CanonIsJson(v, 0);
  }

  lemma {:induction false} CanonIsJson(v: Value, depth: nat)
    requires IsValue(v) && Shaped(v, depth)
    ensures IsJson(Canon(v))
    decreases v
  {
    match v
    case Arr(items) =>
      forall i | 0 <= i < |items|
        ensures IsJson(CanonItems(items)[i])
      {
        CanonItemsAt(items, i);
        CanonIsJson(items[i], depth + 1);
      }
    case Obj(fields) =>
      forall i | 0 <= i < |fields|
        ensures IsJson(CanonFields(fields)[i].value)
      {
        CanonFieldsAt(fields, i);
        assert FieldShaped(fields[i], depth);
        CanonIsJson(fields[i].value, depth + 1);
      }
      SortedFieldsAll(CanonFields(fields), (f: Field) => IsJson(f.value));
      CanonKeys(fields);
      SortedKeys(CanonFields(fields));
    case _ =>
  }

  lemma {:induction false} SortedKeys(fields: seq<Field>)
    requires DistinctKeys(fields)
    ensures DistinctKeys(SortFields(fields))
  {
    var sorted := SortFields(fields);
    SortMultiset(FieldLeq, fields);
    DistinctSeparates(fields);
    forall i, j | 0 <= i < j < |sorted|
      ensures sorted[i].key != sorted[j].key
    {
      if sorted[i].key == sorted[j].key {
        assert sorted[i] in fields && sorted[j] in fields;
        assert sorted[i] == sorted[j];
        TwiceInMultiset(sorted, i, j);
        NoDuplicatesOnce(fields, sorted[i]);
        assert false;
      }
    }
  }
}
