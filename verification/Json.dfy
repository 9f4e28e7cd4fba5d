/** JavaScript values, JSON.stringify and JSON.parse on texts (RFC 8259). */
module Json {
  import opened Wrappers
  import opened Unicode
  import opened Scanning
  import opened JsonNumbers
  import opened JsonStrings

  /** A value that untyped code may receive. `NonFinite` is NaN or an infinity; `Exotic` is
      anything else that JSON has no notation for (functions, class instances, symbols). */
  datatype Value =
    | Undefined
    | Null
    | Bool(b: bool)
    | Num(x: Float)
    | NonFinite
    | Str(s: Text)
    | Arr(items: seq<Value>)
    | Obj(fields: seq<Field>)
    | Exotic

  /** An own enumerable property, in property order. */
  datatype Field = Field(key: Text, value: Value)

  predicate DistinctKeys(fields: seq<Field>) {
    forall i, j :: 0 <= i < j < |fields| ==> fields[i].key != fields[j].key
  }

  /** A value that JSON can write down. */
  predicate IsJson(v: Value) {
    match v
    case Undefined => false
    case NonFinite => false
    case Exotic => false
    case Num(x) => ValidFloat(x)
    case Arr(items) => forall i :: 0 <= i < |items| ==> IsJson(items[i])
    case Obj(fields) => DistinctKeys(fields) && forall i :: 0 <= i < |fields| ==> IsJson(fields[i].value)
    case _ => true
  }

  /** What every JavaScript value satisfies: its objects have one property for a key, and its
      numbers are doubles. */
  predicate IsValue(v: Value) {
    match v
    case Num(x) => ValidFloat(x)
    case Arr(items) => forall i :: 0 <= i < |items| ==> IsValue(items[i])
    case Obj(fields) => DistinctKeys(fields) && forall i :: 0 <= i < |fields| ==> IsValue(fields[i].value)
    case _ => true
  }

  // ---------- printing ----------

  const COMMA: CodeUnit := 0x2C
  const COLON: CodeUnit := 0x3A
  const OPEN_ARRAY: CodeUnit := 0x5B
  const CLOSE_ARRAY: CodeUnit := 0x5D
  const OPEN_OBJECT: CodeUnit := 0x7B
  const CLOSE_OBJECT: CodeUnit := 0x7D

  const TRUE: Text := [0x74, 0x72, 0x75, 0x65]
  const FALSE: Text := [0x66, 0x61, 0x6C, 0x73, 0x65]
  const NULL: Text := [0x6E, 0x75, 0x6C, 0x6C]

  function Print(v: Value): Text
    decreases v, 0
  {
    match v
    case Bool(b) => if b then TRUE else FALSE
    case Num(x) => PrintFloat(x)
    case Str(s) => Quote(s)
    case Arr(items) => [OPEN_ARRAY] + PrintItems(items) + [CLOSE_ARRAY]
    case Obj(fields) => [OPEN_OBJECT] + PrintFields(fields) + [CLOSE_OBJECT]
    case _ => NULL
  }

  function PrintItems(items: seq<Value>): Text
    decreases items, 1
  {
    if items == [] then []
    else if |items| == 1 then Print(items[0])
    else Print(items[0]) + [COMMA] + PrintItems(items[1..])
  }

  function PrintField(f: Field): Text
    decreases f, 0
  {
    Quote(f.key) + [COLON] + Print(f.value)
  }

  function PrintFields(fields: seq<Field>): Text
    decreases fields, 1
  {
    if fields == [] then []
    else if |fields| == 1 then PrintField(fields[0])
    else PrintField(fields[0]) + [COMMA] + PrintFields(fields[1..])
  }

  // ---------- reading ----------

  predicate IsSpace(u: CodeUnit) { u == 0x20 || u == 0x09 || u == 0x0A || u == 0x0D }

  function SkipSpace(s: Text): (t: Text)
    ensures |t| <= |s|
    ensures t == [] || !IsSpace(t[0])
  {
    if s != [] && IsSpace(s[0]) then SkipSpace(s[1..]) else s
  }

  predicate StartsWith(s: Text, u: CodeUnit) { s != [] && s[0] == u }

  predicate HasPrefix(s: Text, p: Text) { |p| <= |s| && s[..|p|] == p }

  /** A property of an object literal: a repeated key keeps its place and takes the new value. */
  function Put(fields: seq<Field>, key: Text, value: Value): seq<Field> {
    if fields == [] then [Field(key, value)]
    else if fields[0].key == key then [Field(key, value)] + fields[1..]
    else [fields[0]] + Put(fields[1..], key, value)
  }

  function ReadValue(text: Text): (r: Read<Value>)
    ensures r.Got? ==> |r.rest| < |text|
    decreases |text|, 0
  {
    var s := SkipSpace(text);
    if s == [] then Bad
    else if s[0] == QUOTE then
      match ReadChars(s[1..])
      case Bad => Bad
      case Got(t, rest) => Got(Str(t), rest)
    else if s[0] == OPEN_ARRAY then
      var t := SkipSpace(s[1..]);
      if StartsWith(t, CLOSE_ARRAY) then Got(Arr([]), t[1..]) else ReadItems(s[1..], [])
    else if s[0] == OPEN_OBJECT then
      var t := SkipSpace(s[1..]);
      if StartsWith(t, CLOSE_OBJECT) then Got(Obj([]), t[1..]) else ReadFields(s[1..], [])
    else if HasPrefix(s, TRUE) then Got(Bool(true), s[4..])
    else if HasPrefix(s, FALSE) then Got(Bool(false), s[5..])
    else if HasPrefix(s, NULL) then Got(Null, s[4..])
    else
      match ReadFloat(s)
      case Bad => Bad
      case Got(x, rest) => Got(Num(x), rest)
  }

  /** The items of an array up to and including the closing bracket. */
  function ReadItems(s: Text, before: seq<Value>): (r: Read<Value>)
    ensures r.Got? ==> |r.rest| < |s|
    decreases |s|, 1
  {
    match ReadValue(s)
    case Bad => Bad
    case Got(v, t) =>
      var u := SkipSpace(t);
      if StartsWith(u, COMMA) then ReadItems(u[1..], before + [v])
      else if StartsWith(u, CLOSE_ARRAY) then Got(Arr(before + [v]), u[1..])
      else Bad
  }

  /** One property: a quoted key, a colon and a value. */
  function ReadField(s: Text): (r: Read<Field>)
    ensures r.Got? ==> |r.rest| < |s|
    decreases |s|, 1
  {
    var t := SkipSpace(s);
    if !StartsWith(t, QUOTE) then Bad
    else
      match ReadChars(t[1..])
      case Bad => Bad
      case Got(key, u) =>
        var w := SkipSpace(u);
        if !StartsWith(w, COLON) then Bad
        else
          match ReadValue(w[1..])
          case Bad => Bad
          case Got(v, rest) => Got(Field(key, v), rest)
  }

  /** The properties of an object up to and including the closing brace. */
  function ReadFields(s: Text, before: seq<Field>): (r: Read<Value>)
    ensures r.Got? ==> |r.rest| < |s|
    decreases |s|, 2
  {
    match ReadField(s)
    case Bad => Bad
    case Got(f, t) =>
      var u := SkipSpace(t);
      var fields := Put(before, f.key, f.value);
      if StartsWith(u, COMMA) then ReadFields(u[1..], fields)
      else if StartsWith(u, CLOSE_OBJECT) then Got(Obj(fields), u[1..])
      else Bad
  }

  /** JSON.parse: one value and nothing but white space around it. */
  function Parse(text: Text): Option<Value> {
    match ReadValue(text)
    case Bad => None
    case Got(v, rest) => if SkipSpace(rest) == [] then Some(v) else None
  }

  // ---------- round trip ----------

  /** What follows a value inside a document. */
  predicate EndsValue(rest: Text) {
    rest == [] || rest[0] == COMMA || rest[0] == CLOSE_ARRAY || rest[0] == CLOSE_OBJECT
  }

  lemma {:induction false} PutFresh(fields: seq<Field>, f: Field)
    requires forall i :: 0 <= i < |fields| ==> fields[i].key != f.key
    ensures Put(fields, f.key, f.value) == fields + [f]
  {
    if fields != [] {
      PutFresh(fields[1..], f);
    }
  }

  /** The first unit of a printed value tells the reader which case it is in. */
  lemma {:induction false} PrintStart(v: Value)
    requires IsJson(v)
    ensures Print(v) != [] && !IsSpace(Print(v)[0])
    ensures Print(v)[0] != CLOSE_ARRAY && Print(v)[0] != CLOSE_OBJECT
  {
    if v.Num? {
      FloatLength(v.x);
    }
  }

  lemma {:induction false} FieldsStart(fields: seq<Field>)
    requires fields != []
    ensures PrintFields(fields) != [] && PrintFields(fields)[0] == QUOTE
  {
    assert PrintField(fields[0])[0] == QUOTE;
  }

  lemma {:induction false} AtomRoundTrip(v: Value, rest: Text)
    requires IsJson(v) && !v.Arr? && !v.Obj? && EndsValue(rest)
    ensures ReadValue(Print(v) + rest) == Got(v, rest)
  {
    hide ReadFloat, PrintFloat, ReadChars, EscapeAll;
    PrintStart(v);
    var t := Print(v) + rest;
    assert t[0] == Print(v)[0];
    match v
    case Num(x) =>
      FloatLength(x);
      FloatRoundTrip(x, rest);
    case Str(s) =>
      assert t[1..] == EscapeAll(s) + [QUOTE] + rest;
      CharsRoundTrip(s, rest);
    case Bool(b) =>
      if b {
        assert t[..4] == TRUE && t[4..] == rest;
      } else {
        assert t[..5] == FALSE && t[5..] == rest;
      }
    case Null =>
      assert t[..4] == NULL && t[4..] == rest;
  }

  /** A bracket hands over to the reader of its contents. */
  lemma {:induction false} OpenArray(inner: Text)
    requires inner != [] && !IsSpace(inner[0])
    ensures ReadValue([OPEN_ARRAY] + inner)
         == if inner[0] == CLOSE_ARRAY then Got(Arr([]), inner[1..]) else ReadItems(inner, [])
  {
    hide ReadItems, ReadFields, ReadFloat, ReadChars;
    assert ([OPEN_ARRAY] + inner)[1..] == inner;
  }

  lemma {:induction false} OpenObject(inner: Text)
    requires inner != [] && !IsSpace(inner[0])
    ensures ReadValue([OPEN_OBJECT] + inner)
         == if inner[0] == CLOSE_OBJECT then Got(Obj([]), inner[1..]) else ReadFields(inner, [])
  {
    hide ReadItems, ReadFields, ReadFloat, ReadChars;
    assert ([OPEN_OBJECT] + inner)[1..] == inner;
  }

  lemma {:induction false} ValueRoundTrip(v: Value, rest: Text)
    requires IsJson(v) && EndsValue(rest)
    ensures ReadValue(Print(v) + rest) == Got(v, rest)
    decreases v, 0
  {
    hide ReadValue, ReadItems, ReadFields;
    match v
    case Arr(items) =>
      var inner := PrintItems(items) + [CLOSE_ARRAY] + rest;
      assert Print(v) + rest == [OPEN_ARRAY] + inner;
      if items == [] {
        assert inner == [CLOSE_ARRAY] + rest && inner[1..] == rest;
      } else {
        PrintStart(items[0]);
        assert inner[0] == Print(items[0])[0];
        ItemsRoundTrip(items, [], rest);
        assert [] + items == items;
      }
      OpenArray(inner);
    case Obj(fields) =>
      var inner := PrintFields(fields) + [CLOSE_OBJECT] + rest;
      assert Print(v) + rest == [OPEN_OBJECT] + inner;
      if fields == [] {
        assert inner == [CLOSE_OBJECT] + rest && inner[1..] == rest;
      } else {
        FieldsStart(fields);
        assert inner[0] == PrintFields(fields)[0];
        FieldsRoundTrip(fields, [], rest);
        assert [] + fields == fields;
      }
      OpenObject(inner);
    case _ =>
      AtomRoundTrip(v, rest);
  }

  lemma {:induction false} ItemsRoundTrip(items: seq<Value>, before: seq<Value>, rest: Text)
    requires items != [] && forall i :: 0 <= i < |items| ==> IsJson(items[i])
    ensures ReadItems(PrintItems(items) + [CLOSE_ARRAY] + rest, before) == Got(Arr(before + items), rest)
    decreases items, 1
  {
    hide ReadValue, Print;
    var t := PrintItems(items) + [CLOSE_ARRAY] + rest;
    if |items| == 1 {
      var tail := [CLOSE_ARRAY] + rest;
      ValueRoundTrip(items[0], tail);
      assert t == Print(items[0]) + tail;
      assert tail[1..] == rest && items == [items[0]];
    } else {
      var more := PrintItems(items[1..]) + [CLOSE_ARRAY] + rest;
      var tail := [COMMA] + more;
      ValueRoundTrip(items[0], tail);
      assert t == Print(items[0]) + tail;
      assert tail[1..] == more;
      ItemsRoundTrip(items[1..], before + [items[0]], rest);
      assert before + [items[0]] + items[1..] == before + items;
    }
  }

  lemma {:induction false} FieldRoundTrip(f: Field, rest: Text)
    requires IsJson(f.value) && EndsValue(rest)
    ensures ReadField(PrintField(f) + rest) == Got(f, rest)
    decreases f, 0
  {
    hide ReadValue, Print, ReadChars, EscapeAll;
    var t := PrintField(f) + rest;
    var afterKey := [COLON] + (Print(f.value) + rest);
    assert t[0] == QUOTE;
    assert t[1..] == EscapeAll(f.key) + [QUOTE] + afterKey;
    CharsRoundTrip(f.key, afterKey);
    assert afterKey[1..] == Print(f.value) + rest;
    ValueRoundTrip(f.value, rest);
  }

  lemma {:induction false} FieldsRoundTrip(fields: seq<Field>, before: seq<Field>, rest: Text)
    requires fields != [] && DistinctKeys(before + fields)
    requires forall i :: 0 <= i < |fields| ==> IsJson(fields[i].value)
    ensures ReadFields(PrintFields(fields) + [CLOSE_OBJECT] + rest, before) == Got(Obj(before + fields), rest)
    decreases fields, 1
  {
    hide ReadField, PrintField;
    var t := PrintFields(fields) + [CLOSE_OBJECT] + rest;
    assert forall i :: 0 <= i < |before| ==> (before + fields)[i] == before[i];
    assert (before + fields)[|before|] == fields[0];
    PutFresh(before, fields[0]);
    if |fields| == 1 {
      var tail := [CLOSE_OBJECT] + rest;
      FieldRoundTrip(fields[0], tail);
      assert t == PrintField(fields[0]) + tail;
      assert tail[1..] == rest && fields == [fields[0]];
    } else {
      var more := PrintFields(fields[1..]) + [CLOSE_OBJECT] + rest;
      var tail := [COMMA] + more;
      FieldRoundTrip(fields[0], tail);
      assert t == PrintField(fields[0]) + tail;
      assert tail[1..] == more;
      assert before + [fields[0]] + fields[1..] == before + fields;
      FieldsRoundTrip(fields[1..], before + [fields[0]], rest);
    }
  }

  /** JSON.parse inverts JSON.stringify on every JSON value. */
  lemma RoundTrip(v: Value)
    requires IsJson(v)
    ensures Parse(Print(v)) == Some(v)
  {
    ValueRoundTrip(v, []);
    assert Print(v) + [] == Print(v);
  }

  /** Different JSON values print differently. */
  lemma PrintInjective(v: Value, w: Value)
    requires IsJson(v) && IsJson(w)
    ensures Print(v) == Print(w) <==> v == w
  {
    RoundTrip(v);
    RoundTrip(w);
  }
}
