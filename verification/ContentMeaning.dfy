/** normalizeContentEvent as a relation between what came in and what comes out: an input is accepted exactly when
    some event is read from it, and the event says of every property what it was. */
module ContentMeaning {
  import opened Wrappers
  import opened Unicode
  import opened JsonNumbers
  import opened Json
  import opened Validators
  import opened Patterns
  import opened CheckPatterns
  import opened Ordering
  import opened BoundedJson
  import opened BoundedForms
  import opened ContentEvent
  import opened ContentRoundTrip
  import opened ContentSize

  // ---------- the lines of a text ----------

  /** Split at each line feed. */
  function SplitLf(s: Text): (lines: seq<Text>)
    ensures lines != []
  {
    if s == [] then [[]]
    else
      var more := SplitLf(s[1..]);
      if s[0] == 0x0A then [[]] + more else [[s[0]] + more[0]] + more[1..]
  }

  /** Split at each line break: carriage return and line feed, or one of them alone. */
  function Lines(s: Text): (lines: seq<Text>)
    ensures lines != []
  {
    if s == [] then [[]]
    else if |s| >= 2 && s[0] == 0x0D && s[1] == 0x0A then [[]] + Lines(s[2..])
    else if s[0] == 0x0D || s[0] == 0x0A then [[]] + Lines(s[1..])
    else
      var more := Lines(s[1..]);
      [[s[0]] + more[0]] + more[1..]
  }

  lemma {:induction false} SplitLfFront(u: CodeUnit, s: Text)
    ensures SplitLf([u] + s) == if u == 0x0A then [[]] + SplitLf(s) else [[u] + SplitLf(s)[0]] + SplitLf(s)[1..]
  {
    assert ([u] + s)[1..] == s;
  }

  lemma {:induction false} FoldKeepsLines(s: Text)
    ensures SplitLf(FoldNewlines(s)) == Lines(s)
  {
    if s != [] {
      if |s| >= 2 && s[0] == 0x0D && s[1] == 0x0A {
        FoldKeepsLines(s[2..]);
        SplitLfFront(0x0A, FoldNewlines(s[2..]));
      } else {
        FoldKeepsLines(s[1..]);
        SplitLfFront(if s[0] == 0x0D then 0x0A else s[0], FoldNewlines(s[1..]));
      }
    }
  }

  lemma {:induction false} LinesDetermine(t: Text, u: Text)
    requires SplitLf(t) == SplitLf(u)
    ensures t == u
  {
    if t == [] || u == [] {
      LinesOfNothing(t);
      LinesOfNothing(u);
    } else {
      var a, b := SplitLf(t), SplitLf(u);
      assert a[0] == b[0];
      var x, y := SplitLf(t[1..]), SplitLf(u[1..]);
      assert (t[0] == 0x0A) == (a[0] == []) && (u[0] == 0x0A) == (b[0] == []);
      if t[0] == 0x0A {
        assert x == a[1..] == b[1..] == y;
      } else {
        assert x[0] == a[0][1..] == b[0][1..] == y[0];
        assert x == [x[0]] + a[1..] && y == [y[0]] + b[1..];
      }
      LinesDetermine(t[1..], u[1..]);
      assert t == [t[0]] + t[1..] && u == [u[0]] + u[1..];
    }
  }

  lemma LinesOfNothing(t: Text)
    ensures SplitLf(t) == [[]] <==> t == []
  {
  }

  /** The fold of a text is the one text whose lines at line feeds are its lines at any break. */
  lemma FoldIsLines(s: Text, t: Text)
    ensures FoldNewlines(s) == t <==> SplitLf(t) == Lines(s)
  {
    FoldKeepsLines(s);
    if SplitLf(t) == Lines(s) {
      LinesDetermine(t, FoldNewlines(s));
    }
  }

  // ---------- what is read ----------

  /** At most a thousand units, and no control character but tab, line feed and carriage return. */
  predicate GoodText(t: Text) { |t| <= 1000 && forall i :: 0 <= i < |t| ==> !InRanges(t[i], CONTROLS) }

  predicate AllSpace(t: Text) { forall i :: 0 <= i < |t| ==> InRanges(t[i], SPACES) }

  predicate ReadsText(v: Value, t: Option<Text>) {
    if v.Str? then t.Some? && SplitLf(t.value) == Lines(v.s) && GoodText(t.value) else t.None?
  }

  predicate ReadsId(v: Value, id: Text) { v == Str(id) && Matches(ID_PATTERN, id) }

  predicate ReadsShort(v: Value, t: Text, most: nat) { v == Str(t) && 1 <= |t| <= most }

  predicate ReadsNumber(v: Value, x: Float, low: real, high: real) { v == Num(x) && low <= RealOf(x) <= high }

  /** JSON with at most `levels` levels below, at most 64 items or properties at each place, strings of at most 4096
      units, and names of at most 80 units that are not those of the object prototype. */
  predicate Modest(v: Value, levels: nat) {
    match v
    case Undefined => false
    case NonFinite => false
    case Exotic => false
    case Str(s) => |s| <= 4096
    case Arr(items) => |items| <= 64 && forall i :: 0 <= i < |items| ==> levels > 0 && Modest(items[i], levels - 1)
    case Obj(fields) => |fields| <= 64 && forall i :: 0 <= i < |fields| ==> levels > 0 && ModestField(fields[i], levels - 1)
    case _ => true
  }

  predicate ModestField(f: Field, levels: nat) {
    |f.key| <= 80 && f.key !in {Lit("__proto__"), Lit("constructor"), Lit("prototype")} && Modest(f.value, levels)
  }

  /** How many values there are in all. */
  function Count(v: Value): nat
    decreases v, 0
  {
    match v
    case Arr(items) => 1 + CountItems(items)
    case Obj(fields) => 1 + CountFields(fields)
    case _ => 1
  }

  function CountItems(items: seq<Value>): nat
    decreases items, 1
  {
    if items == [] then 0 else Count(items[0]) + CountItems(items[1..])
  }

  function CountFields(fields: seq<Field>): nat
    decreases fields, 1
  {
    if fields == [] then 0 else Count(fields[0].value) + CountFields(fields[1..])
  }

  /** The metadata, with the properties of its objects in order. */
  predicate ReadsMetadata(v: Value, m: Option<Value>) {
    if v.Undefined? then m.None?
    else m.Some? && IsJson(m.value) && SameUpToOrder(v, m.value) && DeepAscending(m.value) && Modest(v, 5) && Count(v) <= 256
  }

  /** The objects of a value have their keys in code-unit order, at every depth. */
  predicate DeepAscending(v: Value) {
    match v
    case Arr(items) => forall i :: 0 <= i < |items| ==> DeepAscending(items[i])
    case Obj(fields) =>
      && (forall i, j :: 0 <= i < j < |fields| ==> Before(fields[i].key, fields[j].key))
      && forall i :: 0 <= i < |fields| ==> DeepAscending(fields[i].value)
    case _ => true
  }

  predicate Among(fields: seq<Field>, names: set<Text>) { forall i :: 0 <= i < |fields| ==> fields[i].key in names }

  predicate ReadsLocation(fields: seq<Field>, a: Attachment) {
    && a.Location? && Among(fields, {Lit("kind"), Lit("latitude"), Lit("longitude"), Lit("accuracy")})
    && ReadsNumber(Get(fields, Lit("latitude")), a.latitude, -90.0, 90.0)
    && ReadsNumber(Get(fields, Lit("longitude")), a.longitude, -180.0, 180.0)
    && (if Get(fields, Lit("accuracy")).Undefined? then a.accuracy.None?
        else a.accuracy.Some? && ReadsNumber(Get(fields, Lit("accuracy")), a.accuracy.value, 0.0, 100000.0))
  }

  predicate ReadsEntity(fields: seq<Field>, a: Attachment) {
    && a.Entity? && Among(fields, {Lit("kind"), Lit("entityType"), Lit("id"), Lit("snapshot")})
    && Get(fields, Lit("entityType")) == Str(a.entityType) && a.entityType in {Lit("account"), Lit("publicPage"), Lit("event")}
    && ReadsId(Get(fields, Lit("id")), a.entityId)
    && ReadsMetadata(Get(fields, Lit("snapshot")), a.snapshot)
    && Utf8Length(Print(AttachmentValue(a))) <= 32768
  }

  predicate ReadsMusic(fields: seq<Field>, a: Attachment) {
    && a.Music? && Among(fields, {Lit("kind"), Lit("provider"), Lit("id"), Lit("title"), Lit("artist"), Lit("metadata")})
    && Get(fields, Lit("provider")) == Str(a.provider)
    && a.provider in {Lit("apple"), Lit("yandex"), Lit("youtube"), Lit("volna"), Lit("soundcloud"), Lit("bandcamp")}
    && ReadsShort(Get(fields, Lit("id")), a.trackId, 1000)
    && ReadsShort(Get(fields, Lit("title")), a.title, 500)
    && ReadsShort(Get(fields, Lit("artist")), a.artist, 500)
    && ReadsMetadata(Get(fields, Lit("metadata")), a.metadata)
    && Utf8Length(Print(AttachmentValue(a))) <= 32768
  }

  predicate ReadsAttachment(v: Value, a: Option<Attachment>) {
    if v.Undefined? || v.Null? then a.None?
    else
      && v.Obj? && a.Some?
      && match a.value
         case Location(_, _, _) => Get(v.fields, Lit("kind")) == Str(Lit("location")) && ReadsLocation(v.fields, a.value)
         case Entity(_, _, _) => Get(v.fields, Lit("kind")) == Str(Lit("entity")) && ReadsEntity(v.fields, a.value)
         case Music(_, _, _, _, _) => Get(v.fields, Lit("kind")) == Str(Lit("music")) && ReadsMusic(v.fields, a.value)
  }

  predicate AmongEvent(fields: seq<Field>, more: set<Text>) {
    Among(fields, {Lit("v"), Lit("kind"), Lit("logicalMessageId"), Lit("clientCreatedAt")} + more)
  }

  predicate ReadsCreate(fields: seq<Field>, b: Body) {
    && b.Create? && AmongEvent(fields, {Lit("text"), Lit("attachment")})
    && ReadsText(Get(fields, Lit("text")), b.text) && ReadsAttachment(Get(fields, Lit("attachment")), b.attachment)
    && (b.attachment.Some? || (b.text.Some? && !AllSpace(b.text.value)))
  }

  predicate ReadsEdit(fields: seq<Field>, b: Body) {
    && b.Edit? && AmongEvent(fields, {Lit("targetLogicalMessageId"), Lit("text")})
    && ReadsId(Get(fields, Lit("targetLogicalMessageId")), b.target)
    && ReadsText(Get(fields, Lit("text")), Some(b.newText)) && !AllSpace(b.newText)
  }

  predicate ReadsReaction(fields: seq<Field>, b: Body) {
    && b.Reaction? && AmongEvent(fields, {Lit("targetLogicalMessageId"), Lit("emoji")})
    && ReadsId(Get(fields, Lit("targetLogicalMessageId")), b.target)
    && (if Get(fields, Lit("emoji")).Null? then b.emoji.None?
        else b.emoji.Some? && ReadsShort(Get(fields, Lit("emoji")), b.emoji.value, 32))
  }

  predicate ReadsDelete(fields: seq<Field>, b: Body) {
    b.Delete? && AmongEvent(fields, {Lit("targetLogicalMessageId")}) && ReadsId(Get(fields, Lit("targetLogicalMessageId")), b.target)
  }

  predicate ReadsBody(fields: seq<Field>, b: Body) {
    match b
    case Create(_, _) => Get(fields, Lit("kind")) == Str(Lit("message.create")) && ReadsCreate(fields, b)
    case Edit(_, _) => Get(fields, Lit("kind")) == Str(Lit("message.edit")) && ReadsEdit(fields, b)
    case Reaction(_, _) => Get(fields, Lit("kind")) == Str(Lit("message.reaction")) && ReadsReaction(fields, b)
    case Delete(_) => Get(fields, Lit("kind")) == Str(Lit("message.delete")) && ReadsDelete(fields, b)
  }

  predicate ReadsDate(parses: Text -> bool, v: Value, date: Text) {
    v == Str(date) && Matches(ISO_DATE_PATTERN, date) && parses(date)
  }

  predicate IsVersionOne(fields: seq<Field>) { Get(fields, Lit("v")) == Num(ONE) }

  predicate ReadsWhen(parses: Text -> bool, fields: seq<Field>, date: Text) {
    ReadsDate(parses, Get(fields, Lit("clientCreatedAt")), date)
  }

  predicate ReadsName(fields: seq<Field>, id: Text) { ReadsId(Get(fields, Lit("logicalMessageId")), id) }

  /** Event `e` is what the properties of `v` say. */
  predicate Reads(parses: Text -> bool, v: Value, e: Event) {
    && v.Obj? && IsVersionOne(v.fields) && ReadsWhen(parses, v.fields, e.clientCreatedAt) && ReadsBody(v.fields, e.body)
    && ReadsName(v.fields, e.logicalMessageId)
  }

  // ---------- part by part ----------

  lemma GoodIsClean(t: Text)
    ensures GoodText(t) <==> CleanText(t)
  {
    hide InRanges, IsControl;
    forall u
      ensures InRanges(u, CONTROLS) <==> IsControl(u)
    {
      ControlIsPattern(u);
    }
  }

  lemma SpaceIsBlank(t: Text)
    ensures AllSpace(t) <==> IsBlank(t)
  {
    hide InRanges, IsTrimmed;
    forall u
      ensures InRanges(u, SPACES) <==> IsTrimmed(u)
    {
      SpaceAdmits(u);
    }
  }

  lemma TextExact(v: Value, t: Option<Text>)
    ensures NormalizeText(v) == Ok(t) <==> ReadsText(v, t)
  {
    hide FoldNewlines, CleanText, GoodText, Lines, SplitLf;
    if v.Str? && t.Some? {
      FoldIsLines(v.s, t.value);
      GoodIsClean(t.value);
    }
  }

  lemma RequiredTextExact(v: Value, t: Text)
    ensures NormalizeRequiredText(v) == Ok(t) <==> ReadsText(v, Some(t)) && !AllSpace(t)
  {
    hide NormalizeText, ReadsText, IsBlank, AllSpace;
    TextExact(v, Some(t));
    SpaceIsBlank(t);
  }

  lemma IdExact(v: Value, id: Text, code: string)
    ensures AsId(v, code) == Ok(id) <==> ReadsId(v, id)
  {
    hide IsId, Matches;
    IdIsPattern(id);
  }

  lemma {:induction false} ModestIsShaped(v: Value, depth: nat)
    requires depth <= 5
    ensures Modest(v, 5 - depth) <==> Shaped(v, depth)
    decreases v
  {
    match v
    case Arr(items) =>
      if depth < 5 {
        forall i | 0 <= i < |items|
          ensures Modest(items[i], 4 - depth) <==> Shaped(items[i], depth + 1)
        {
          ModestIsShaped(items[i], depth + 1);
        }
      } else if items != [] {
        assert !Shaped(items[0], 6);
      }
    case Obj(fields) =>
      if depth < 5 {
        forall i | 0 <= i < |fields|
          ensures ModestField(fields[i], 4 - depth) <==> FieldShaped(fields[i], depth)
        {
          ModestIsShaped(fields[i].value, depth + 1);
          ForbiddenNames(fields[i].key);
        }
      } else if fields != [] {
        assert !FieldShaped(fields[0], 5);
      }
    case _ =>
  }

  lemma ForbiddenNames(key: Text)
    ensures Forbidden(key) <==> key in {Lit("__proto__"), Lit("constructor"), Lit("prototype")}
  {
  }

  lemma {:induction false} ItemsBack(items: seq<Value>)
    requires items != []
    ensures CountItems(items) == CountItems(items[..|items| - 1]) + Count(items[|items| - 1])
    decreases |items|
  {
    hide Count;
    if |items| > 1 {
      ItemsBack(items[1..]);
      assert items[1..][..|items| - 2] == items[..|items| - 1][1..];
    }
  }

  lemma {:induction false} FieldsBack(fields: seq<Field>)
    requires fields != []
    ensures CountFields(fields) == CountFields(fields[..|fields| - 1]) + Count(fields[|fields| - 1].value)
    decreases |fields|
  {
    hide Count;
    if |fields| > 1 {
      FieldsBack(fields[1..]);
      assert fields[1..][..|fields| - 2] == fields[..|fields| - 1][1..];
    }
  }

  lemma {:induction false} CountIsNodes(v: Value)
    ensures Count(v) == Nodes(v)
    decreases v, 0
  {
    match v
    case Arr(items) => CountIsNodesOfItems(items);
    case Obj(fields) => CountIsNodesOfFields(fields);
    case _ =>
  }

  lemma {:induction false} CountIsNodesOfItems(items: seq<Value>)
    ensures CountItems(items) == NodesOfItems(items)
    decreases items, 1
  {
    if items != [] {
      ItemsBack(items);
      CountIsNodesOfItems(items[..|items| - 1]);
      CountIsNodes(items[|items| - 1]);
    }
  }

  lemma {:induction false} CountIsNodesOfFields(fields: seq<Field>)
    ensures CountFields(fields) == NodesOfFields(fields)
    decreases fields, 1
  {
    if fields != [] {
      FieldsBack(fields);
      CountIsNodesOfFields(fields[..|fields| - 1]);
      CountIsNodes(fields[|fields| - 1].value);
    }
  }

  lemma {:induction false} CanonAscends(v: Value)
    requires IsValue(v)
    ensures DeepAscending(Canon(v))
    decreases v
  {
    hide Before;
    match v
    case Arr(items) =>
      forall i | 0 <= i < |items|
        ensures DeepAscending(CanonItems(items)[i])
      {
        CanonItemsAt(items, i);
        CanonAscends(items[i]);
      }
    case Obj(fields) =>
      forall i | 0 <= i < |fields|
        ensures DeepAscending(CanonFields(fields)[i].value)
      {
        CanonFieldsAt(fields, i);
        CanonAscends(fields[i].value);
      }
      SortedFieldsAll(CanonFields(fields), (f: Field) => DeepAscending(f.value));
      CanonKeys(fields);
      FieldsAscend(CanonFields(fields));
    case _ =>
  }

  lemma FieldsAscend(fields: seq<Field>)
    requires DistinctKeys(fields)
    ensures var sorted := SortFields(fields);
      forall i, j :: 0 <= i < j < |sorted| ==> Before(sorted[i].key, sorted[j].key)
  {
    hide Before;
    var sorted := SortFields(fields);
    FieldOrder();
    SortSorted(FieldLeq, fields);
    SortedKeys(fields);
    forall i, j | 0 <= i < j < |sorted|
      ensures Before(sorted[i].key, sorted[j].key)
    {
      assert FieldLeq(sorted[i], sorted[j]);
      BeforeIsLess(sorted[i].key, sorted[j].key);
    }
  }

  /** Values in order are their own normal form. */
  lemma {:induction false} AscendingIsCanon(v: Value)
    requires IsValue(v) && DeepAscending(v)
    ensures Canon(v) == v
    decreases v
  {
    hide Before;
    match v
    case Arr(items) =>
      forall i | 0 <= i < |items|
        ensures CanonItems(items)[i] == items[i]
      {
        CanonItemsAt(items, i);
        AscendingIsCanon(items[i]);
      }
      assert CanonItems(items) == items;
    case Obj(fields) =>
      forall i | 0 <= i < |fields|
        ensures CanonFields(fields)[i] == fields[i]
      {
        CanonFieldsAt(fields, i);
        AscendingIsCanon(fields[i].value);
      }
      assert CanonFields(fields) == fields;
      AscendingIsSorted(fields);
    case _ =>
  }

  lemma AscendingIsSorted(fields: seq<Field>)
    requires forall i, j :: 0 <= i < j < |fields| ==> Before(fields[i].key, fields[j].key)
    ensures SortFields(fields) == fields
  {
    hide Before;
    FieldOrder();
    forall i, j | 0 <= i < j < |fields|
      ensures FieldLeq(fields[i], fields[j])
    {
      BeforeIsLess(fields[i].key, fields[j].key);
    }
    SortFixed(FieldLeq, fields);
  }

  lemma MetadataExact(v: Value, m: Option<Value>)
    requires IsValue(v)
    ensures OptionalMetadata(v) == Ok(m) <==> ReadsMetadata(v, m)
  {
    hide Shaped, Nodes, Canon, SameUpToOrder, IsJson, IsValue, Modest, Count, DeepAscending;
    if !v.Undefined? {
      ModestIsShaped(v, 0);
      CountIsNodes(v);
      CanonFixed(v);
      CanonAscends(v);
      if Within(v) {
        BoundedFormFixed(v);
        JsonIsValue(Canon(v));
        CanonForgetsKeyOrder(v, Canon(v));
      }
      if m.Some? && IsJson(m.value) {
        JsonIsValue(m.value);
        CanonForgetsKeyOrder(v, m.value);
        if DeepAscending(m.value) {
          AscendingIsCanon(m.value);
        }
      }
    }
  }

  lemma LocationExact(fields: seq<Field>, a: Attachment)
    ensures NormalizeLocation(fields) == Ok(a) <==> ReadsLocation(fields, a)
  {
    hide Get, RealOf, Lit;
  }

  lemma EntityExact(fields: seq<Field>, a: Attachment)
    requires forall i :: 0 <= i < |fields| ==> IsValue(fields[i].value)
    ensures NormalizeEntity(fields) == Ok(a) <==> ReadsEntity(fields, a)
  {
    hide Get, IsId, OptionalMetadata, ReadsMetadata, Utf8Length, Print, AttachmentValue, Lit, Matches;
    GetIsValue(fields, K_SNAPSHOT);
    if a.Entity? {
      IdExact(Get(fields, K_ID), a.entityId, "attachment_entity_id");
      MetadataExact(Get(fields, K_SNAPSHOT), a.snapshot);
    }
  }

  lemma MusicExact(fields: seq<Field>, a: Attachment)
    requires forall i :: 0 <= i < |fields| ==> IsValue(fields[i].value)
    ensures NormalizeMusic(fields) == Ok(a) <==> ReadsMusic(fields, a)
  {
    hide Get, OptionalMetadata, ReadsMetadata, Utf8Length, Print, AttachmentValue, Lit;
    GetIsValue(fields, K_METADATA);
    if a.Music? {
      MetadataExact(Get(fields, K_METADATA), a.metadata);
    }
  }

  lemma AttachmentExact(v: Value, a: Option<Attachment>)
    requires IsValue(v)
    ensures NormalizeAttachment(v) == Ok(a) <==> ReadsAttachment(v, a)
  {
    hide Get, NormalizeLocation, NormalizeEntity, NormalizeMusic, ReadsLocation, ReadsEntity, ReadsMusic, Lit, IsValue;
    KindNames();
    if v.Obj? && a.Some? {
      assert forall i :: 0 <= i < |v.fields| ==> IsValue(v.fields[i].value) by { FieldsAreValues(v); }
      LocationExact(v.fields, a.value);
      EntityExact(v.fields, a.value);
      MusicExact(v.fields, a.value);
      AttachmentKinds(v.fields, a.value);
    }
  }

  lemma FieldsAreValues(v: Value)
    requires IsValue(v) && v.Obj?
    ensures forall i :: 0 <= i < |v.fields| ==> IsValue(v.fields[i].value)
  {
  }

  lemma AttachmentKinds(fields: seq<Field>, a: Attachment)
    ensures NormalizeLocation(fields) == Ok(a) ==> a.Location?
    ensures NormalizeEntity(fields) == Ok(a) ==> a.Entity?
    ensures NormalizeMusic(fields) == Ok(a) ==> a.Music?
  {
    hide Get, OptionalMetadata, AttachmentSize, Lit;
  }

  lemma CreateExact(fields: seq<Field>, b: Body)
    requires forall i :: 0 <= i < |fields| ==> IsValue(fields[i].value)
    ensures NormalizeBody(CREATE, fields) == Ok(b) <==> ReadsCreate(fields, b)
  {
    hide Get, NormalizeText, ReadsText, NormalizeAttachment, ReadsAttachment, IsBlank, AllSpace, Lit;
    GetIsValue(fields, K_ATTACHMENT);
    if b.Create? {
      TextExact(Get(fields, K_TEXT), b.text);
      AttachmentExact(Get(fields, K_ATTACHMENT), b.attachment);
      if b.text.Some? {
        SpaceIsBlank(b.text.value);
      }
    }
  }

  lemma EditExact(fields: seq<Field>, b: Body)
    ensures NormalizeBody(EDIT, fields) == Ok(b) <==> ReadsEdit(fields, b)
  {
    hide Get, NormalizeRequiredText, ReadsText, AllSpace, AsId, ReadsId, Lit;
    KindNames();
    if b.Edit? {
      RequiredTextExact(Get(fields, K_TEXT), b.newText);
      IdExact(Get(fields, K_TARGET), b.target, "target_logical_message_id");
    }
  }

  lemma ReactionExact(fields: seq<Field>, b: Body)
    ensures NormalizeBody(REACTION, fields) == Ok(b) <==> ReadsReaction(fields, b)
  {
    hide Get, AsId, ReadsId, Lit;
    KindNames();
    if b.Reaction? {
      IdExact(Get(fields, K_TARGET), b.target, "target_logical_message_id");
    }
  }

  lemma DeleteExact(fields: seq<Field>, b: Body)
    ensures NormalizeBody(DELETE, fields) == Ok(b) <==> ReadsDelete(fields, b)
  {
    hide Get, AsId, ReadsId, Lit;
    KindNames();
    if b.Delete? {
      IdExact(Get(fields, K_TARGET), b.target, "target_logical_message_id");
    }
  }

  lemma BodyExact(fields: seq<Field>, b: Body)
    requires forall i :: 0 <= i < |fields| ==> IsValue(fields[i].value)
    ensures var kind := Get(fields, K_KIND);
      kind.Str? && kind.s in {CREATE, EDIT, REACTION, DELETE} && NormalizeBody(kind.s, fields) == Ok(b) <==> ReadsBody(fields, b)
  {
    hide Get, NormalizeBody, ReadsCreate, ReadsEdit, ReadsReaction, ReadsDelete, Lit, IsValue;
    KindNames();
    CreateExact(fields, b);
    EditExact(fields, b);
    ReactionExact(fields, b);
    DeleteExact(fields, b);
    BodyKinds(fields, b);
  }

  lemma BodyKinds(fields: seq<Field>, b: Body)
    ensures ReadsCreate(fields, b) ==> b.Create?
    ensures ReadsEdit(fields, b) ==> b.Edit?
    ensures ReadsReaction(fields, b) ==> b.Reaction?
    ensures ReadsDelete(fields, b) ==> b.Delete?
  {
  }

  // ---------- the theorem ----------

  /** The normaliser accepts an input exactly when an event is read from it, and returns that one. */
  lemma NormalizeExact(parses: Text -> bool, v: Value, e: Event)
    requires IsValue(v)
    ensures Normalize(parses, v) == Ok(e) <==> Reads(parses, v, e)
  {
    hide Get, NormalizeBody, ReadsBody, AsId, ReadsId, IsIsoDate, Matches, Lit, IsValue;
    if v.Obj? {
      FieldsAreValues(v);
      BodyExact(v.fields, e.body);
      IdExact(Get(v.fields, K_LOGICAL), e.logicalMessageId, "logical_message_id");
      DateIsPattern(e.clientCreatedAt);
    }
  }

  // ---------- the wire form ----------

  function KeysOf(fields: seq<Field>): (keys: seq<Text>)
    ensures |keys| == |fields| && forall i :: 0 <= i < |keys| ==> keys[i] == fields[i].key
  {
    seq(|fields|, i requires 0 <= i < |fields| => fields[i].key)
  }

  /** The names that an event prints, in their order. */
  function EventNames(e: Event): seq<Text> {
    [Lit("v"), Lit("kind"), Lit("logicalMessageId"), Lit("clientCreatedAt")]
    + match e.body
      case Create(text, attachment) =>
        (if text.Some? then [Lit("text")] else []) + (if attachment.Some? then [Lit("attachment")] else [])
      case Edit(_, _) => [Lit("targetLogicalMessageId"), Lit("text")]
      case Reaction(_, _) => [Lit("targetLogicalMessageId"), Lit("emoji")]
      case Delete(_) => [Lit("targetLogicalMessageId")]
  }

  function AttachmentNames(a: Attachment): seq<Text> {
    match a
    case Location(_, _, accuracy) =>
      [Lit("kind"), Lit("latitude"), Lit("longitude")] + (if accuracy.Some? then [Lit("accuracy")] else [])
    case Entity(_, _, snapshot) =>
      [Lit("kind"), Lit("entityType"), Lit("id")] + (if snapshot.Some? then [Lit("snapshot")] else [])
    case Music(_, _, _, _, metadata) =>
      [Lit("kind"), Lit("provider"), Lit("id"), Lit("title"), Lit("artist")] + (if metadata.Some? then [Lit("metadata")] else [])
  }

  lemma EventKeys(e: Event)
    ensures EventValue(e).Obj? && KeysOf(EventValue(e).fields) == EventNames(e)
  {
    hide Lit;
  }

  lemma AttachmentKeys(a: Attachment)
    ensures AttachmentValue(a).Obj? && KeysOf(AttachmentValue(a).fields) == AttachmentNames(a)
  {
    hide Lit;
  }

  /** What an accepted event prints: its properties in this order, those of its attachment in that one, and those of
      the metadata in code-unit order; read back, they say the event again. */
  lemma PrintedEvent(parses: Text -> bool, v: Value, e: Event)
    requires IsValue(v) && Reads(parses, v, e)
    ensures Encode(parses, v) == Ok(Print(EventValue(e))) && Reads(parses, EventValue(e), e)
    ensures KeysOf(EventValue(e).fields) == EventNames(e)
    ensures e.body.Create? && e.body.attachment.Some? ==>
      var a := e.body.attachment.value;
      && Get(EventValue(e).fields, Lit("attachment")) == AttachmentValue(a) && KeysOf(AttachmentValue(a).fields) == AttachmentNames(a)
      && (a.Entity? && a.snapshot.Some? ==> DeepAscending(a.snapshot.value))
      && (a.Music? && a.metadata.Some? ==> DeepAscending(a.metadata.value))
  {
    hide Normalize, Reads, EventValue, NormalBody, DeepAscending, AttachmentValue, AttachmentNames, EventNames, Get, Print, Lit;
    NormalizeExact(parses, v, e);
    EncodeSucceeds(parses, v);
    EventNormal(parses, v);
    EventFixed(parses, e);
    EventIsJson(e);
    JsonIsValue(EventValue(e));
    NormalizeExact(parses, EventValue(e), e);
    EventKeys(e);
    if e.body.Create? && e.body.attachment.Some? {
      AttachmentKeys(e.body.attachment.value);
      AttachmentPrinted(e);
      MetadataAscends(e.body.attachment.value, e.body);
    }
  }

  lemma AttachmentPrinted(e: Event)
    requires e.body.Create? && e.body.attachment.Some?
    ensures Get(EventValue(e).fields, Lit("attachment")) == AttachmentValue(e.body.attachment.value)
  {
    hide AttachmentFields;
    BodyKeys(e);
    var fields := EventValue(e).fields;
    var i := if e.body.text.Some? then 5 else 4;
    assert fields[i] == Field(K_ATTACHMENT, AttachmentValue(e.body.attachment.value));
    GetAt(fields, i);
  }

  lemma MetadataAscends(a: Attachment, b: Body)
    requires b.Create? && b.attachment == Some(a) && NormalBody(b)
    ensures a.Entity? && a.snapshot.Some? ==> DeepAscending(a.snapshot.value)
    ensures a.Music? && a.metadata.Some? ==> DeepAscending(a.metadata.value)
  {
    hide DeepAscending, Canon, IsJson, IsValue, Within, AttachmentSize;
    if a.Entity? && a.snapshot.Some? {
      JsonIsValue(a.snapshot.value);
      CanonAscends(a.snapshot.value);
    }
    if a.Music? && a.metadata.Some? {
      JsonIsValue(a.metadata.value);
      CanonAscends(a.metadata.value);
    }
  }

  /** The decoder accepts exactly the JSON texts of at most 65536 bytes that say an event. */
  lemma DecodeExact(parses: Text -> bool, encoded: Text, e: Event)
    requires Parse(encoded).Some? ==> IsValue(Parse(encoded).value)
    ensures Decode(parses, encoded) == Ok(e) <==>
      |Bytes(encoded)| <= 65536 && Parse(encoded).Some? && Reads(parses, Parse(encoded).value, e)
  {
    hide Normalize, Reads, Parse, Bytes, Utf8Length;
    CountsUtf8(encoded);
    if Parse(encoded).Some? {
      NormalizeExact(parses, Parse(encoded).value, e);
    }
  }
}
