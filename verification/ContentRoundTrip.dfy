/** The image of normalizeContentEvent, and what the wire form of an event preserves. */
module ContentRoundTrip {
  import opened Wrappers
  import opened Unicode
  import opened Json
  import opened JsonNumbers
  import opened JsonStrings
  import opened Validators
  import opened BoundedJson
  import opened BoundedForms
  import opened ContentEvent

  // ---------- the image ----------

  predicate NormalText(s: Text) {
    CleanText(s) && forall i :: 0 <= i < |s| ==> s[i] != CR
  }

  predicate NormalMetadata(m: Option<Value>) {
    m.None? || (IsJson(m.value) && Within(m.value) && Canon(m.value) == m.value)
  }

  predicate FloatWithin(x: Float, low: real, high: real) { ValidFloat(x) && low <= RealOf(x) <= high }

  predicate NormalAttachment(a: Attachment) {
    match a
    case Location(latitude, longitude, accuracy) =>
      FloatWithin(latitude, -90.0, 90.0) && FloatWithin(longitude, -180.0, 180.0)
      && (accuracy.None? || FloatWithin(accuracy.value, 0.0, 100000.0))
    case Entity(entityType, id, snapshot) =>
      entityType in ENTITY_TYPES && IsId(id) && NormalMetadata(snapshot) && AttachmentSize(a) <= MAX_ATTACHMENT_BYTES
    case Music(provider, id, title, artist, metadata) =>
      provider in MUSIC_PROVIDERS && 0 < |id| <= 1000 && 0 < |title| <= 500 && 0 < |artist| <= 500
      && NormalMetadata(metadata) && AttachmentSize(a) <= MAX_ATTACHMENT_BYTES
  }

  predicate NormalBody(b: Body) {
    match b
    case Create(text, attachment) =>
      (text.None? || NormalText(text.value)) && (attachment.None? || NormalAttachment(attachment.value))
      && !IsEmptyMessage(text, attachment)
    case Edit(target, text) => IsId(target) && NormalText(text) && !IsBlank(text)
    case Reaction(target, emoji) => IsId(target) && (emoji.None? || 0 < |emoji.value| <= 32)
    case Delete(target) => IsId(target)
  }

  predicate NormalEvent(parses: Text -> bool, e: Event) {
    IsId(e.logicalMessageId) && IsIsoDate(e.clientCreatedAt) && parses(e.clientCreatedAt) && NormalBody(e.body)
  }

  // ---------- reading properties ----------

  lemma {:induction false} GetAt(fields: seq<Field>, i: nat)
    requires i < |fields| && DistinctKeys(fields)
    ensures Get(fields, fields[i].key) == fields[i].value
  {
    if i > 0 {
      GetAt(fields[1..], i - 1);
    }
  }

  lemma {:induction false} GetMissing(fields: seq<Field>, key: Text)
    requires forall i :: 0 <= i < |fields| ==> fields[i].key != key
    ensures Get(fields, key) == Undefined
  {
    if fields != [] {
      GetMissing(fields[1..], key);
    }
  }

  /** The property names are told apart by their lengths, or by their first letters. */
  lemma KeyNames()
    ensures |K_V| == 1 && |K_KIND| == 4 && |K_LOGICAL| == 16 && |K_CREATED| == 15 && |K_TEXT| == 4
    ensures |K_ATTACHMENT| == 10 && |K_TARGET| == 22 && |K_EMOJI| == 5 && K_KIND != K_TEXT
    ensures |K_LATITUDE| == 8 && |K_LONGITUDE| == 9 && |K_ACCURACY| == 8 && K_LATITUDE != K_ACCURACY
    ensures |K_ENTITY_TYPE| == 10 && |K_ID| == 2 && |K_SNAPSHOT| == 8
    ensures |K_PROVIDER| == 8 && |K_TITLE| == 5 && |K_ARTIST| == 6 && |K_METADATA| == 8 && K_PROVIDER != K_METADATA
  {
    assert K_KIND[0] == 0x6B && K_TEXT[0] == 0x74;
    assert K_LATITUDE[0] == 0x6C && K_ACCURACY[0] == 0x61;
    assert K_PROVIDER[0] == 0x70 && K_METADATA[0] == 0x6D;
  }

  lemma KindNames()
    ensures CREATE != EDIT && CREATE != REACTION && CREATE != DELETE && EDIT != REACTION && EDIT != DELETE && REACTION != DELETE
    ensures LOCATION != ENTITY && LOCATION != MUSIC && ENTITY != MUSIC
  {
    assert |CREATE| == 14 && |EDIT| == 12 && |REACTION| == 16 && |DELETE| == 14;
    assert CREATE[8] == 0x63 && DELETE[8] == 0x64;
    assert |LOCATION| == 8 && |ENTITY| == 6 && |MUSIC| == 5;
  }

  lemma {:induction false} FoldFixed(s: Text)
    requires forall i :: 0 <= i < |s| ==> s[i] != CR
    ensures FoldNewlines(s) == s
  {
    if s != [] {
      FoldFixed(s[1..]);
      assert s == [s[0]] + s[1..];
    }
  }

  lemma TextFixed(s: Text)
    requires NormalText(s)
    ensures NormalizeText(Str(s)) == Ok(Some(s))
  {
    FoldFixed(s);
  }

  // ---------- every normal form normalises to itself ----------

  lemma LocationFixed(a: Attachment)
    requires a.Location? && NormalAttachment(a)
    ensures DistinctKeys(AttachmentFields(a)) && NormalizeLocation(AttachmentFields(a)) == Ok(a)
  {
    KeyNames();
    var fields := AttachmentFields(a);
    assert fields[0].key == K_KIND && fields[1].key == K_LATITUDE && fields[2].key == K_LONGITUDE;
    GetAt(fields, 1);
    GetAt(fields, 2);
    if a.accuracy.Some? {
      assert fields[3].key == K_ACCURACY;
      GetAt(fields, 3);
    } else {
      GetMissing(fields, K_ACCURACY);
    }
  }

  lemma EntityFixed(a: Attachment)
    requires a.Entity? && NormalAttachment(a)
    ensures DistinctKeys(AttachmentFields(a)) && NormalizeEntity(AttachmentFields(a)) == Ok(a)
  {
    hide BoundedForm, AttachmentSize;
    KeyNames();
    var fields := AttachmentFields(a);
    assert fields[0].key == K_KIND && fields[1].key == K_ENTITY_TYPE && fields[2].key == K_ID;
    GetAt(fields, 1);
    GetAt(fields, 2);
    if a.snapshot.Some? {
      assert fields[3].key == K_SNAPSHOT;
      GetAt(fields, 3);
      MetadataFixed(a.snapshot.value);
    } else {
      GetMissing(fields, K_SNAPSHOT);
    }
  }

  lemma MetadataFixed(m: Value)
    requires NormalMetadata(Some(m))
    ensures BoundedForm(m) == Ok(m) && !m.Undefined?
  {
  }

  lemma MusicKeys(a: Attachment)
    requires a.Music?
    ensures var f := AttachmentFields(a);
      && DistinctKeys(f) && OnlyKeys(f, {K_KIND, K_PROVIDER, K_ID, K_TITLE, K_ARTIST, K_METADATA})
      && (a.metadata.None? ==> forall i :: 0 <= i < |f| ==> f[i].key != K_METADATA)
  {
    KeyNames();
    hide Lit;
    var fields := AttachmentFields(a);
    assert fields[0].key == K_KIND && fields[1].key == K_PROVIDER && fields[2].key == K_ID;
    assert fields[3].key == K_TITLE && fields[4].key == K_ARTIST;
    assert |fields| == 6 ==> fields[5].key == K_METADATA;
  }

  lemma MusicFixed(a: Attachment)
    requires a.Music? && NormalAttachment(a)
    ensures DistinctKeys(AttachmentFields(a)) && NormalizeMusic(AttachmentFields(a)) == Ok(a)
  {
    hide BoundedForm, AttachmentSize, Get, DistinctKeys, OnlyKeys, Lit;
    MusicKeys(a);
    var fields := AttachmentFields(a);
    GetAt(fields, 1);
    GetAt(fields, 2);
    GetAt(fields, 3);
    GetAt(fields, 4);
    if a.metadata.Some? {
      GetAt(fields, 5);
      MetadataFixed(a.metadata.value);
    } else {
      GetMissing(fields, K_METADATA);
    }
  }

  lemma AttachmentFixed(a: Attachment)
    requires NormalAttachment(a)
    ensures NormalizeAttachment(AttachmentValue(a)) == Ok(Some(a))
    ensures DistinctKeys(AttachmentFields(a))
  {
    hide NormalizeLocation, NormalizeEntity, NormalizeMusic, NormalAttachment;
    KindNames();
    var fields := AttachmentFields(a);
    match a
    case Location(_, _, _) =>
      LocationFixed(a);
      GetAt(fields, 0);
    case Entity(_, _, _) =>
      EntityFixed(a);
      GetAt(fields, 0);
    case Music(_, _, _, _, _) =>
      MusicFixed(a);
      GetAt(fields, 0);
  }

  lemma BodyKeys(e: Event)
    ensures DistinctKeys(EventValue(e).fields)
  {
    KeyNames();
    var fields := EventValue(e).fields;
    assert fields[0].key == K_V && fields[1].key == K_KIND && fields[2].key == K_LOGICAL && fields[3].key == K_CREATED;
    match e.body
    case Create(text, attachment) =>
      if text.Some? {
        assert fields[4].key == K_TEXT;
        assert attachment.Some? ==> fields[5].key == K_ATTACHMENT;
      } else {
        assert attachment.Some? ==> fields[4].key == K_ATTACHMENT;
      }
    case Edit(_, _) => assert fields[4].key == K_TARGET && fields[5].key == K_TEXT;
    case Reaction(_, _) => assert fields[4].key == K_TARGET && fields[5].key == K_EMOJI;
    case Delete(_) => assert fields[4].key == K_TARGET;
  }

  lemma BodyFixed(e: Event)
    requires NormalBody(e.body)
    ensures NormalizeBody(KindOf(e.body), EventValue(e).fields) == Ok(e.body)
  {
    hide NormalBody, NormalizeBody, EventValue;
    match e.body
    case Create(_, _) => CreateFixed(e);
    case Edit(_, _) => EditFixed(e);
    case Reaction(_, _) => ReactionFixed(e);
    case Delete(_) => DeleteFixed(e);
  }

  lemma EditFixed(e: Event)
    requires NormalBody(e.body) && e.body.Edit?
    ensures NormalizeBody(EDIT, EventValue(e).fields) == Ok(e.body)
  {
    hide NormalAttachment, NormalizeAttachment, NormalizeText, AttachmentFields;
    KeyNames();
    KindNames();
    BodyKeys(e);
    var fields := EventValue(e).fields;
    GetAt(fields, 4);
    GetAt(fields, 5);
    TextFixed(e.body.newText);
  }

  lemma ReactionFixed(e: Event)
    requires NormalBody(e.body) && e.body.Reaction?
    ensures NormalizeBody(REACTION, EventValue(e).fields) == Ok(e.body)
  {
    hide NormalAttachment, NormalizeAttachment, NormalizeText, AttachmentFields;
    KeyNames();
    KindNames();
    BodyKeys(e);
    var fields := EventValue(e).fields;
    GetAt(fields, 4);
    GetAt(fields, 5);
  }

  lemma DeleteFixed(e: Event)
    requires NormalBody(e.body) && e.body.Delete?
    ensures NormalizeBody(DELETE, EventValue(e).fields) == Ok(e.body)
  {
    hide NormalAttachment, NormalizeAttachment, NormalizeText, AttachmentFields;
    KeyNames();
    KindNames();
    BodyKeys(e);
    var fields := EventValue(e).fields;
    GetAt(fields, 4);
  }

  lemma CreateFixed(e: Event)
    requires NormalBody(e.body) && e.body.Create?
    ensures NormalizeBody(CREATE, EventValue(e).fields) == Ok(e.body)
  {
    hide NormalAttachment, NormalizeAttachment, NormalizeText, AttachmentFields;
    KeyNames();
    KindNames();
    BodyKeys(e);
    var fields := EventValue(e).fields;
    var text, attachment := e.body.text, e.body.attachment;
    if text.Some? {
      assert fields[4] == Field(K_TEXT, Str(text.value));
      GetAt(fields, 4);
      TextFixed(text.value);
    } else {
      GetMissing(fields, K_TEXT);
      NoText();
    }
    if attachment.Some? {
      var i := if text.Some? then 5 else 4;
      assert fields[i] == Field(K_ATTACHMENT, AttachmentValue(attachment.value));
      GetAt(fields, i);
      AttachmentFixed(attachment.value);
    } else {
      GetMissing(fields, K_ATTACHMENT);
      NoAttachment();
    }
  }

  lemma NoText()
    ensures NormalizeText(Undefined) == Ok(None)
  {
  }

  lemma NoAttachment()
    ensures NormalizeAttachment(Undefined) == Ok(None)
  {
  }

  /** Every normal event is a fixed point of the normaliser. */
  lemma EventFixed(parses: Text -> bool, e: Event)
    requires NormalEvent(parses, e)
    ensures Normalize(parses, EventValue(e)) == Ok(e)
  {
    hide NormalBody, NormalizeBody, BodyFields;
    BodyKeys(e);
    var fields := EventValue(e).fields;
    GetAt(fields, 0);
    GetAt(fields, 1);
    GetAt(fields, 2);
    GetAt(fields, 3);
    BodyFixed(e);
  }

  // ---------- every accepted event is a normal form ----------

  lemma MetadataNormal(v: Value)
    requires IsValue(v) && OptionalMetadata(v).Ok?
    ensures NormalMetadata(OptionalMetadata(v).value)
  {
    if !v.Undefined? {
      BoundedFormFixed(v);
    }
  }

  lemma LocationNormal(fields: seq<Field>)
    requires forall i :: 0 <= i < |fields| ==> IsValue(fields[i].value)
    requires NormalizeLocation(fields).Ok?
    ensures NormalAttachment(NormalizeLocation(fields).value)
  {
    hide RealOf;
    GetIsValue(fields, K_LATITUDE);
    GetIsValue(fields, K_LONGITUDE);
    GetIsValue(fields, K_ACCURACY);
  }

  lemma EntityNormal(fields: seq<Field>)
    requires forall i :: 0 <= i < |fields| ==> IsValue(fields[i].value)
    requires NormalizeEntity(fields).Ok?
    ensures NormalAttachment(NormalizeEntity(fields).value)
  {
    hide OptionalMetadata, AttachmentSize, NormalMetadata;
    GetIsValue(fields, K_SNAPSHOT);
    MetadataNormal(Get(fields, K_SNAPSHOT));
  }

  lemma MusicNormal(fields: seq<Field>)
    requires forall i :: 0 <= i < |fields| ==> IsValue(fields[i].value)
    requires NormalizeMusic(fields).Ok?
    ensures NormalAttachment(NormalizeMusic(fields).value)
  {
    hide OptionalMetadata, AttachmentSize, NormalMetadata;
    GetIsValue(fields, K_METADATA);
    MetadataNormal(Get(fields, K_METADATA));
  }

  lemma AttachmentNormal(v: Value)
    requires IsValue(v) && NormalizeAttachment(v).Ok? && NormalizeAttachment(v).value.Some?
    ensures NormalAttachment(NormalizeAttachment(v).value.value)
  {
    hide NormalizeLocation, NormalizeEntity, NormalizeMusic, NormalAttachment, Lit;
    var kind := Get(v.fields, K_KIND);
    if kind == Str(LOCATION) {
      LocationNormal(v.fields);
    } else if kind == Str(ENTITY) {
      EntityNormal(v.fields);
    } else {
      MusicNormal(v.fields);
    }
  }

  lemma BodyNormal(kind: Text, fields: seq<Field>)
    requires forall i :: 0 <= i < |fields| ==> IsValue(fields[i].value)
    requires kind in {CREATE, EDIT, REACTION, DELETE} && NormalizeBody(kind, fields).Ok?
    ensures NormalBody(NormalizeBody(kind, fields).value)
    ensures KindOf(NormalizeBody(kind, fields).value) == kind
  {
    hide NormalAttachment, NormalizeAttachment;
    KindNames();
    var attachment := Get(fields, K_ATTACHMENT);
    GetIsValue(fields, K_ATTACHMENT);
    if NormalizeAttachment(attachment).Ok? && NormalizeAttachment(attachment).value.Some? {
      AttachmentNormal(attachment);
    }
  }

  lemma EventNormal(parses: Text -> bool, v: Value)
    requires IsValue(v) && Normalize(parses, v).Ok?
    ensures NormalEvent(parses, Normalize(parses, v).value)
  {
    hide NormalBody, NormalizeBody;
    BodyNormal(Get(v.fields, K_KIND).s, v.fields);
  }

  /** Normalising twice is normalising once. */
  lemma NormalizeIdempotent(parses: Text -> bool, v: Value)
    requires IsValue(v) && Normalize(parses, v).Ok?
    ensures Normalize(parses, EventValue(Normalize(parses, v).value)) == Normalize(parses, v)
  {
    EventNormal(parses, v);
    EventFixed(parses, Normalize(parses, v).value);
  }

  /** The normaliser's image is exactly the normal events. */
  lemma NormalizeImage(parses: Text -> bool, e: Event)
    ensures NormalEvent(parses, e) <==> exists v :: IsValue(v) && Normalize(parses, v) == Ok(e)
  {
    if NormalEvent(parses, e) {
      EventFixed(parses, e);
      EventIsJson(e);
      JsonIsValue(EventValue(e));
    }
    forall v | IsValue(v) && Normalize(parses, v) == Ok(e)
      ensures NormalEvent(parses, e)
    {
      EventNormal(parses, v);
    }
  }

  // ---------- the wire form ----------

  lemma {:induction false} JsonIsValue(v: Value)
    requires IsJson(v)
    ensures IsValue(v)
    decreases v
  {
    match v
    case Arr(items) =>
      forall i | 0 <= i < |items|
        ensures IsValue(items[i])
      {
        JsonIsValue(items[i]);
      }
    case Obj(fields) =>
      forall i | 0 <= i < |fields|
        ensures IsValue(fields[i].value)
      {
        JsonIsValue(fields[i].value);
      }
    case _ =>
  }

  lemma AttachmentIsJson(a: Attachment)
    requires NormalAttachment(a)
    ensures IsJson(AttachmentValue(a))
  {
    AttachmentFixed(a);
    AttachmentValuesJson(a);
  }

  lemma AttachmentValuesJson(a: Attachment)
    requires NormalAttachment(a)
    ensures forall i :: 0 <= i < |AttachmentFields(a)| ==> IsJson(AttachmentFields(a)[i].value)
  {
    hide AttachmentSize, Canon, Within, RealOf, IsId;
    var fields := AttachmentFields(a);
    assert IsJson(fields[0].value) && IsJson(fields[1].value) && IsJson(fields[2].value);
    match a
    case Location(_, _, accuracy) =>
      assert accuracy.Some? ==> IsJson(fields[3].value);
    case Entity(_, _, snapshot) =>
      assert snapshot.Some? ==> IsJson(fields[3].value);
    case Music(_, _, _, _, metadata) =>
      assert IsJson(fields[3].value) && IsJson(fields[4].value);
      assert metadata.Some? ==> IsJson(fields[5].value);
  }

  lemma EventIsJson(e: Event)
    requires NormalBody(e.body)
    ensures IsJson(EventValue(e))
  {
    hide NormalAttachment, AttachmentFields;
    BodyKeys(e);
    if e.body.Create? && e.body.attachment.Some? {
      AttachmentIsJson(e.body.attachment.value);
    }
    assert ValidFloat(ONE);
  }
}
