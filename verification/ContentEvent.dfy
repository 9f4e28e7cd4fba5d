/** Content events: normalizeContentEvent, encodeContentEvent and decodeContentEvent. */
module ContentEvent {
  import opened Wrappers
  import opened Unicode
  import opened Json
  import opened JsonNumbers
  import opened Validators
  import opened BoundedJson

  const MAX_CHAT_TEXT_CHARS := 1000
  const MAX_CONTENT_EVENT_BYTES := 64 * 1024
  const MAX_ATTACHMENT_BYTES := 32 * 1024

  const K_V: Text := Lit("v")
  const K_KIND: Text := Lit("kind")
  const K_LOGICAL: Text := Lit("logicalMessageId")
  const K_CREATED: Text := Lit("clientCreatedAt")
  const K_TEXT: Text := Lit("text")
  const K_ATTACHMENT: Text := Lit("attachment")
  const K_TARGET: Text := Lit("targetLogicalMessageId")
  const K_EMOJI: Text := Lit("emoji")
  const K_LATITUDE: Text := Lit("latitude")
  const K_LONGITUDE: Text := Lit("longitude")
  const K_ACCURACY: Text := Lit("accuracy")
  const K_ENTITY_TYPE: Text := Lit("entityType")
  const K_ID: Text := Lit("id")
  const K_SNAPSHOT: Text := Lit("snapshot")
  const K_PROVIDER: Text := Lit("provider")
  const K_TITLE: Text := Lit("title")
  const K_ARTIST: Text := Lit("artist")
  const K_METADATA: Text := Lit("metadata")

  const CREATE: Text := Lit("message.create")
  const EDIT: Text := Lit("message.edit")
  const REACTION: Text := Lit("message.reaction")
  const DELETE: Text := Lit("message.delete")
  const LOCATION: Text := Lit("location")
  const ENTITY: Text := Lit("entity")
  const MUSIC: Text := Lit("music")

  const ENTITY_TYPES: set<Text> := {Lit("account"), Lit("publicPage"), Lit("event")}
  const MUSIC_PROVIDERS: set<Text> :=
    {Lit("apple"), Lit("yandex"), Lit("youtube"), Lit("volna"), Lit("soundcloud"), Lit("bandcamp")}

  // ---------- normal forms ----------

  datatype Attachment =
    | Location(latitude: Float, longitude: Float, accuracy: Option<Float>)
    | Entity(entityType: Text, entityId: Text, snapshot: Option<Value>)
    | Music(provider: Text, trackId: Text, title: Text, artist: Text, metadata: Option<Value>)

  datatype Body =
    | Create(text: Option<Text>, attachment: Option<Attachment>)
    | Edit(target: Text, newText: Text)
    | Reaction(target: Text, emoji: Option<Text>)
    | Delete(target: Text)

  datatype Event = Event(logicalMessageId: Text, clientCreatedAt: Text, body: Body)

  // ---------- the objects that the source returns ----------

  function OptionalField(key: Text, value: Option<Value>): seq<Field> {
    match value
    case None => []
    case Some(v) => [Field(key, v)]
  }

  function AttachmentFields(a: Attachment): seq<Field> {
    match a
    case Location(latitude, longitude, accuracy) =>
      [Field(K_KIND, Str(LOCATION)), Field(K_LATITUDE, Num(latitude)), Field(K_LONGITUDE, Num(longitude))]
      + OptionalField(K_ACCURACY, if accuracy.None? then None else Some(Num(accuracy.value)))
    case Entity(entityType, id, snapshot) =>
      [Field(K_KIND, Str(ENTITY)), Field(K_ENTITY_TYPE, Str(entityType)), Field(K_ID, Str(id))]
      + OptionalField(K_SNAPSHOT, snapshot)
    case Music(provider, id, title, artist, metadata) =>
      [Field(K_KIND, Str(MUSIC)), Field(K_PROVIDER, Str(provider)), Field(K_ID, Str(id)),
       Field(K_TITLE, Str(title)), Field(K_ARTIST, Str(artist))]
      + OptionalField(K_METADATA, metadata)
  }

  function AttachmentValue(a: Attachment): Value { Obj(AttachmentFields(a)) }

  function KindOf(b: Body): Text {
    match b
    case Create(_, _) => CREATE
    case Edit(_, _) => EDIT
    case Reaction(_, _) => REACTION
    case Delete(_) => DELETE
  }

  function BodyFields(b: Body): seq<Field> {
    match b
    case Create(text, attachment) =>
      OptionalField(K_TEXT, if text.None? then None else Some(Str(text.value)))
      + OptionalField(K_ATTACHMENT, if attachment.None? then None else Some(AttachmentValue(attachment.value)))
    case Edit(target, text) => [Field(K_TARGET, Str(target)), Field(K_TEXT, Str(text))]
    case Reaction(target, emoji) =>
      [Field(K_TARGET, Str(target)), Field(K_EMOJI, if emoji.None? then Null else Str(emoji.value))]
    case Delete(target) => [Field(K_TARGET, Str(target))]
  }

  function EventValue(e: Event): Value {
    Obj([Field(K_V, Num(ONE)), Field(K_KIND, Str(KindOf(e.body))), Field(K_LOGICAL, Str(e.logicalMessageId)),
         Field(K_CREATED, Str(e.clientCreatedAt))] + BodyFields(e.body))
  }

  // ---------- text ----------

  const CR: CodeUnit := 0x0D
  const LF: CodeUnit := 0x0A

  /** value.replace(/\r\n?/g, '\n') */
  function FoldNewlines(s: Text): (t: Text)
    ensures |t| <= |s|
    ensures forall i :: 0 <= i < |t| ==> t[i] != CR
  {
    if s == [] then []
    else if s[0] != CR then [s[0]] + FoldNewlines(s[1..])
    else if |s| > 1 && s[1] == LF then [LF] + FoldNewlines(s[2..])
    else [LF] + FoldNewlines(s[1..])
  }

  predicate IsControl(u: CodeUnit) {
    u <= 0x08 || u == 0x0B || u == 0x0C || 0x0E <= u <= 0x1F || u == 0x7F
  }

  predicate CleanText(s: Text) {
    |s| <= MAX_CHAT_TEXT_CHARS && forall i :: 0 <= i < |s| ==> !IsControl(s[i])
  }

  /** normalizeText without `required`: anything but a string is dropped. */
  function NormalizeText(v: Value): Outcome<Option<Text>> {
    if !v.Str? then Ok(None)
    else
      var normalized := FoldNewlines(v.s);
      if CleanText(normalized) then Ok(Some(normalized)) else Fail("text")
  }

  /** normalizeText with `required`. */
  function NormalizeRequiredText(v: Value): Outcome<Text> {
    match NormalizeText(v)
    case Fail(code) => Fail(code)
    case Ok(None) => Fail("text")
    case Ok(Some(t)) => if IsBlank(t) then Fail("text") else Ok(t)
  }

  // ---------- normalisation ----------

  function NormalizeLocation(fields: seq<Field>): Outcome<Attachment> {
    var allowed := {K_KIND, K_LATITUDE, K_LONGITUDE, K_ACCURACY};
    :- Need(OnlyKeys(fields, allowed), "attachment_location_keys");
    var latitude := Get(fields, K_LATITUDE);
    :- Need(InRange(latitude, -90.0, 90.0), "attachment_latitude");
    var longitude := Get(fields, K_LONGITUDE);
    :- Need(InRange(longitude, -180.0, 180.0), "attachment_longitude");
    var accuracy := Get(fields, K_ACCURACY);
    :- Need(accuracy.Undefined? || InRange(accuracy, 0.0, 100000.0), "attachment_accuracy");
    Ok(Location(latitude.x, longitude.x, if accuracy.Undefined? then None else Some(accuracy.x)))
  }

  function OptionalMetadata(v: Value): Outcome<Option<Value>> {
    if v.Undefined? then Ok(None)
    else
      var normalized :- BoundedForm(v);
      Ok(Some(normalized))
  }

  function AttachmentSize(a: Attachment): nat { Utf8Length(Print(AttachmentValue(a))) }

  function NormalizeEntity(fields: seq<Field>): Outcome<Attachment> {
    var allowed := {K_KIND, K_ENTITY_TYPE, K_ID, K_SNAPSHOT};
    :- Need(OnlyKeys(fields, allowed), "attachment_entity_keys");
    var entityType := Get(fields, K_ENTITY_TYPE);
    :- Need(entityType.Str? && entityType.s in ENTITY_TYPES, "attachment_entity_type");
    var id :- AsId(Get(fields, K_ID), "attachment_entity_id");
    var snapshot :- OptionalMetadata(Get(fields, K_SNAPSHOT));
    var a := Entity(entityType.s, id, snapshot);
    :- Need(AttachmentSize(a) <= MAX_ATTACHMENT_BYTES, "attachment_entity_size");
    Ok(a)
  }

  function NormalizeMusic(fields: seq<Field>): Outcome<Attachment> {
    var allowed := {K_KIND, K_PROVIDER, K_ID, K_TITLE, K_ARTIST, K_METADATA};
    :- Need(OnlyKeys(fields, allowed), "attachment_music_keys");
    var provider := Get(fields, K_PROVIDER);
    :- Need(provider.Str? && provider.s in MUSIC_PROVIDERS, "attachment_music_provider");
    var id :- AsText(Get(fields, K_ID), 1000, "attachment_music_id");
    var title :- AsText(Get(fields, K_TITLE), 500, "attachment_music_title");
    var artist :- AsText(Get(fields, K_ARTIST), 500, "attachment_music_artist");
    var metadata :- OptionalMetadata(Get(fields, K_METADATA));
    var a := Music(provider.s, id, title, artist, metadata);
    :- Need(AttachmentSize(a) <= MAX_ATTACHMENT_BYTES, "attachment_music_size");
    Ok(a)
  }

  function NormalizeAttachment(v: Value): Outcome<Option<Attachment>> {
    if v.Undefined? || v.Null? then Ok(None)
    else
      var fields :- AsObject(v, "attachment");
      var kind := Get(fields, K_KIND);
      var a :-
        if kind == Str(LOCATION) then NormalizeLocation(fields)
        else if kind == Str(ENTITY) then NormalizeEntity(fields)
        else if kind == Str(MUSIC) then NormalizeMusic(fields)
        else Fail("attachment_kind");
      Ok(Some(a))
  }

  predicate IsEmptyMessage(text: Option<Text>, attachment: Option<Attachment>) {
    (text.None? || IsBlank(text.value)) && attachment.None?
  }

  const COMMON_KEYS: set<Text> := {K_V, K_KIND, K_LOGICAL, K_CREATED}

  function NormalizeBody(kind: Text, fields: seq<Field>): Outcome<Body> {
    if kind == CREATE then
      :- Need(OnlyKeys(fields, COMMON_KEYS + {K_TEXT, K_ATTACHMENT}), "message_create_keys");
      var text :- NormalizeText(Get(fields, K_TEXT));
      var attachment :- NormalizeAttachment(Get(fields, K_ATTACHMENT));
      :- Need(!IsEmptyMessage(text, attachment), "message_create_empty");
      Ok(Create(text, attachment))
    else if kind == EDIT then
      :- Need(OnlyKeys(fields, COMMON_KEYS + {K_TARGET, K_TEXT}), "message_edit_keys");
      var target :- AsId(Get(fields, K_TARGET), "target_logical_message_id");
      var text :- NormalizeRequiredText(Get(fields, K_TEXT));
      Ok(Edit(target, text))
    else if kind == REACTION then
      :- Need(OnlyKeys(fields, COMMON_KEYS + {K_TARGET, K_EMOJI}), "message_reaction_keys");
      var emoji :- NormalizeEmoji(Get(fields, K_EMOJI));
      var target :- AsId(Get(fields, K_TARGET), "target_logical_message_id");
      Ok(Reaction(target, emoji))
    else
      :- Need(OnlyKeys(fields, COMMON_KEYS + {K_TARGET}), "message_delete_keys");
      var target :- AsId(Get(fields, K_TARGET), "target_logical_message_id");
      Ok(Delete(target))
  }

  function NormalizeEmoji(v: Value): Outcome<Option<Text>> {
    if v.Null? then Ok(None)
    else
      var emoji :- AsText(v, 32, "reaction_emoji");
      Ok(Some(emoji))
  }

  /** normalizeContentEvent. `parses` says on which texts Date.parse gives a finite number. */
  function Normalize(parses: Text -> bool, input: Value): Outcome<Event> {
    var fields :- AsObject(input, "content_event");
    :- Need(Get(fields, K_V) == Num(ONE), "content_version");
    var kind := Get(fields, K_KIND);
    :- Need(kind.Str? && kind.s in {CREATE, EDIT, REACTION, DELETE}, "content_kind");
    var id :- AsId(Get(fields, K_LOGICAL), "logical_message_id");
    var created := Get(fields, K_CREATED);
    :- Need(created.Str? && IsIsoDate(created.s) && parses(created.s), "client_created_at");
    var body :- NormalizeBody(kind.s, fields);
    Ok(Event(id, created.s, body))
  }

  function Encode(parses: Text -> bool, input: Value): Outcome<Text> {
    var e :- Normalize(parses, input);
    var encoded := Print(EventValue(e));
    :- Need(Utf8Length(encoded) <= MAX_CONTENT_EVENT_BYTES, "content_size");
    Ok(encoded)
  }

  function Decode(parses: Text -> bool, encoded: Text): Outcome<Event> {
    var size := Utf8Length(encoded);
    :- Need(size <= MAX_CONTENT_EVENT_BYTES, "content_size");
    match Parse(encoded)
    case None => Fail("content_json")
    case Some(parsed) => Normalize(parses, parsed)
  }
}
