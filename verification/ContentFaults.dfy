/** Which error a content event is refused with: that of the first rule that it breaks. */
module ContentFaults {
  import opened Wrappers
  import opened Unicode
  import opened JsonNumbers
  import opened Json
  import opened Validators
  import opened Patterns
  import opened CheckPatterns
  import opened BoundedJson
  import opened ContentEvent
  import opened ContentRoundTrip
  import opened ContentMeaning
  import opened ContentSize

  /** A rule, and those behind it. */
  function Rule(kept: bool, code: string, rest: Option<string>): Option<string> { if kept then rest else Some(code) }

  function ErrorOf<T>(r: Outcome<T>): Option<string> { if r.Ok? then None else Some(r.code) }

  predicate GoodId(v: Value) { v.Str? && Matches(ID_PATTERN, v.s) }

  predicate GoodNumber(v: Value, low: real, high: real) { v.Num? && low <= RealOf(v.x) <= high }

  predicate GoodShort(v: Value, most: nat) { v.Str? && 1 <= |v.s| <= most }

  predicate GoodMetadata(v: Value) { v.Undefined? || (Modest(v, 5) && Count(v) <= 256) }

  predicate OneOf(v: Value, words: set<Text>) { v.Str? && v.s in words }

  /** The text with its line breaks folded, see FoldIsLines. */
  predicate GoodMessage(v: Value) { v.Str? ==> GoodText(FoldNewlines(v.s)) }

  predicate SaysSomething(v: Value) { v.Str? && !AllSpace(FoldNewlines(v.s)) }

  lemma IdFault(v: Value, code: string)
    ensures ErrorOf(AsId(v, code)) == Rule(GoodId(v), code, None)
  {
    hide IsId, Matches;
    if v.Str? {
      IdIsPattern(v.s);
    }
  }

  lemma TextFault(v: Value)
    ensures ErrorOf(NormalizeText(v)) == Rule(GoodMessage(v), "text", None)
    ensures NormalizeText(v).Ok? && NormalizeText(v).value.Some? ==> v.Str? && NormalizeText(v).value.value == FoldNewlines(v.s)
    ensures NormalizeText(v).Ok? && NormalizeText(v).value.None? ==> !v.Str?
    ensures ErrorOf(NormalizeRequiredText(v)) == Rule(v.Str? && GoodMessage(v) && SaysSomething(v), "text", None)
  {
    hide FoldNewlines, CleanText, GoodText, IsBlank, AllSpace;
    if v.Str? {
      GoodIsClean(FoldNewlines(v.s));
      SpaceIsBlank(FoldNewlines(v.s));
    }
  }

  lemma MetadataFault(v: Value)
    ensures ErrorOf(OptionalMetadata(v)) == Rule(GoodMetadata(v), "attachment_metadata", None)
  {
    hide Shaped, Nodes, Modest, Count;
    ModestIsShaped(v, 0);
    CountIsNodes(v);
  }

  // ---------- attachments ----------

  function LocationRefusal(f: seq<Field>): Option<string> {
    Rule(Among(f, {K_KIND, K_LATITUDE, K_LONGITUDE, K_ACCURACY}), "attachment_location_keys",
    Rule(GoodNumber(Get(f, K_LATITUDE), -90.0, 90.0), "attachment_latitude",
    Rule(GoodNumber(Get(f, K_LONGITUDE), -180.0, 180.0), "attachment_longitude",
    Rule(Get(f, K_ACCURACY).Undefined? || GoodNumber(Get(f, K_ACCURACY), 0.0, 100000.0), "attachment_accuracy", None))))
  }

  lemma LocationFault(f: seq<Field>)
    ensures ErrorOf(NormalizeLocation(f)) == LocationRefusal(f)
  {
    hide Get, RealOf, Lit;
  }

  /** The size is that of the entity itself, which is read from the fields (see EntityExact). */
  function EntityRefusal(f: seq<Field>): Option<string> {
    Rule(Among(f, {K_KIND, K_ENTITY_TYPE, K_ID, K_SNAPSHOT}), "attachment_entity_keys",
    Rule(OneOf(Get(f, K_ENTITY_TYPE), {Lit("account"), Lit("publicPage"), Lit("event")}), "attachment_entity_type",
    Rule(GoodId(Get(f, K_ID)), "attachment_entity_id",
    Rule(GoodMetadata(Get(f, K_SNAPSHOT)), "attachment_metadata",
    Rule(NormalizeEntity(f).Ok?, "attachment_entity_size", None)))))
  }

  lemma EntityFault(f: seq<Field>)
    ensures ErrorOf(NormalizeEntity(f)) == EntityRefusal(f)
  {
    hide Get, AsId, GoodId, OptionalMetadata, GoodMetadata, AttachmentSize, Lit;
    IdFault(Get(f, K_ID), "attachment_entity_id");
    MetadataFault(Get(f, K_SNAPSHOT));
  }

  function MusicRefusal(f: seq<Field>): Option<string> {
    Rule(Among(f, {K_KIND, K_PROVIDER, K_ID, K_TITLE, K_ARTIST, K_METADATA}), "attachment_music_keys",
    Rule(OneOf(Get(f, K_PROVIDER), {Lit("apple"), Lit("yandex"), Lit("youtube"), Lit("volna"), Lit("soundcloud"), Lit("bandcamp")}), "attachment_music_provider",
    Rule(GoodShort(Get(f, K_ID), 1000), "attachment_music_id",
    Rule(GoodShort(Get(f, K_TITLE), 500), "attachment_music_title",
    Rule(GoodShort(Get(f, K_ARTIST), 500), "attachment_music_artist",
    Rule(GoodMetadata(Get(f, K_METADATA)), "attachment_metadata",
    Rule(NormalizeMusic(f).Ok?, "attachment_music_size", None)))))))
  }

  lemma MusicFault(f: seq<Field>)
    ensures ErrorOf(NormalizeMusic(f)) == MusicRefusal(f)
  {
    hide Get, OptionalMetadata, GoodMetadata, AttachmentSize, Lit;
    MetadataFault(Get(f, K_METADATA));
  }

  function AttachmentRefusal(v: Value): Option<string> {
    if v.Undefined? || v.Null? then None
    else if !v.Obj? then Some("attachment")
    else if Get(v.fields, K_KIND) == Str(Lit("location")) then LocationRefusal(v.fields)
    else if Get(v.fields, K_KIND) == Str(Lit("entity")) then EntityRefusal(v.fields)
    else if Get(v.fields, K_KIND) == Str(Lit("music")) then MusicRefusal(v.fields)
    else Some("attachment_kind")
  }

  lemma AttachmentFault(v: Value)
    ensures ErrorOf(NormalizeAttachment(v)) == AttachmentRefusal(v)
    ensures NormalizeAttachment(v).Ok? ==> (NormalizeAttachment(v).value.None? <==> v.Undefined? || v.Null?)
  {
    hide Get, NormalizeLocation, NormalizeEntity, NormalizeMusic, LocationRefusal, EntityRefusal, MusicRefusal, Lit;
    if v.Obj? {
      LocationFault(v.fields);
      EntityFault(v.fields);
      MusicFault(v.fields);
    }
  }

  // ---------- events ----------

  predicate CommonAnd(f: seq<Field>, more: set<Text>) { Among(f, {K_V, K_KIND, K_LOGICAL, K_CREATED} + more) }

  function CreateRefusal(f: seq<Field>): Option<string> {
    var attachment := Get(f, K_ATTACHMENT);
    Rule(CommonAnd(f, {K_TEXT, K_ATTACHMENT}), "message_create_keys",
    Rule(GoodMessage(Get(f, K_TEXT)), "text",
    if AttachmentRefusal(attachment).Some? then AttachmentRefusal(attachment) else
    Rule(SaysSomething(Get(f, K_TEXT)) || !(attachment.Undefined? || attachment.Null?), "message_create_empty", None)))
  }

  lemma CreateFault(f: seq<Field>)
    ensures ErrorOf(NormalizeBody(CREATE, f)) == CreateRefusal(f)
  {
    hide Get, NormalizeText, NormalizeAttachment, AttachmentRefusal, GoodMessage, FoldNewlines, IsBlank, AllSpace, Lit;
    var text := Get(f, K_TEXT);
    TextFault(text);
    AttachmentFault(Get(f, K_ATTACHMENT));
    if text.Str? {
      SpaceIsBlank(FoldNewlines(text.s));
    }
  }

  function EditRefusal(f: seq<Field>): Option<string> {
    Rule(CommonAnd(f, {K_TARGET, K_TEXT}), "message_edit_keys",
    Rule(GoodId(Get(f, K_TARGET)), "target_logical_message_id",
    Rule(Get(f, K_TEXT).Str? && GoodMessage(Get(f, K_TEXT)) && SaysSomething(Get(f, K_TEXT)), "text", None)))
  }

  lemma EditFault(f: seq<Field>)
    ensures ErrorOf(NormalizeBody(EDIT, f)) == EditRefusal(f)
  {
    hide Get, AsId, GoodId, NormalizeRequiredText, GoodMessage, SaysSomething, Lit;
    KindNames();
    TextFault(Get(f, K_TEXT));
    IdFault(Get(f, K_TARGET), "target_logical_message_id");
  }

  function ReactionRefusal(f: seq<Field>): Option<string> {
    Rule(CommonAnd(f, {K_TARGET, K_EMOJI}), "message_reaction_keys",
    Rule(Get(f, K_EMOJI).Null? || GoodShort(Get(f, K_EMOJI), 32), "reaction_emoji",
    Rule(GoodId(Get(f, K_TARGET)), "target_logical_message_id", None)))
  }

  lemma ReactionFault(f: seq<Field>)
    ensures ErrorOf(NormalizeBody(REACTION, f)) == ReactionRefusal(f)
  {
    hide Get, AsId, GoodId, Lit;
    KindNames();
    IdFault(Get(f, K_TARGET), "target_logical_message_id");
  }

  function DeleteRefusal(f: seq<Field>): Option<string> {
    Rule(CommonAnd(f, {K_TARGET}), "message_delete_keys",
    Rule(GoodId(Get(f, K_TARGET)), "target_logical_message_id", None))
  }

  lemma DeleteFault(f: seq<Field>)
    ensures ErrorOf(NormalizeBody(DELETE, f)) == DeleteRefusal(f)
  {
    hide Get, AsId, GoodId, Lit;
    KindNames();
    IdFault(Get(f, K_TARGET), "target_logical_message_id");
  }

  function BodyRefusal(f: seq<Field>): Option<string> {
    if Get(f, K_KIND) == Str(Lit("message.create")) then CreateRefusal(f)
    else if Get(f, K_KIND) == Str(Lit("message.edit")) then EditRefusal(f)
    else if Get(f, K_KIND) == Str(Lit("message.reaction")) then ReactionRefusal(f)
    else DeleteRefusal(f)
  }

  predicate GoodDate(parses: Text -> bool, v: Value) { v.Str? && Matches(ISO_DATE_PATTERN, v.s) && parses(v.s) }

  predicate GoodKind(v: Value) { OneOf(v, {Lit("message.create"), Lit("message.edit"), Lit("message.reaction"), Lit("message.delete")}) }

  function EventRefusal(parses: Text -> bool, f: seq<Field>): Option<string> {
    Rule(Get(f, K_V) == Num(ONE), "content_version",
    Rule(GoodKind(Get(f, K_KIND)), "content_kind",
    Rule(GoodId(Get(f, K_LOGICAL)), "logical_message_id",
    Rule(GoodDate(parses, Get(f, K_CREATED)), "client_created_at", BodyRefusal(f)))))
  }

  lemma BodyFault(f: seq<Field>)
    requires GoodKind(Get(f, K_KIND))
    ensures ErrorOf(NormalizeBody(Get(f, K_KIND).s, f)) == BodyRefusal(f)
  {
    hide Get, NormalizeBody, CreateRefusal, EditRefusal, ReactionRefusal, DeleteRefusal, Lit;
    KindNames();
    CreateFault(f);
    EditFault(f);
    ReactionFault(f);
    DeleteFault(f);
  }

  /** An event is refused with the code of the first rule that it breaks, and printing it never fails for its size. */
  lemma EventFault(parses: Text -> bool, v: Value)
    ensures ErrorOf(Normalize(parses, v)) == if v.Obj? then EventRefusal(parses, v.fields) else Some("content_event")
    ensures IsValue(v) ==> ErrorOf(Encode(parses, v)) == ErrorOf(Normalize(parses, v))
  {
    hide Get, NormalizeBody, BodyRefusal, AsId, GoodId, IsIsoDate, Matches, Lit, IsValue, EventValue;
    if v.Obj? {
      var f := v.fields;
      IdFault(Get(f, K_LOGICAL), "logical_message_id");
      if Get(f, K_CREATED).Str? {
        DateIsPattern(Get(f, K_CREATED).s);
      }
      if GoodKind(Get(f, K_KIND)) {
        BodyFault(f);
      }
    }
    if IsValue(v) {
      EncodeSucceeds(parses, v);
    }
  }

  /** What the decoder adds: a text that is too long, or no JSON. */
  lemma DecodeFault(parses: Text -> bool, encoded: Text)
    ensures ErrorOf(Decode(parses, encoded)) ==
      Rule(|Bytes(encoded)| <= 65536, "content_size",
      if Parse(encoded).None? then Some("content_json") else ErrorOf(Normalize(parses, Parse(encoded).value)))
  {
    hide Normalize, Parse, Bytes, Utf8Length;
    CountsUtf8(encoded);
  }
}
