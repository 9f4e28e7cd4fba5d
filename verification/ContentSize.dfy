/** The wire form of an accepted event always fits, and decodes to the event's normal form. */
module ContentSize {
  import opened Wrappers
  import opened Unicode
  import opened Json
  import opened JsonNumbers
  import opened JsonStrings
  import opened Validators
  import opened ContentEvent
  import opened ContentRoundTrip

  lemma UnitSize(u: CodeUnit)
    requires u < 0x80
    ensures Utf8Length([u]) == 1
  {
    AsciiLength([u]);
  }

  lemma ConcatSize(a: Text, b: Text)
    ensures Utf8Length(a + b) <= Utf8Length(a) + Utf8Length(b)
  {
    Utf8LengthConcat(a, b);
  }

  function SizeBound(fields: seq<Field>): nat {
    if fields == [] then 0
    else 6 * |fields[0].key| + 4 + Utf8Length(Print(fields[0].value)) + SizeBound(fields[1..])
  }

  lemma FieldSize(f: Field)
    ensures Utf8Length(PrintField(f)) <= 6 * |f.key| + 3 + Utf8Length(Print(f.value))
  {
    hide Print, Quote;
    QuoteLength(f.key);
    UnitSize(COLON);
    ConcatSize(Quote(f.key), [COLON]);
    ConcatSize(Quote(f.key) + [COLON], Print(f.value));
  }

  lemma {:induction false} FieldsSize(fields: seq<Field>)
    ensures Utf8Length(PrintFields(fields)) <= SizeBound(fields)
  {
    hide PrintField;
    if fields != [] {
      FieldSize(fields[0]);
      if |fields| > 1 {
        FieldsSize(fields[1..]);
        UnitSize(COMMA);
        ConcatSize(PrintField(fields[0]), [COMMA]);
        ConcatSize(PrintField(fields[0]) + [COMMA], PrintFields(fields[1..]));
      }
    }
  }

  lemma ObjectSize(fields: seq<Field>)
    ensures Utf8Length(Print(Obj(fields))) <= SizeBound(fields) + 2
  {
    hide PrintFields, SizeBound;
    FieldsSize(fields);
    UnitSize(OPEN_OBJECT);
    UnitSize(CLOSE_OBJECT);
    ConcatSize([OPEN_OBJECT], PrintFields(fields));
    ConcatSize([OPEN_OBJECT] + PrintFields(fields), [CLOSE_OBJECT]);
  }

  lemma {:induction false} SizeBoundConcat(a: seq<Field>, b: seq<Field>)
    ensures SizeBound(a + b) == SizeBound(a) + SizeBound(b)
  {
    if a == [] {
      assert a + b == b;
    } else {
      assert (a + b)[1..] == a[1..] + b;
      SizeBoundConcat(a[1..], b);
    }
  }

  lemma OneField(f: Field)
    ensures SizeBound([f]) == 6 * |f.key| + 4 + Utf8Length(Print(f.value))
  {
    assert [f][1..] == [];
  }

  lemma StrSize(key: Text, s: Text)
    ensures SizeBound([Field(key, Str(s))]) <= 6 * |key| + 6 * |s| + 6
  {
    OneField(Field(key, Str(s)));
    QuoteLength(s);
  }

  lemma NumSize(key: Text, x: Float)
    requires ValidFloat(x)
    ensures SizeBound([Field(key, Num(x))]) <= 6 * |key| + 29
  {
    OneField(Field(key, Num(x)));
    FloatLength(x);
    AsciiLength(PrintFloat(x));
  }

  /** No attachment prints to more than 32 KiB, whether or not the source measures it. */
  lemma AttachmentFits(a: Attachment)
    requires NormalAttachment(a)
    ensures AttachmentSize(a) <= MAX_ATTACHMENT_BYTES
  {
    hide SizeBound, Print;
    if a.Location? {
      KeyNames();
      assert |LOCATION| == 8;
      var fields := AttachmentFields(a);
      ObjectSize(fields);
      StrSize(K_KIND, LOCATION);
      NumSize(K_LATITUDE, a.latitude);
      NumSize(K_LONGITUDE, a.longitude);
      var k, la, lo := [Field(K_KIND, Str(LOCATION))], [Field(K_LATITUDE, Num(a.latitude))], [Field(K_LONGITUDE, Num(a.longitude))];
      SizeBoundConcat(k, la);
      SizeBoundConcat(k + la, lo);
      if a.accuracy.Some? {
        var ac := [Field(K_ACCURACY, Num(a.accuracy.value))];
        NumSize(K_ACCURACY, a.accuracy.value);
        SizeBoundConcat(k + la + lo, ac);
        assert fields == k + la + lo + ac;
      } else {
        assert fields == k + la + lo;
      }
    }
  }

  lemma BodyFits(b: Body)
    requires NormalBody(b)
    ensures SizeBound(BodyFields(b)) <= 40000
  {
    hide SizeBound, Print, NormalAttachment, AttachmentFields;
    KeyNames();
    match b
    case Create(text, attachment) =>
      var t := OptionalField(K_TEXT, if text.None? then None else Some(Str(text.value)));
      var a := OptionalField(K_ATTACHMENT, if attachment.None? then None else Some(AttachmentValue(attachment.value)));
      SizeBoundConcat(t, a);
      EmptySize();
      if text.Some? {
        StrSize(K_TEXT, text.value);
      }
      if attachment.Some? {
        AttachmentFits(attachment.value);
        OneField(Field(K_ATTACHMENT, AttachmentValue(attachment.value)));
      }
    case Edit(target, text) =>
      StrSize(K_TARGET, target);
      StrSize(K_TEXT, text);
      SizeBoundConcat([Field(K_TARGET, Str(target))], [Field(K_TEXT, Str(text))]);
      assert BodyFields(b) == [Field(K_TARGET, Str(target))] + [Field(K_TEXT, Str(text))];
    case Reaction(target, emoji) =>
      var e := Field(K_EMOJI, if emoji.None? then Null else Str(emoji.value));
      StrSize(K_TARGET, target);
      if emoji.None? {
        OneField(e);
        NullSize();
      } else {
        StrSize(K_EMOJI, emoji.value);
      }
      SizeBoundConcat([Field(K_TARGET, Str(target))], [e]);
      assert BodyFields(b) == [Field(K_TARGET, Str(target))] + [e];
    case Delete(target) =>
      StrSize(K_TARGET, target);
  }

  lemma EmptySize()
    ensures SizeBound([]) == 0
  {
  }

  lemma NullSize()
    ensures Utf8Length(Print(Null)) == 4
  {
    AsciiLength(NULL);
  }

  /** Every event that normalises also encodes: the 64 KiB check of encodeContentEvent never fires. */
  lemma EventFits(parses: Text -> bool, e: Event)
    requires NormalEvent(parses, e)
    ensures Utf8Length(Print(EventValue(e))) <= MAX_CONTENT_EVENT_BYTES
  {
    hide SizeBound, Print, BodyFields, NormalBody;
    KeyNames();
    var fields := EventValue(e).fields;
    ObjectSize(fields);
    BodyFits(e.body);
    var f0, f1 := [Field(K_V, Num(ONE))], [Field(K_KIND, Str(KindOf(e.body)))];
    var f2, f3 := [Field(K_LOGICAL, Str(e.logicalMessageId))], [Field(K_CREATED, Str(e.clientCreatedAt))];
    NumSize(K_V, ONE);
    StrSize(K_KIND, KindOf(e.body));
    StrSize(K_LOGICAL, e.logicalMessageId);
    StrSize(K_CREATED, e.clientCreatedAt);
    SizeBoundConcat(f0, f1);
    SizeBoundConcat(f0 + f1, f2);
    SizeBoundConcat(f0 + f1 + f2, f3);
    SizeBoundConcat(f0 + f1 + f2 + f3, BodyFields(e.body));
    assert fields == f0 + f1 + f2 + f3 + BodyFields(e.body);
  }

  lemma EncodeSucceeds(parses: Text -> bool, v: Value)
    requires IsValue(v)
    ensures Encode(parses, v).Ok? <==> Normalize(parses, v).Ok?
    ensures Encode(parses, v).Fail? ==> Encode(parses, v).code != "content_size"
  {
    if Normalize(parses, v).Ok? {
      EventNormal(parses, v);
      EventFits(parses, Normalize(parses, v).value);
    } else {
      FailureCodes(parses, v);
    }
  }

  lemma AttachmentCodes(v: Value)
    requires NormalizeAttachment(v).Fail?
    ensures |NormalizeAttachment(v).code| >= 10 && NormalizeAttachment(v).code[0] == 'a'
  {
  }

  lemma BodyCodes(kind: Text, fields: seq<Field>)
    requires NormalizeBody(kind, fields).Fail?
    ensures NormalizeBody(kind, fields).code != "content_size"
  {
    hide NormalizeAttachment, NormalizeText, NormalizeRequiredText, NormalizeEmoji, OnlyKeys, AsId;
    var attachment := Get(fields, K_ATTACHMENT);
    if NormalizeAttachment(attachment).Fail? {
      AttachmentCodes(attachment);
    }
    PlainCodes(Get(fields, K_TEXT), Get(fields, K_EMOJI), Get(fields, K_TARGET));
  }

  lemma PlainCodes(text: Value, emoji: Value, target: Value)
    ensures NormalizeText(text).Fail? ==> NormalizeText(text).code == "text"
    ensures NormalizeRequiredText(text).Fail? ==> NormalizeRequiredText(text).code == "text"
    ensures NormalizeEmoji(emoji).Fail? ==> NormalizeEmoji(emoji).code == "reaction_emoji"
    ensures AsId(target, "target_logical_message_id").Fail? ==> AsId(target, "target_logical_message_id").code == "target_logical_message_id"
  {
  }

  lemma FailureCodes(parses: Text -> bool, v: Value)
    requires Normalize(parses, v).Fail?
    ensures Normalize(parses, v).code != "content_size"
  {
    hide NormalizeBody;
    assert "content_size"[8] == 's' && |"content_size"| == 12;
    if v.Obj? {
      var kind := Get(v.fields, K_KIND);
      if kind.Str? && NormalizeBody(kind.s, v.fields).Fail? {
        BodyCodes(kind.s, v.fields);
      }
    }
  }

  /** Decoding the encoded event gives the normal form of the event. */
  lemma EncodeDecode(parses: Text -> bool, v: Value)
    requires IsValue(v) && Normalize(parses, v).Ok?
    ensures Encode(parses, v).Ok?
    ensures Decode(parses, Encode(parses, v).value) == Normalize(parses, v)
  {
    hide Normalize, Parse, Print, EventValue, NormalBody;
    var e := Normalize(parses, v).value;
    EventNormal(parses, v);
    EventFits(parses, e);
    EventIsJson(e);
    RoundTrip(EventValue(e));
    EventFixed(parses, e);
  }

  /** Two events have the same wire form exactly when they have the same normal form. */
  lemma EncodeInjective(parses: Text -> bool, v: Value, w: Value)
    requires IsValue(v) && IsValue(w) && Normalize(parses, v).Ok? && Normalize(parses, w).Ok?
    ensures Encode(parses, v) == Encode(parses, w) <==> Normalize(parses, v) == Normalize(parses, w)
  {
    hide Normalize, Decode;
    EncodeDecode(parses, v);
    EncodeDecode(parses, w);
  }
}
