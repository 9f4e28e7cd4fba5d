/** The gate of the key transparency log in plain terms: the text of an entry letter by letter, and what makes an
    entry real, with dates counted in days. */
module EntryTexts {
  import opened Wrappers
  import opened Unicode
  import opened Decimal
  import opened JsonNumbers
  import opened JsonStrings
  import opened Json
  import opened Validators
  import opened Patterns
  import opened CheckPatterns
  import opened TransparencyLog
  import opened TransparencyGate
  import opened Calendar

  // ---------- real entries ----------

  /** A millisecond of the Gregorian calendar in the years 0 to 9999. */
  predicate RealTime(t: Timestamp) {
    t.year <= 9999 && RealDate(t.year, t.month, t.day) && t.hour <= 23 && t.minute <= 59 && t.second <= 59 && t.milli <= 999
  }

  predicate RealEntry(e: Entry) {
    && 1 <= e.generation <= 18446744073709551615 && Matches(HASH_PATTERN, e.root)
    && (e.previous.Some? ==> 1 <= e.previous.value.generation < e.generation && Matches(HASH_PATTERN, e.previous.value.root))
    && 1 <= e.updateCount <= 100000 && RealTime(e.createdAt)
  }

  lemma TimeIsReal(t: Timestamp)
    ensures ValidTime(t) <==> RealTime(t)
  {
    hide DayNumber, NextMonth;
    if 1 <= t.month <= 12 {
      MonthLength(t.year, t.month);
      DaysAdd(t.year, t.month, t.day);
    }
  }

  lemma EntryIsReal(e: Entry)
    ensures ValidEntry(e) <==> RealEntry(e)
  {
    hide ValidTime, RealTime, Matches, IsHash;
    TimeIsReal(e.createdAt);
    HashIsPattern(e.root);
    if e.previous.Some? {
      HashIsPattern(e.previous.value.root);
    }
  }

  // ---------- the text of an entry ----------

  /** The decimal of `n`. */
  function Ten(n: nat): Text { if n < 10 then [0x30 + n] else Ten(n / 10) + [0x30 + n % 10] }

  /** The last `width` digits of `n`. */
  function Padded(n: nat, width: nat): Text { if width == 0 then [] else Padded(n / 10, width - 1) + [0x30 + n % 10] }

  /** YYYY-MM-DDTHH:MM:SS.mmmZ */
  function Stamp(t: Timestamp): Text {
    Padded(t.year, 4) + Lit("-") + Padded(t.month, 2) + Lit("-") + Padded(t.day, 2) + Lit("T")
    + Padded(t.hour, 2) + Lit(":") + Padded(t.minute, 2) + Lit(":") + Padded(t.second, 2) + Lit(".") + Padded(t.milli, 3) + Lit("Z")
  }

  function Quoted(t: Text): Text { Lit("\"") + t + Lit("\"") }

  function Named(name: string, value: Text): Text { Quoted(Lit(name)) + Lit(":") + value }

  function EntryText(e: Entry): Text {
    Lit("{") + Named("tag", Quoted(Lit("VOLNA-CHAT-KEY-TRANSPARENCY-ROOT"))) + Lit(",") + Named("version", Lit("1"))
    + Lit(",") + Named("generation", Quoted(Ten(e.generation))) + Lit(",") + Named("root", Quoted(e.root))
    + Lit(",") + Named("previousGeneration", if e.previous.None? then Lit("null") else Quoted(Ten(e.previous.value.generation)))
    + Lit(",") + Named("previousRoot", if e.previous.None? then Lit("null") else Quoted(e.previous.value.root))
    + Lit(",") + Named("updateCount", Ten(e.updateCount)) + Lit(",") + Named("createdAt", Quoted(Stamp(e.createdAt))) + Lit("}")
  }

  // ---------- the printer prints it ----------

  lemma ShowJoin(a: seq<Digit>, b: seq<Digit>)
    ensures Show(a + b) == Show(a) + Show(b)
  {
  }

  lemma ShowOne(d: Digit)
    ensures Show([d]) == [0x30 + d as int]
  {
  }

  lemma {:induction false} TenIsDigits(n: nat)
    ensures Ten(n) == Show(Digits(n))
  {
    if n >= 10 {
      TenIsDigits(n / 10);
      ShowJoin(Digits(n / 10), [n % 10]);
      ShowOne(n % 10);
    } else {
      ShowOne(n);
    }
  }

  lemma Padded1(n: nat)
    requires n < 10
    ensures Padded(n, 1) == [0x30 + n]
  {
    assert Padded(n / 10, 0) == [];
  }

  lemma Padded2(n: nat)
    requires n < 100
    ensures Padded(n, 2) == Show(Pad2(n))
  {
    Padded1(n / 10);
  }

  lemma Padded3(n: nat)
    requires n < 1000
    ensures Padded(n, 3) == Show(Pad3(n))
  {
    Padded2(n / 10);
    assert n / 100 == n / 10 / 10;
  }

  lemma Padded4(n: nat)
    requires n < 10000
    ensures Padded(n, 4) == Show(Pad4(n))
  {
    Padded3(n / 10);
    assert n / 1000 == n / 10 / 100 && n / 100 == n / 10 / 10;
  }

  lemma StampIsFormat(t: Timestamp)
    requires ValidTime(t)
    ensures Stamp(t) == FormatTime(t)
  {
    hide Padded, Show, Pad2, Pad3, Pad4;
    Padded4(t.year);
    Padded2(t.month);
    Padded2(t.day);
    Padded2(t.hour);
    Padded2(t.minute);
    Padded2(t.second);
    Padded3(t.milli);
    Marks();
  }

  lemma Marks()
    ensures Lit("-") == [MINUS] && Lit("T") == [0x54] && Lit(":") == [COLON] && Lit(".") == [DOT] && Lit("Z") == [0x5A]
    ensures Lit("\"") == [QUOTE] && Lit("{") == [OPEN_OBJECT] && Lit("}") == [CLOSE_OBJECT] && Lit(",") == [COMMA]
    ensures Lit("null") == NULL && Lit("1") == [0x31]
  {
  }

  lemma NumberPrints(n: nat)
    requires n <= 100000
    ensures Print(Num(FloatOfInt(n))) == Ten(n)
  {
    TenIsDigits(n);
    var ds := Digits(n);
    NumberOfDigits(n);
    assert Pow10(6) == 1000000;
    DigitsBound(n, 6);
    if n == 0 {
      assert ds == [0] && ds[1..] == [];
    } else {
      StripExact(ds);
    }
  }

  lemma FieldPrints(name: string, value: Value, text: Text)
    requires PlainText(Lit(name)) && Print(value) == text
    ensures PrintField(Field(Lit(name), value)) == Named(name, text)
  {
    hide Print, Quote;
    PlainQuote(Lit(name));
    Marks();
  }

  lemma StringPrints(t: Text)
    requires PlainText(t)
    ensures Print(Str(t)) == Quoted(t)
  {
    hide Quote;
    PlainQuote(t);
    Marks();
  }

  lemma PointerPrints(p: Option<Text>)
    requires p.Some? ==> PlainText(p.value)
    ensures Print(PointerValue(p)) == if p.None? then Lit("null") else Quoted(p.value)
  {
    Marks();
    if p.Some? {
      StringPrints(p.value);
    }
  }

  lemma HashIsPlain(s: Text)
    requires IsHash(s)
    ensures PlainText(s)
  {
  }

  lemma {:induction false} FieldsSnoc(f: seq<Field>, k: nat)
    requires 0 < k < |f|
    ensures PrintFields(f[..k + 1]) == PrintFields(f[..k]) + Lit(",") + PrintField(f[k])
    decreases |f|
  {
    hide PrintField;
    Marks();
    var a, b := f[..k], f[..k + 1];
    if k == 1 {
      assert b[1..] == [f[1]];
    } else {
      FieldsSnoc(f[1..], k - 1);
      assert f[1..][..k] == b[1..] && f[1..][..k - 1] == a[1..] && f[1..][k - 1] == f[k];
      Assoc(PrintField(f[0]) + [COMMA], PrintFields(a[1..]), Lit(","));
      Assoc(PrintField(f[0]) + [COMMA], PrintFields(a[1..]) + Lit(","), PrintField(f[k]));
    }
  }

  lemma FirstField(f: seq<Field>)
    requires |f| >= 1
    ensures PrintFields(f[..1]) == PrintField(f[0])
  {
  }

  lemma FourFields(f: seq<Field>)
    requires |f| > 4
    ensures PrintFields(f[..4]) ==
      PrintField(f[0]) + Lit(",") + PrintField(f[1]) + Lit(",") + PrintField(f[2]) + Lit(",") + PrintField(f[3])
  {
    hide PrintField, PrintFields, Lit;
    FirstField(f);
    FieldsSnoc(f, 1);
    FieldsSnoc(f, 2);
    FieldsSnoc(f, 3);
  }

  lemma EightFields(f: seq<Field>)
    requires |f| == 8
    ensures PrintFields(f) == PrintField(f[0]) + Lit(",") + PrintField(f[1]) + Lit(",") + PrintField(f[2]) + Lit(",") + PrintField(f[3])
      + Lit(",") + PrintField(f[4]) + Lit(",") + PrintField(f[5]) + Lit(",") + PrintField(f[6]) + Lit(",") + PrintField(f[7])
  {
    hide PrintField, PrintFields, Lit;
    FourFields(f);
    FieldsSnoc(f, 4);
    FieldsSnoc(f, 5);
    FieldsSnoc(f, 6);
    FieldsSnoc(f, 7);
    assert f[..8] == f;
  }

  lemma EntryPrints(e: Entry)
    requires ValidEntry(e)
    ensures PrintEntry(e) == EntryText(e)
  {
    hide Print, PrintField, PrintFields, FloatOfInt, Digits, Quote, Named, Quoted, Ten, Stamp, FormatTime, Lit, IsHash, PlainText;
    var r := RawOf(e);
    var f := RawFields(r);
    FieldNamesPlain();
    DecimalPlain(e.generation);
    TimePlain(e.createdAt);
    StampIsFormat(e.createdAt);
    HashIsPlain(e.root);
    TenIsDigits(e.generation);
    if e.previous.Some? {
      DecimalPlain(e.previous.value.generation);
      TenIsDigits(e.previous.value.generation);
      HashIsPlain(e.previous.value.root);
    }
    StringPrints(r.tag);
    NumberPrints(1);
    TenIsOne();
    StringPrints(r.generation);
    StringPrints(r.root);
    PointerPrints(r.previousGeneration);
    PointerPrints(r.previousRoot);
    NumberPrints(e.updateCount);
    StringPrints(r.createdAt);
    FieldPrints("tag", f[0].value, Quoted(r.tag));
    FieldPrints("version", f[1].value, Ten(1));
    FieldPrints("generation", f[2].value, Quoted(r.generation));
    FieldPrints("root", f[3].value, Quoted(r.root));
    FieldPrints("previousGeneration", f[4].value, if e.previous.None? then Lit("null") else Quoted(r.previousGeneration.value));
    FieldPrints("previousRoot", f[5].value, if e.previous.None? then Lit("null") else Quoted(r.previousRoot.value));
    FieldPrints("updateCount", f[6].value, Ten(e.updateCount));
    FieldPrints("createdAt", f[7].value, Quoted(r.createdAt));
    EightFields(f);
    ObjectText(f);
    Braces();
    Chain(Lit("{"), Lit(","), Lit("}"), PrintField(f[0]), PrintField(f[1]), PrintField(f[2]), PrintField(f[3]), PrintField(f[4]),
          PrintField(f[5]), PrintField(f[6]), PrintField(f[7]));
  }

  lemma Assoc(a: Text, b: Text, c: Text)
    ensures a + (b + c) == a + b + c
  {
  }

  lemma Chain(open: Text, comma: Text, close: Text, a: Text, b: Text, c: Text, d: Text, e: Text, f: Text, g: Text, h: Text)
    ensures open + (a + comma + b + comma + c + comma + d + comma + e + comma + f + comma + g + comma + h) + close
         == open + a + comma + b + comma + c + comma + d + comma + e + comma + f + comma + g + comma + h + close
  {
    Assoc(open, a, comma);
    Assoc(open, a + comma, b);
    Assoc(open, a + comma + b, comma);
    Assoc(open, a + comma + b + comma, c);
    Assoc(open, a + comma + b + comma + c, comma);
    Assoc(open, a + comma + b + comma + c + comma, d);
    Assoc(open, a + comma + b + comma + c + comma + d, comma);
    Assoc(open, a + comma + b + comma + c + comma + d + comma, e);
    Assoc(open, a + comma + b + comma + c + comma + d + comma + e, comma);
    Assoc(open, a + comma + b + comma + c + comma + d + comma + e + comma, f);
    Assoc(open, a + comma + b + comma + c + comma + d + comma + e + comma + f, comma);
    Assoc(open, a + comma + b + comma + c + comma + d + comma + e + comma + f + comma, g);
    Assoc(open, a + comma + b + comma + c + comma + d + comma + e + comma + f + comma + g, comma);
    Assoc(open, a + comma + b + comma + c + comma + d + comma + e + comma + f + comma + g + comma, h);
  }

  lemma TenIsOne()
    ensures Ten(1) == Lit("1")
  {
  }

  lemma Braces()
    ensures Lit("{") == [OPEN_OBJECT] && Lit("}") == [CLOSE_OBJECT]
  {
  }

  // ---------- the theorem ----------

  /** The gate accepts exactly the texts of real entries, letter by letter, of at most 2048 bytes, and hands them on
      unchanged. */
  lemma GateIsReal(raw: seq<Byte>)
    ensures CanonicalEntry(raw).Some? <==> exists e :: RealEntry(e) && raw == EntryText(e)
    ensures CanonicalEntry(raw).Some? ==> CanonicalEntry(raw) == Some(raw) && |raw| <= 2048
  {
    hide CanonicalEntry, PrintEntry, EntryText, ValidEntry, RealEntry;
    GateIsExact(raw);
    if CanonicalEntry(raw).Some? {
      var e := PassedIsPrinted(raw);
      EntryIsReal(e);
      EntryPrints(e);
      PrintedEntryFits(e);
    }
    forall e | RealEntry(e) && raw == EntryText(e)
      ensures CanonicalEntry(raw).Some?
    {
      EntryIsReal(e);
      EntryPrints(e);
      PrintedEntryPasses(e, raw);
    }
  }
}
