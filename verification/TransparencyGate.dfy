/** The gate accepts exactly the printings of valid entries, and returns them unchanged. */
module TransparencyGate {
  import opened Wrappers
  import opened Unicode
  import opened Scanning
  import opened Decimal
  import opened JsonNumbers
  import opened JsonStrings
  import opened Json
  import opened Validators
  import opened TransparencyLog

  // ---------- decimals ----------

  lemma ScanAll(ds: seq<Digit>)
    ensures ScanDigits(Show(ds)) == Scan(ds, [])
  {
    ScanShown(ds, []);
    assert Show(ds) + [] == Show(ds);
  }

  lemma {:induction false} ShowScanned(s: Text)
    requires ScanDigits(s).rest == []
    ensures Show(ScanDigits(s).digits) == s
  {
    if s != [] {
      ShowScanned(s[1..]);
      var tail := ScanDigits(s[1..]);
      assert ScanDigits(s).digits == [s[0] - 0x30] + tail.digits;
      assert s == [s[0]] + s[1..];
    }
  }

  /** FormatUint prints, and the gate's check on a generation reads back, one decimal for each number. */
  lemma GenerationExact(s: Text, n: nat)
    ensures GenerationOk(s) && ParseUint(s).value == n <==> s == FormatUint(n) && 0 < n < UINT64_LIMIT
  {
    ScanAll(Digits(n));
    NumberOfDigits(n);
  }

  lemma FloatOfNatExact(n: nat)
    requires n <= 100000
    ensures ValidFloat(FloatOfInt(n)) && IntOf(FloatOfInt(n)) == Some(n)
  {
    var ds := Digits(n);
    NumberOfDigits(n);
    assert Pow10(6) == 1000000;
    DigitsBound(n, 6);
    if n == 0 {
      assert ds == [0] && ds[1..] == [];
    } else {
      StripExact(ds);
      var stripped := StripTrailing(ds);
      assert stripped + Zeros(|ds| - |stripped|) == ds;
    }
  }

  /** Stripping trailing zeros keeps the digits in front of them. */
  lemma {:induction false} StripExact(ds: seq<Digit>)
    requires ds != [] && ds[0] != 0
    ensures var r := StripTrailing(ds); Trimmed(r) && |r| <= |ds| && r + Zeros(|ds| - |r|) == ds
  {
    if ds[|ds| - 1] == 0 {
      StripExact(ds[..|ds| - 1]);
    }
  }

  // ---------- times ----------

  lemma NumberSnoc(ds: seq<Digit>, d: Digit)
    ensures Number(ds + [d]) == Number(ds) * 10 + d
  {
    assert (ds + [d])[..|ds|] == ds;
  }

  lemma Pad2Exact(n: nat)
    requires n < 100
    ensures Number(Pad2(n)) == n
  {
    hide Number;
    NumberOne(n / 10);
    NumberSnoc([n / 10], n % 10);
    assert Pad2(n) == [n / 10] + [n % 10];
  }

  lemma NumberOne(d: Digit)
    ensures Number([d]) == d
  {
    NumberSnoc([], d);
    assert [] + [d] == [d];
  }

  lemma Pad3Exact(n: nat)
    requires n < 1000
    ensures Number(Pad3(n)) == n
  {
    hide Number;
    Pad2Exact(n / 10);
    NumberSnoc(Pad2(n / 10), n % 10);
    assert n / 100 == n / 10 / 10;
    assert Pad3(n) == Pad2(n / 10) + [n % 10];
  }

  lemma Pad4Exact(n: nat)
    requires n < 10000
    ensures Number(Pad4(n)) == n
  {
    hide Number;
    Pad3Exact(n / 10);
    NumberSnoc(Pad3(n / 10), n % 10);
    assert n / 1000 == n / 10 / 100 && n / 100 == n / 10 / 10;
    assert Pad4(n) == Pad3(n / 10) + [n % 10];
  }

  lemma ShownDigits(ds: seq<Digit>, rest: Text)
    ensures DigitsAt(Show(ds) + rest, 0, |ds|)
  {
    var s := Show(ds) + rest;
    forall i | 0 <= i < |ds|
      ensures IsDigit(s[i])
    {
      assert s[i] == Glyph(ds[i]);
    }
  }

  lemma FrontAndBack(a: Text, b: Text)
    ensures (a + b)[..|a|] == a && (a + b)[|a|..] == b
  {
  }

  lemma ReadPadded(ds: seq<Digit>, rest: Text)
    ensures ReadFixed(Show(ds) + rest, |ds|) == Got(Number(ds), rest)
  {
    hide ScanDigits, Number, Show, DigitsAt;
    FrontAndBack(Show(ds), rest);
    ShownDigits(ds, rest);
    ScanAll(ds);
  }

  lemma ReadMarked(ds: seq<Digit>, mark: CodeUnit, rest: Text)
    ensures Field1(ReadFixed(Show(ds) + [mark] + rest, |ds|), mark) == Some((Number(ds), rest))
  {
    hide ReadFixed, Number, Show;
    ReadPadded(ds, [mark] + rest);
    Assoc(Show(ds), [mark], rest);
    Behind(mark, rest);
  }

  lemma Behind(mark: CodeUnit, rest: Text)
    ensures StartsWith([mark] + rest, mark) && ([mark] + rest)[1..] == rest
  {
  }

  /** time.Parse inverts Format on real calendar times. */
  lemma TimeRoundTrip(t: Timestamp)
    requires ValidTime(t)
    ensures ParseTime(FormatTime(t)) == Some(t)
  {
    hide ReadFixed, Field1, Number, Show;
    Pad4Exact(t.year);
    Pad2Exact(t.month);
    Pad2Exact(t.day);
    Pad2Exact(t.hour);
    Pad2Exact(t.minute);
    Pad2Exact(t.second);
    Pad3Exact(t.milli);
    var s6 := [DOT] + Show(Pad3(t.milli)) + [0x5A];
    var s5 := Show(Pad2(t.second)) + s6;
    var s4 := Show(Pad2(t.minute)) + [COLON] + s5;
    var s3 := Show(Pad2(t.hour)) + [COLON] + s4;
    var s2 := Show(Pad2(t.day)) + [0x54] + s3;
    var s1 := Show(Pad2(t.month)) + [MINUS] + s2;
    var s0 := Show(Pad4(t.year)) + [MINUS] + s1;
    assert FormatTime(t) == s0;
    ReadMarked(Pad4(t.year), MINUS, s1);
    ReadMarked(Pad2(t.month), MINUS, s2);
    ReadMarked(Pad2(t.day), 0x54, s3);
    ReadMarked(Pad2(t.hour), COLON, s4);
    HourHasTwoDigits(t.hour, s4);
    ReadMarked(Pad2(t.minute), COLON, s5);
    ReadPadded(Pad2(t.second), s6);
    MillisRead(t.milli);
  }

  lemma HourHasTwoDigits(hour: nat, rest: Text)
    requires hour < 100
    ensures var s := Show(Pad2(hour)) + [COLON] + rest; ReadHour(s) == ReadFixed(s, 2)
  {
    hide ReadFixed;
    var s := Show(Pad2(hour)) + [COLON] + rest;
    assert s[0] == Glyph(hour / 10) && s[1] == Glyph(hour % 10);
  }

  lemma MillisRead(milli: nat)
    requires milli < 1000
    ensures Field1(ReadMillis([DOT] + Show(Pad3(milli)) + [0x5A]), 0x5A) == Some((Number(Pad3(milli)), []))
  {
    hide ReadFixed, Number;
    var s := [DOT] + Show(Pad3(milli)) + [0x5A];
    assert s[1] == Glyph(milli / 100);
    assert s[1..] == Show(Pad3(milli)) + [0x5A] + [];
    ReadMarked(Pad3(milli), 0x5A, []);
  }

  // ---------- the struct ----------

  lemma FieldNames()
    ensures |F_TAG| == 3 && |F_VERSION| == 7 && |F_GENERATION| == 10 && |F_ROOT| == 4
    ensures |F_PREVIOUS_GENERATION| == 18 && |F_PREVIOUS_ROOT| == 12 && |F_UPDATE_COUNT| == 11 && |F_CREATED_AT| == 9
  {
  }

  lemma RawKeys(r: RawEntry)
    ensures DistinctKeys(RawFields(r))
  {
    FieldNames();
    var f := RawFields(r);
    assert f[0].key == F_TAG && f[1].key == F_VERSION && f[2].key == F_GENERATION && f[3].key == F_ROOT;
    assert f[4].key == F_PREVIOUS_GENERATION && f[5].key == F_PREVIOUS_ROOT && f[6].key == F_UPDATE_COUNT && f[7].key == F_CREATED_AT;
  }

  lemma AssignStep(r: RawEntry, f: Field, tail: seq<Field>)
    ensures AssignAll(r, [f] + tail) == match Assign(r, f) case None => None case Some(next) => AssignAll(next, tail)
  {
    assert ([f] + tail)[1..] == tail;
  }

  /** The struct once the first `k` members of `r` are assigned. */
  function Assigned(r: RawEntry, k: nat): RawEntry {
    RawEntry(if k > 0 then r.tag else [], if k > 1 then r.version else 0, if k > 2 then r.generation else [],
             if k > 3 then r.root else [], if k > 4 then r.previousGeneration else None,
             if k > 5 then r.previousRoot else None, if k > 6 then r.updateCount else 0, if k > 7 then r.createdAt else [])
  }

  lemma AssignMember(r: RawEntry, k: nat)
    requires k < 8 && 0 <= r.version <= 100000 && 0 <= r.updateCount <= 100000
    ensures Assign(Assigned(r, k), RawFields(r)[k]) == Some(Assigned(r, k + 1))
  {
    hide FloatOfInt, IntOf, Lower;
    FieldNames();
    FloatOfNatExact(r.version);
    FloatOfNatExact(r.updateCount);
  }

  lemma {:induction false} AssignFrom(r: RawEntry, k: nat)
    requires k <= 8 && 0 <= r.version <= 100000 && 0 <= r.updateCount <= 100000
    ensures AssignAll(Assigned(r, k), RawFields(r)[k..]) == Some(r)
    decreases 8 - k
  {
    hide Assign, RawFields;
    var f := RawFields(r);
    RawWidth(r);
    if k == 8 {
      assert f[8..] == [];
    } else {
      AssignMember(r, k);
      AssignFrom(r, k + 1);
      assert f[k..] == [f[k]] + f[k + 1..];
      AssignStep(Assigned(r, k), f[k], f[k + 1..]);
    }
  }

  lemma RawWidth(r: RawEntry)
    ensures |RawFields(r)| == 8
  {
  }

  /** The members in struct order assign every field. */
  lemma DecodeFields(r: RawEntry)
    requires 0 <= r.version <= 100000 && 0 <= r.updateCount <= 100000
    ensures DecodeEntry(Obj(RawFields(r))) == Some(r)
  {
    hide Assign, AssignAll, RawFields;
    AssignFrom(r, 0);
    assert RawFields(r)[0..] == RawFields(r);
  }

  lemma RawIsJson(r: RawEntry)
    requires 0 <= r.version <= 100000 && 0 <= r.updateCount <= 100000
    ensures IsJson(Obj(RawFields(r)))
  {
    hide FloatOfInt, IntOf;
    RawKeys(r);
    FloatOfNatExact(r.version);
    FloatOfNatExact(r.updateCount);
    var f := RawFields(r);
    assert IsJson(f[4].value) && IsJson(f[5].value);
  }

  // ---------- the checks and the meaning ----------

  lemma EntryAccepted(e: Entry)
    requires ValidEntry(e)
    ensures EntryOk(RawOf(e))
  {
    hide ParseTime, FormatTime, ParseUint, FormatUint;
    var r := RawOf(e);
    GenerationExact(r.generation, e.generation);
    TimeRoundTrip(e.createdAt);
    if e.previous.Some? {
      GenerationExact(r.previousGeneration.value, e.previous.value.generation);
    }
  }

  /** The entry that accepted members describe. */
  function MeaningOf(r: RawEntry): Entry
    requires EntryOk(r)
  {
    Entry(ParseUint(r.generation).value, r.root,
          if r.previousGeneration.None? then None
          else Some(Predecessor(ParseUint(r.previousGeneration.value).value, r.previousRoot.value)),
          r.updateCount, ParseTime(r.createdAt).value)
  }

  lemma ParsedTimeValid(s: Text)
    requires ParseTime(s).Some?
    ensures ValidTime(ParseTime(s).value)
  {
    hide ReadFixed, Field1, ReadHour, ReadMillis;
  }

  lemma MeaningExact(r: RawEntry)
    requires EntryOk(r)
    ensures ValidEntry(MeaningOf(r)) && RawOf(MeaningOf(r)) == r
  {
    hide ParseTime, FormatTime, ParseUint, FormatUint;
    var e := MeaningOf(r);
    GenerationExact(r.generation, e.generation);
    ParsedTimeValid(r.createdAt);
    if r.previousGeneration.Some? {
      GenerationExact(r.previousGeneration.value, e.previous.value.generation);
    }
  }

  // ---------- the printed bytes ----------

  /** Text that JSON prints without escapes. */
  predicate PlainText(s: Text) {
    forall i :: 0 <= i < |s| ==> 0x20 < s[i] < 0x7F && s[i] != QUOTE && s[i] != BACKSLASH
  }

  lemma {:induction false} PlainEscape(s: Text)
    requires PlainText(s)
    ensures EscapeAll(s) == s
  {
    if s != [] {
      PlainEscape(s[1..]);
      assert s == [s[0]] + s[1..];
    }
  }

  lemma PlainQuote(s: Text)
    requires PlainText(s)
    ensures Quote(s) == [QUOTE] + s + [QUOTE] && Graphic(Quote(s)) && |Quote(s)| == |s| + 2
  {
    PlainEscape(s);
  }

  /** A member whose printing is graphic, and how long it is. */
  lemma PlainField(key: Text, v: Value, n: nat)
    requires PlainText(key) && Graphic(Print(v)) && |Print(v)| <= n
    ensures Graphic(PrintField(Field(key, v))) && |PrintField(Field(key, v))| <= |key| + n + 3
  {
    hide Print, Quote;
    PlainQuote(key);
  }

  lemma PlainString(s: Text)
    requires PlainText(s)
    ensures Graphic(Print(Str(s))) && |Print(Str(s))| == |s| + 2
  {
    PlainQuote(s);
  }

  lemma PlainPointer(p: Option<Text>, n: nat)
    requires p.Some? ==> PlainText(p.value) && |p.value| <= n
    ensures Graphic(Print(PointerValue(p))) && |Print(PointerValue(p))| <= n + 4
  {
    if p.Some? {
      PlainString(p.value);
    }
  }

  lemma PlainInt(n: nat)
    requires n <= 100000
    ensures Graphic(Print(Num(FloatOfInt(n)))) && |Print(Num(FloatOfInt(n)))| <= 25
  {
    FloatOfNatExact(n);
    FloatLength(FloatOfInt(n));
  }

  lemma {:induction false} PlainFields(fields: seq<Field>, n: nat)
    requires forall i :: 0 <= i < |fields| ==> Graphic(PrintField(fields[i])) && |PrintField(fields[i])| <= n
    ensures Graphic(PrintFields(fields)) && |PrintFields(fields)| <= |fields| * (n + 1)
  {
    hide PrintField;
    if |fields| > 1 {
      PlainFields(fields[1..], n);
      assert |fields| * (n + 1) == (n + 1) + |fields[1..]| * (n + 1);
    }
  }

  lemma FieldNamesPlain()
    ensures PlainText(F_TAG) && PlainText(F_VERSION) && PlainText(F_GENERATION) && PlainText(F_ROOT)
    ensures PlainText(F_PREVIOUS_GENERATION) && PlainText(F_PREVIOUS_ROOT) && PlainText(F_UPDATE_COUNT) && PlainText(F_CREATED_AT)
    ensures PlainText(ROOT_TAG) && |ROOT_TAG| == 32
  {
    LitPlain("tag");
    LitPlain("version");
    LitPlain("generation");
    LitPlain("root");
    LitPlain("previousGeneration");
    LitPlain("previousRoot");
    LitPlain("updateCount");
    LitPlain("createdAt");
    LitPlain("VOLNA-CHAT-KEY-TRANSPARENCY-ROOT");
  }

  lemma LitPlain(s: string)
    requires forall i :: 0 <= i < |s| ==> ' ' < s[i] < '\U{7F}' && s[i] != '"' && s[i] != '\\'
    ensures PlainText(Lit(s))
  {
  }

  lemma DecimalPlain(n: nat)
    requires n < UINT64_LIMIT
    ensures PlainText(FormatUint(n)) && |FormatUint(n)| <= 20
  {
    assert Pow10(10) == 10000000000;
    Pow10Sum(10, 10);
    DigitsBound(n, 20);
  }

  lemma {:induction false} Pow10Sum(a: nat, b: nat)
    ensures Pow10(a + b) == Pow10(a) * Pow10(b)
  {
    if a > 0 {
      Pow10Sum(a - 1, b);
      assert Pow10(a) * Pow10(b) == 10 * (Pow10(a - 1) * Pow10(b));
    }
  }

  /** The printing of a valid entry is graphic ASCII and fits into the limit of the server. */
  lemma PrintedEntryFits(e: Entry)
    requires ValidEntry(e)
    ensures Graphic(PrintEntry(e)) && 0 < |PrintEntry(e)| <= MAX_ENTRY_BYTES
  {
    hide Print, PrintField, PrintFields, Show, FloatOfInt, Digits, Quote;
    var r := RawOf(e);
    var f := RawFields(r);
    FieldNames();
    FieldNamesPlain();
    DecimalPlain(e.generation);
    TimePlain(e.createdAt);
    if e.previous.Some? {
      DecimalPlain(e.previous.value.generation);
    }
    PlainString(r.tag);
    PlainString(r.generation);
    PlainString(r.root);
    PlainString(r.createdAt);
    PlainPointer(r.previousGeneration, 64);
    PlainPointer(r.previousRoot, 64);
    PlainInt(r.version);
    PlainInt(r.updateCount);
    PlainField(f[0].key, f[0].value, 100);
    PlainField(f[1].key, f[1].value, 100);
    PlainField(f[2].key, f[2].value, 100);
    PlainField(f[3].key, f[3].value, 100);
    PlainField(f[4].key, f[4].value, 100);
    PlainField(f[5].key, f[5].value, 100);
    PlainField(f[6].key, f[6].value, 100);
    PlainField(f[7].key, f[7].value, 100);
    PlainFields(f, 121);
    ObjectText(f);
  }

  lemma ObjectText(fields: seq<Field>)
    ensures Print(Obj(fields)) == [OPEN_OBJECT] + PrintFields(fields) + [CLOSE_OBJECT]
  {
  }

  lemma TimePlain(t: Timestamp)
    requires ValidTime(t)
    ensures PlainText(FormatTime(t))
  {
  }

  // ---------- the theorem ----------

  /** Every printing of a valid entry passes the gate unchanged. */
  lemma PrintedEntryPasses(e: Entry, raw: seq<Byte>)
    requires ValidEntry(e) && raw == PrintEntry(e)
    ensures CanonicalEntry(raw) == Some(raw)
  {
    hide EntryOk, RawFields, ReadValue, DecodeEntry;
    var r := RawOf(e);
    PrintedEntryFits(e);
    RawIsJson(r);
    RoundTripPrefix(Obj(RawFields(r)));
    DecodeFields(r);
    EntryAccepted(e);
  }

  lemma RoundTripPrefix(v: Value)
    requires IsJson(v)
    ensures ReadValue(Print(v)) == Got(v, [])
  {
    ValueRoundTrip(v, []);
    assert Print(v) + [] == Print(v);
  }

  /** Whatever passes the gate is the printing of the entry that it describes. */
  lemma PassedIsPrinted(raw: seq<Byte>) returns (e: Entry)
    requires CanonicalEntry(raw).Some?
    ensures CanonicalEntry(raw) == Some(raw) && ValidEntry(e) && raw == PrintEntry(e)
  {
    hide EntryOk, ReadValue, DecodeEntry;
    var entry := DecodeEntry(ReadValue(raw).value).value;
    MeaningExact(entry);
    e := MeaningOf(entry);
  }

  /** The gate accepts a body if and only if it is the JSON text of a valid entry, and hands it on unchanged. */
  lemma GateIsExact(raw: seq<Byte>)
    ensures CanonicalEntry(raw).Some? <==> exists e :: ValidEntry(e) && raw == PrintEntry(e)
    ensures CanonicalEntry(raw).Some? ==> CanonicalEntry(raw) == Some(raw)
  {
    hide CanonicalEntry, PrintEntry, ValidEntry;
    if CanonicalEntry(raw).Some? {
      var e := PassedIsPrinted(raw);
    }
    forall e | ValidEntry(e) && raw == PrintEntry(e)
      ensures CanonicalEntry(raw).Some?
    {
      PrintedEntryPasses(e, raw);
    }
  }

  /** Two valid entries never share a text, so a logged body has one meaning. */
  lemma PrintedEntryInjective(e: Entry, f: Entry)
    requires ValidEntry(e) && ValidEntry(f) && PrintEntry(e) == PrintEntry(f)
    ensures e == f
  {
    hide EntryOk, RawFields, ReadValue, DecodeEntry;
    RawIsJson(RawOf(e));
    RawIsJson(RawOf(f));
    RoundTripPrefix(Obj(RawFields(RawOf(e))));
    RoundTripPrefix(Obj(RawFields(RawOf(f))));
    DecodeFields(RawOf(e));
    DecodeFields(RawOf(f));
    SameMeaning(e, f);
  }

  lemma SameMeaning(e: Entry, f: Entry)
    requires ValidEntry(e) && ValidEntry(f) && RawOf(e) == RawOf(f)
    ensures e == f
  {
    hide FormatTime, FormatUint, ParseUint, ParseTime;
    TimeRoundTrip(e.createdAt);
    TimeRoundTrip(f.createdAt);
    GenerationExact(FormatUint(e.generation), e.generation);
    GenerationExact(FormatUint(e.generation), f.generation);
    if e.previous.Some? {
      GenerationExact(FormatUint(e.previous.value.generation), e.previous.value.generation);
      GenerationExact(FormatUint(e.previous.value.generation), f.previous.value.generation);
    }
  }
}
