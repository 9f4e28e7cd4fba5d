/** The grammar of JSON texts (RFC 8259), and that JSON.parse reads exactly its texts. */
module JsonGrammar {
  import opened Wrappers
  import opened Unicode
  import opened Scanning
  import opened Decimal
  import opened JsonNumbers
  import opened JsonStrings
  import opened Json

  // ---------- white space and strings (sections 2 and 7) ----------

  predicate IsBlankUnit(u: CodeUnit) { u == ' ' as int || u == '\t' as int || u == '\n' as int || u == '\r' as int }

  predicate Blank(t: Text) { forall i :: 0 <= i < |t| ==> IsBlankUnit(t[i]) }

  /** A backslash and a letter. */
  predicate ShortEscape(c: CodeUnit, u: CodeUnit) {
    || (c == '"' as int && u == 0x22) || (c == '\\' as int && u == 0x5C) || (c == '/' as int && u == 0x2F)
    || (c == 'b' as int && u == 0x08) || (c == 'f' as int && u == 0x0C) || (c == 'n' as int && u == 0x0A)
    || (c == 'r' as int && u == 0x0D) || (c == 't' as int && u == 0x09)
  }

  /** `c` is the hexadecimal digit `h`. */
  predicate HexDigit(c: CodeUnit, h: int) {
    || ('0' as int <= c <= '9' as int && h == c - '0' as int)
    || ('A' as int <= c <= 'F' as int && h == c - 'A' as int + 10)
    || ('a' as int <= c <= 'f' as int && h == c - 'a' as int + 10)
  }

  ghost predicate LongEscape(t: Text, u: CodeUnit)
    requires |t| == 6
  {
    exists a, b, c, d :: HexDigit(t[2], a) && HexDigit(t[3], b) && HexDigit(t[4], c) && HexDigit(t[5], d)
      && u == a * 4096 + b * 256 + c * 16 + d
  }

  /** One unit of a string: itself, or an escape. */
  ghost predicate UnitText(u: CodeUnit, t: Text) {
    || (t == [u] && u >= 0x20 && u != 0x22 && u != 0x5C)
    || (|t| == 2 && t[0] == 0x5C && ShortEscape(t[1], u))
    || (|t| == 6 && t[0] == 0x5C && t[1] == 'u' as int && LongEscape(t, u))
  }

  ghost predicate CharsText(s: Text, t: Text)
    decreases |s|
  {
    if s == [] then t == []
    else exists k :: 1 <= k <= |t| && UnitText(s[0], t[..k]) && CharsText(s[1..], t[k..])
  }

  ghost predicate StringText(s: Text, t: Text) {
    |t| >= 2 && t[0] == 0x22 && t[|t| - 1] == 0x22 && CharsText(s, t[1..|t| - 1])
  }

  // ---------- numbers (section 6) ----------

  datatype Power = Power(upper: bool, sign: Option<bool>, digits: seq<Digit>)

  /** An integer part, an optional fraction, an optional exponent. */
  datatype Parts = Parts(negative: bool, whole: seq<Digit>, fraction: seq<Digit>, power: Option<Power>)

  predicate GoodParts(p: Parts) { NoLeadingZero(p.whole) && (p.power.Some? ==> p.power.value.digits != []) }

  function PowerText(p: Power): Text {
    [if p.upper then 'E' as int else 'e' as int]
    + (match p.sign case None => [] case Some(minus) => [if minus then '-' as int else '+' as int])
    + Show(p.digits)
  }

  function SignText(negative: bool): Text { if negative then ['-' as int] else [] }

  function FractionText(digits: seq<Digit>): Text { if digits == [] then [] else ['.' as int] + Show(digits) }

  function PowerPart(p: Option<Power>): Text {
    match p
    case None => []
    case Some(e) => PowerText(e)
  }

  function TailText(p: Parts): Text { FractionText(p.fraction) + PowerPart(p.power) }

  function PartsText(p: Parts): Text { SignText(p.negative) + (Show(p.whole) + TailText(p)) }

  function PowerValue(p: Option<Power>): int {
    match p
    case None => 0
    case Some(e) => if e.sign == Some(true) then -(Number(e.digits) as int) else Number(e.digits)
  }

  function PartsValue(p: Parts): Float { FromDecimal(p.negative, p.whole + p.fraction, |p.whole| + PowerValue(p.power)) }

  ghost predicate NumberText(x: Float, t: Text) { exists p :: GoodParts(p) && t == PartsText(p) && x == PartsValue(p) }

  // ---------- values (sections 3 to 5) ----------

  /** The value with blanks around it. */
  ghost predicate Spells(v: Value, t: Text)
    decreases |t|, 1
  {
    exists i, j :: 0 <= i <= j <= |t| && Blank(t[..i]) && Blank(t[j..]) && Core(v, t[i..j])
  }

  ghost predicate Core(v: Value, t: Text)
    decreases |t|, 0
  {
    match v
    case Null => t == Lit("null")
    case Bool(b) => t == if b then Lit("true") else Lit("false")
    case Num(x) => NumberText(x, t)
    case Str(s) => StringText(s, t)
    case Arr(items) =>
      && |t| >= 2 && t[0] == '[' as int && t[|t| - 1] == ']' as int
      && var inner := t[1..|t| - 1];
      if items == [] then Blank(inner) else ItemsText(items, inner)
    case Obj(fields) =>
      && |t| >= 2 && t[0] == '{' as int && t[|t| - 1] == '}' as int
      && var inner := t[1..|t| - 1];
      (fields == [] && Blank(inner)) || exists raw: seq<Field> :: raw != [] && FieldsText(raw, inner) && fields == PutAll([], raw)
    case _ => false
  }

  ghost predicate ItemsText(items: seq<Value>, t: Text)
    requires items != []
    decreases |t|, 2, |items|
  {
    if |items| == 1 then Spells(items[0], t)
    else exists k :: 0 <= k < |t| && t[k] == ',' as int && Spells(items[0], t[..k]) && ItemsText(items[1..], t[k + 1..])
  }

  ghost predicate KeyText(key: Text, t: Text) {
    exists i, j :: 0 <= i <= j <= |t| && Blank(t[..i]) && Blank(t[j..]) && StringText(key, t[i..j])
  }

  ghost predicate FieldText(f: Field, t: Text)
    decreases |t|, 2
  {
    exists k :: 0 <= k < |t| && t[k] == ':' as int && KeyText(f.key, t[..k]) && Spells(f.value, t[k + 1..])
  }

  ghost predicate FieldsText(raw: seq<Field>, t: Text)
    requires raw != []
    decreases |t|, 3, |raw|
  {
    if |raw| == 1 then FieldText(raw[0], t)
    else exists k :: 0 <= k < |t| && t[k] == ',' as int && FieldText(raw[0], t[..k]) && FieldsText(raw[1..], t[k + 1..])
  }

  /** The members of an object one after the other; a repeated name keeps its place and takes the new value. */
  function PutAll(before: seq<Field>, raw: seq<Field>): seq<Field>
    decreases |raw|
  {
    if raw == [] then before else PutAll(Put(before, raw[0].key, raw[0].value), raw[1..])
  }

  // ---------- blanks ----------

  lemma BlankIsSpace(u: CodeUnit)
    ensures IsBlankUnit(u) <==> IsSpace(u)
  {
  }

  lemma {:induction false} SkipBlank(b: Text, rest: Text)
    requires Blank(b)
    ensures SkipSpace(b + rest) == SkipSpace(rest)
  {
    if b == [] {
      assert b + rest == rest;
    } else {
      BlankIsSpace(b[0]);
      SkipBlank(b[1..], rest);
      assert (b + rest)[1..] == b[1..] + rest;
    }
  }

  lemma {:induction false} Skipped(s: Text) returns (k: nat)
    ensures k <= |s| && Blank(s[..k]) && SkipSpace(s) == s[k..]
  {
    if s != [] && IsSpace(s[0]) {
      var j := Skipped(s[1..]);
      k := j + 1;
      BlankIsSpace(s[0]);
      assert s[..k] == [s[0]] + s[1..][..j];
      assert s[1..][j..] == s[k..];
    } else {
      k := 0;
    }
  }

  lemma NotBlank(u: CodeUnit, rest: Text)
    requires !IsBlankUnit(u)
    ensures SkipSpace([u] + rest) == [u] + rest
  {
    BlankIsSpace(u);
  }

  // ---------- strings ----------

  lemma HexExact(c: CodeUnit, h: int)
    ensures HexDigit(c, h) <==> HexValue(c) == Some(h)
  {
  }

  lemma UnitRead(u: CodeUnit, t: Text, rest: Text)
    requires UnitText(u, t)
    ensures ReadUnit(t + rest) == Got(u, rest) && (t + rest)[0] != QUOTE
  {
    var s := t + rest;
    assert s[|t|..] == rest && forall i :: 0 <= i < |t| ==> s[i] == t[i];
    if |t| == 6 {
      var a, b, c, d :| HexDigit(t[2], a) && HexDigit(t[3], b) && HexDigit(t[4], c) && HexDigit(t[5], d)
        && u == a * 4096 + b * 256 + c * 16 + d;
      HexExact(t[2], a);
      HexExact(t[3], b);
      HexExact(t[4], c);
      HexExact(t[5], d);
      assert s[2..][0] == t[2] && s[2..][1] == t[3] && s[2..][2] == t[4] && s[2..][3] == t[5];
    } else if |t| == 1 {
      assert s[1..] == rest;
    }
  }

  lemma {:induction false} CharsRead(s: Text, t: Text, rest: Text)
    requires CharsText(s, t)
    ensures ReadChars(t + [QUOTE] + rest) == Got(s, rest)
    decreases |s|
  {
    hide UnitText, ReadUnit;
    if s == [] {
      assert t + [QUOTE] + rest == [QUOTE] + rest && ([QUOTE] + rest)[1..] == rest;
    } else {
      var k :| 1 <= k <= |t| && UnitText(s[0], t[..k]) && CharsText(s[1..], t[k..]);
      var more := t[k..] + [QUOTE] + rest;
      assert t + [QUOTE] + rest == t[..k] + more;
      UnitRead(s[0], t[..k], more);
      CharsRead(s[1..], t[k..], rest);
      assert s == [s[0]] + s[1..];
    }
  }

  lemma UnitIsText(s: Text) returns (k: nat)
    requires ReadUnit(s).Got?
    ensures 1 <= k <= |s| && ReadUnit(s).rest == s[k..] && UnitText(ReadUnit(s).value, s[..k])
  {
    if s[0] != BACKSLASH {
      k := 1;
      assert s[..1] == [s[0]];
    } else if s[1] == 0x75 {
      k := 6;
      HexIsText(s);
    } else {
      k := 2;
    }
  }

  lemma HexIsText(s: Text)
    requires |s| >= 2 && ReadHex(s[2..]).Some?
    ensures |s| >= 6 && LongEscape(s[..6], ReadHex(s[2..]).value)
  {
    var a, b, c, d := HexValue(s[2]).value, HexValue(s[3]).value, HexValue(s[4]).value, HexValue(s[5]).value;
    HexExact(s[2], a);
    HexExact(s[3], b);
    HexExact(s[4], c);
    HexExact(s[5], d);
    var t := s[..6];
    assert HexDigit(t[2], a) && HexDigit(t[3], b) && HexDigit(t[4], c) && HexDigit(t[5], d);
  }

  /** What is read is a text of the grammar in front of a quote. */
  lemma {:induction false} CharsAreText(s: Text) returns (k: nat)
    requires ReadChars(s).Got?
    ensures k < |s| && s[k] == QUOTE && ReadChars(s).rest == s[k + 1..] && CharsText(ReadChars(s).value, s[..k])
    decreases |s|
  {
    hide UnitText, ReadUnit;
    if s != [] && s[0] == QUOTE {
      k := 0;
    } else {
      var j := UnitIsText(s);
      var i := CharsAreText(s[j..]);
      k := i + j;
      var us := ReadChars(s).value;
      assert us[1..] == ReadChars(s[j..]).value;
      assert s[..k][..j] == s[..j] && s[..k][j..] == s[j..][..i];
      assert s[j..][i] == s[k] && s[j..][i + 1..] == s[k + 1..];
    }
  }

  // ---------- numbers ----------

  lemma DigitNext(ds: seq<Digit>, rest: Text)
    requires ds != []
    ensures IsDigit((Show(ds) + rest)[0]) && (Show(ds) + rest)[0] == Glyph(ds[0])
  {
  }

  lemma PowerRead(p: Power, rest: Text)
    requires p.digits != [] && NoDigitNext(rest)
    ensures ReadExponent(PowerText(p) + rest) == Got(PowerValue(Some(p)), rest)
    ensures !IsDigit((PowerText(p) + rest)[0]) && (PowerText(p) + rest)[0] != DOT
  {
    hide ScanDigits, Number;
    var s := PowerText(p) + rest;
    ScanShown(p.digits, rest);
    var shown := Show(p.digits) + rest;
    DigitNext(p.digits, rest);
    if p.sign.Some? {
      assert s[2..] == shown && s[1] == if p.sign.value then MINUS else PLUS;
    } else {
      assert s[1..] == shown && s[1] == shown[0];
    }
  }

  lemma TailRead(p: Parts, rest: Text)
    requires GoodParts(p) && EndsNumber(rest)
    ensures NoDigitNext(TailText(p) + rest)
    ensures var mid := PowerPart(p.power) + rest;
      ReadFraction(TailText(p) + rest) == Got(p.fraction, mid) && ReadExponent(mid) == Got(PowerValue(p.power), rest)
  {
    hide ScanDigits, Number, PowerPart, ReadExponent, ReadFraction, PowerValue, Show;
    var mid := PowerPart(p.power) + rest;
    PowerPartRead(p.power, rest);
    Assoc(FractionText(p.fraction), PowerPart(p.power), rest);
    if p.fraction == [] {
      assert TailText(p) + rest == mid;
      NoFraction(mid);
    } else {
      ReadFractionShown(p.fraction, mid);
      assert TailText(p) + rest == [DOT] + Show(p.fraction) + mid;
    }
  }

  lemma NoFraction(mid: Text)
    requires mid == [] || mid[0] != DOT
    ensures ReadFraction(mid) == Got([], mid)
  {
  }

  lemma PowerPartRead(p: Option<Power>, rest: Text)
    requires (p.Some? ==> p.value.digits != []) && EndsNumber(rest)
    ensures var mid := PowerPart(p) + rest;
      ReadExponent(mid) == Got(PowerValue(p), rest) && NoDigitNext(mid) && (mid == [] || mid[0] != DOT)
  {
    hide PowerText, ReadExponent, PowerValue;
    if p.Some? {
      PowerRead(p.value, rest);
    } else {
      assert PowerPart(p) + rest == rest;
      NothingRead(rest);
      NoPower();
    }
  }

  lemma NoPower()
    ensures PowerValue(None) == 0
  {
  }

  lemma NothingRead(rest: Text)
    requires EndsNumber(rest)
    ensures ReadExponent(rest) == Got(0, rest)
  {
  }

  lemma NumberRead(x: Float, t: Text, rest: Text)
    requires NumberText(x, t) && EndsNumber(rest)
    ensures ReadFloat(t + rest) == Got(x, rest)
  {
    hide ReadFloat, ReadFraction, ReadExponent, FromDecimal, TailText, Show, EndsNumber;
    var p :| GoodParts(p) && t == PartsText(p) && x == PartsValue(p);
    TailRead(p, rest);
    var mid := PowerPart(p.power) + rest;
    ReadParts(p.negative, p.whole, TailText(p) + rest, p.fraction, mid, PowerValue(p.power), rest);
    var sign := SignText(p.negative);
    assert t + rest == sign + (Show(p.whole) + (TailText(p) + rest));
  }

  lemma {:induction false} ScanIsShow(s: Text)
    ensures s == Show(ScanDigits(s).digits) + ScanDigits(s).rest && NoDigitNext(ScanDigits(s).rest)
  {
    if s != [] && IsDigit(s[0]) {
      ScanIsShow(s[1..]);
      var tail := ScanDigits(s[1..]);
      var ds := ScanDigits(s).digits;
      assert ds == [s[0] - 0x30] + tail.digits && Show(ds) == [s[0]] + Show(tail.digits);
      assert s == [s[0]] + s[1..];
    }
  }

  lemma PowerIsText(s: Text) returns (p: Option<Power>)
    requires ReadExponent(s).Got?
    ensures p.Some? ==> p.value.digits != []
    ensures s == PowerPart(p) + ReadExponent(s).rest
    ensures ReadExponent(s).value == PowerValue(p)
  {
    hide ScanDigits, Number, Show;
    if s == [] || (s[0] != EXPONENT && s[0] != 0x45) {
      p := None;
    } else {
      var signed := |s| > 1 && (s[1] == MINUS || s[1] == PLUS);
      var t := if signed then s[2..] else s[1..];
      ScanIsShow(t);
      var ds := ScanDigits(t).digits;
      p := Some(Power(s[0] == 0x45, if signed then Some(s[1] == MINUS) else None, ds));
      PowerJoins([s[0]], if signed then [s[1]] else [], Show(ds), ReadExponent(s).rest);
      assert s == [s[0]] + ((if signed then [s[1]] else []) + t);
    }
  }

  lemma PowerJoins(mark: Text, sign: Text, digits: Text, rest: Text)
    ensures mark + (sign + (digits + rest)) == mark + sign + digits + rest
  {
  }

  lemma FractionIsText(s: Text)
    requires ReadFraction(s).Got?
    ensures s == FractionText(ReadFraction(s).value) + ReadFraction(s).rest
  {
    hide ScanDigits;
    if s != [] && s[0] == DOT {
      ScanIsShow(s[1..]);
      assert s == [s[0]] + s[1..];
    }
  }

  lemma NumberIsText(s: Text) returns (k: nat)
    requires ReadFloat(s).Got?
    ensures k <= |s| && ReadFloat(s).rest == s[k..] && NumberText(ReadFloat(s).value, s[..k])
  {
    var p := NumberSplits(s);
    k := PartsEnd(s, p, ReadFloat(s).rest);
  }

  lemma NumberSplits(s: Text) returns (p: Parts)
    requires ReadFloat(s).Got?
    ensures GoodParts(p) && ReadFloat(s).value == PartsValue(p) && s == PartsText(p) + ReadFloat(s).rest
  {
    hide ReadFraction, ReadExponent, FromDecimal, ScanDigits, Show, FractionText, PowerPart, PowerValue, SignText;
    var negative := s != [] && s[0] == MINUS;
    var t := if negative then s[1..] else s;
    ScanIsShow(t);
    var whole := ScanDigits(t);
    FractionIsText(whole.rest);
    var fraction := ReadFraction(whole.rest);
    var power := PowerIsText(fraction.rest);
    p := Parts(negative, whole.digits, fraction.value, power);
    SignIsText(s);
    Assemble(SignText(negative), Show(p.whole), FractionText(p.fraction), PowerPart(power), ReadFloat(s).rest);
  }

  lemma SignIsText(s: Text)
    ensures var negative := s != [] && s[0] == MINUS; s == SignText(negative) + (if negative then s[1..] else s)
  {
  }

  lemma Assemble(sign: Text, whole: Text, fraction: Text, power: Text, rest: Text)
    ensures sign + (whole + (fraction + (power + rest))) == (sign + (whole + (fraction + power))) + rest
  {
  }

  lemma PartsEnd(s: Text, p: Parts, rest: Text) returns (k: nat)
    requires s == PartsText(p) + rest
    ensures k <= |s| && s[k..] == rest && s[..k] == PartsText(p)
  {
    hide PartsText;
    k := |PartsText(p)|;
  }

  // ---------- every text of the grammar is read ----------

  /** What may follow a value. */
  predicate Closes(rest: Text) { rest == [] || rest[0] == ',' as int || rest[0] == ']' as int || rest[0] == '}' as int }

  predicate Follows(rest: Text) { Closes(rest) || IsBlankUnit(rest[0]) }

  lemma BlankFollows(b: Text, rest: Text)
    requires Blank(b) && Closes(rest)
    ensures Follows(b + rest)
  {
    if b == [] {
      assert b + rest == rest;
    } else {
      assert (b + rest)[0] == b[0];
    }
  }

  lemma Punctuation()
    ensures COMMA == ',' as int && COLON == ':' as int && OPEN_ARRAY == '[' as int && CLOSE_ARRAY == ']' as int
    ensures OPEN_OBJECT == '{' as int && CLOSE_OBJECT == '}' as int && QUOTE == '"' as int
    ensures TRUE == Lit("true") && FALSE == Lit("false") && NULL == Lit("null")
  {
  }

  /** Numbers start with a minus or a digit. */
  lemma NumberStarts(x: Float, t: Text)
    requires NumberText(x, t)
    ensures t != [] && (t[0] == '-' as int || IsDigit(t[0]))
  {
    hide FromDecimal, TailText;
    var p :| GoodParts(p) && t == PartsText(p) && x == PartsValue(p);
    DigitNext(p.whole, TailText(p));
  }

  lemma CoreStarts(v: Value, t: Text)
    requires Core(v, t)
    ensures t != [] && !IsBlankUnit(t[0]) && t[0] != ']' as int && t[0] != '}' as int
  {
    hide NumberText, StringText, ItemsText, FieldsText;
    Punctuation();
    if v.Num? {
      NumberStarts(v.x, t);
    } else if v.Str? {
      StringStarts(v.s, t);
    }
  }

  lemma StringStarts(s: Text, t: Text)
    requires StringText(s, t)
    ensures t != [] && t[0] == '"' as int
  {
  }

  lemma ReadBlank(b: Text, s: Text)
    requires Blank(b)
    ensures ReadValue(b + s) == ReadValue(s) && ReadField(b + s) == ReadField(s)
  {
    hide ReadChars, ReadItems, ReadFields, ReadFloat;
    SkipBlank(b, s);
  }

  lemma WordRead(word: Text, v: Value, rest: Text)
    requires (word == TRUE && v == Bool(true)) || (word == FALSE && v == Bool(false)) || (word == NULL && v == Null)
    ensures ReadValue(word + rest) == Got(v, rest)
  {
    hide ReadChars, ReadItems, ReadFields, ReadFloat;
    var s := word + rest;
    assert s[0] == word[0] && s[..|word|] == word && s[|word|..] == rest;
    if word == TRUE {
      assert HasPrefix(s, TRUE);
    } else if word == FALSE {
      assert HasPrefix(s, FALSE) && !HasPrefix(s, TRUE);
    } else {
      assert HasPrefix(s, NULL) && !HasPrefix(s, TRUE) && !HasPrefix(s, FALSE);
    }
  }

  lemma NumberValueRead(x: Float, t: Text, rest: Text)
    requires NumberText(x, t) && Follows(rest)
    ensures ReadValue(t + rest) == Got(Num(x), rest)
  {
    hide ReadChars, ReadItems, ReadFields, ReadFloat, NumberText;
    NumberStarts(x, t);
    NumberRead(x, t, rest);
    assert (t + rest)[0] == t[0];
  }

  lemma StringRead(s: Text, t: Text, rest: Text)
    requires StringText(s, t)
    ensures ReadValue(t + rest) == Got(Str(s), rest) && StartsWith(t + rest, QUOTE) && ReadChars((t + rest)[1..]) == Got(s, rest)
  {
    hide ReadChars, ReadItems, ReadFields, ReadFloat, CharsText;
    var body := t[1..|t| - 1];
    CharsRead(s, body, rest);
    assert (t + rest)[1..] == body + [QUOTE] + rest;
  }

  lemma {:induction false} CoreRead(v: Value, t: Text, rest: Text)
    requires Core(v, t) && Follows(rest)
    ensures ReadValue(t + rest) == Got(v, rest)
    decreases |t|, 1
  {
    hide ReadValue, ReadItems, ReadFields, ReadFloat, ReadChars, NumberText, StringText;
    Punctuation();
    match v
    case Null => WordRead(t, v, rest);
    case Bool(b) => WordRead(t, v, rest);
    case Num(x) => NumberValueRead(x, t, rest);
    case Str(s) => StringRead(s, t, rest);
    case Arr(items) => ArrayRead(items, t, rest);
    case Obj(fields) => ObjectRead(fields, t, rest);
  }

  /** The opening bracket hands over to the contents. */
  lemma ArrayOpens(inner: Text)
    ensures ReadValue([OPEN_ARRAY] + inner) ==
      if StartsWith(SkipSpace(inner), CLOSE_ARRAY) then Got(Arr([]), SkipSpace(inner)[1..]) else ReadItems(inner, [])
  {
    hide ReadChars, ReadItems, ReadFields, ReadFloat;
    assert ([OPEN_ARRAY] + inner)[1..] == inner;
  }

  lemma ObjectOpens(inner: Text)
    ensures ReadValue([OPEN_OBJECT] + inner) ==
      if StartsWith(SkipSpace(inner), CLOSE_OBJECT) then Got(Obj([]), SkipSpace(inner)[1..]) else ReadFields(inner, [])
  {
    hide ReadChars, ReadItems, ReadFields, ReadFloat;
    assert ([OPEN_OBJECT] + inner)[1..] == inner;
  }

  lemma BlankCloses(b: Text, mark: CodeUnit, rest: Text)
    requires Blank(b) && !IsBlankUnit(mark)
    ensures SkipSpace(b + [mark] + rest) == [mark] + rest && ([mark] + rest)[1..] == rest
  {
    assert b + [mark] + rest == b + ([mark] + rest);
    SkipBlank(b, [mark] + rest);
    NotBlank(mark, rest);
  }

  lemma {:induction false} ArrayRead(items: seq<Value>, t: Text, rest: Text)
    requires Core(Arr(items), t)
    ensures ReadValue(t + rest) == Got(Arr(items), rest)
    decreases |t|, 0
  {
    hide ReadValue, ReadItems, SkipSpace, ItemsText;
    Punctuation();
    var inner := t[1..|t| - 1];
    var tail := inner + [CLOSE_ARRAY] + rest;
    assert t + rest == [OPEN_ARRAY] + tail;
    ArrayOpens(tail);
    if items == [] {
      BlankCloses(inner, CLOSE_ARRAY, rest);
    } else {
      ItemsRead(items, inner, [], rest);
      ItemsStart(items, inner, [CLOSE_ARRAY] + rest);
      assert inner + [CLOSE_ARRAY] + rest == inner + ([CLOSE_ARRAY] + rest);
      assert [] + items == items;
    }
  }

  lemma CutAt(t: Text, k: nat, rest: Text)
    requires k <= |t|
    ensures t + rest == t[..k] + (t[k..] + rest)
  {
  }

  /** The first item, and the comma behind it. */
  lemma ItemsSplit(items: seq<Value>, t: Text) returns (k: nat)
    requires |items| > 1 && ItemsText(items, t)
    ensures k < |t| && t[k] == ',' as int && Spells(items[0], t[..k]) && ItemsText(items[1..], t[k + 1..])
  {
    hide Spells;
    k :| 0 <= k < |t| && t[k] == ',' as int && Spells(items[0], t[..k]) && ItemsText(items[1..], t[k + 1..]);
  }

  lemma ItemsOne(items: seq<Value>, t: Text)
    requires |items| == 1 && ItemsText(items, t)
    ensures Spells(items[0], t)
  {
    hide Spells;
  }

  lemma FieldsSplit(raw: seq<Field>, t: Text) returns (k: nat)
    requires |raw| > 1 && FieldsText(raw, t)
    ensures k < |t| && t[k] == ',' as int && FieldText(raw[0], t[..k]) && FieldsText(raw[1..], t[k + 1..])
  {
    hide FieldText;
    k :| 0 <= k < |t| && t[k] == ',' as int && FieldText(raw[0], t[..k]) && FieldsText(raw[1..], t[k + 1..]);
  }

  lemma FieldsOne(raw: seq<Field>, t: Text)
    requires |raw| == 1 && FieldsText(raw, t)
    ensures FieldText(raw[0], t)
  {
    hide FieldText;
  }

  /** The text around a comma at `k`. */
  lemma CommaCut(t: Text, k: nat, close: CodeUnit, rest: Text)
    requires k < |t| && t[k] == COMMA
    ensures t + [close] + rest == t[..k] + ([COMMA] + (t[k + 1..] + [close] + rest))
  {
  }

  lemma Close(t: Text, close: CodeUnit, rest: Text)
    ensures t + [close] + rest == t + ([close] + rest)
  {
  }

  /** Contents do not start like an end. */
  lemma {:induction false} SpellsStart(v: Value, t: Text, rest: Text)
    requires Spells(v, t)
    ensures SkipSpace(t + rest) != [] && SkipSpace(t + rest)[0] != CLOSE_ARRAY && SkipSpace(t + rest)[0] != CLOSE_OBJECT
  {
    hide SkipSpace, Core;
    var i, j :| 0 <= i <= j <= |t| && Blank(t[..i]) && Blank(t[j..]) && Core(v, t[i..j]);
    CoreStarts(v, t[i..j]);
    assert t + rest == t[..i] + (t[i..] + rest);
    SkipBlank(t[..i], t[i..] + rest);
    var more := t[i + 1..] + rest;
    assert t[i..] + rest == [t[i]] + more && t[i] == t[i..j][0];
    NotBlank(t[i], more);
  }

  lemma ItemsStart(items: seq<Value>, t: Text, rest: Text)
    requires items != [] && ItemsText(items, t)
    ensures SkipSpace(t + rest) != [] && SkipSpace(t + rest)[0] != CLOSE_ARRAY
  {
    hide SkipSpace, Spells, ItemsText;
    if |items| == 1 {
      ItemsOne(items, t);
      SpellsStart(items[0], t, rest);
    } else {
      var k := ItemsSplit(items, t);
      SpellsStart(items[0], t[..k], t[k..] + rest);
      CutAt(t, k, rest);
    }
  }

  lemma Cut(t: Text, i: nat, j: nat, rest: Text)
    requires i <= j <= |t|
    ensures t + rest == t[..i] + (t[i..j] + (t[j..] + rest))
  {
  }

  lemma {:induction false} SpellsRead(v: Value, t: Text, rest: Text) returns (b: Text)
    requires Spells(v, t) && Closes(rest)
    ensures Blank(b) && ReadValue(t + rest) == Got(v, b + rest)
    decreases |t|, 2
  {
    hide ReadValue, Core;
    var i, j :| 0 <= i <= j <= |t| && Blank(t[..i]) && Blank(t[j..]) && Core(v, t[i..j]);
    b := t[j..];
    BlankFollows(b, rest);
    CoreRead(v, t[i..j], b + rest);
    ReadBlank(t[..i], t[i..j] + (b + rest));
    Cut(t, i, j, rest);
  }

  lemma {:induction false} ItemsRead(items: seq<Value>, t: Text, before: seq<Value>, rest: Text)
    requires items != [] && ItemsText(items, t)
    ensures ReadItems(t + [CLOSE_ARRAY] + rest, before) == Got(Arr(before + items), rest)
    decreases |t|, 3, |items|
  {
    hide ReadValue, ReadItems, SkipSpace, Spells, ItemsText, Blank;
    Punctuation();
    if |items| == 1 {
      ItemsOne(items, t);
      var tail := [CLOSE_ARRAY] + rest;
      var b := SpellsRead(items[0], t, tail);
      Close(t, CLOSE_ARRAY, rest);
      ItemsEnd(items[0], b, before, t + tail, rest);
      assert items == [items[0]];
    } else {
      var k := ItemsSplit(items, t);
      var more := t[k + 1..] + [CLOSE_ARRAY] + rest;
      var b := SpellsRead(items[0], t[..k], [COMMA] + more);
      CommaCut(t, k, CLOSE_ARRAY, rest);
      ItemsNext(items[0], b, before, t[..k] + ([COMMA] + more), more);
      ItemsRead(items[1..], t[k + 1..], before + [items[0]], rest);
      assert before + [items[0]] + items[1..] == before + items;
    }
  }

  lemma ItemsEnd(v: Value, b: Text, before: seq<Value>, s: Text, rest: Text)
    requires Blank(b) && ReadValue(s) == Got(v, b + ([CLOSE_ARRAY] + rest))
    ensures ReadItems(s, before) == Got(Arr(before + [v]), rest)
  {
    hide ReadValue, SkipSpace, Blank;
    Punctuation();
    BlankCloses(b, CLOSE_ARRAY, rest);
    Close(b, CLOSE_ARRAY, rest);
  }

  lemma ItemsNext(v: Value, b: Text, before: seq<Value>, s: Text, more: Text)
    requires Blank(b) && ReadValue(s) == Got(v, b + ([COMMA] + more))
    ensures ReadItems(s, before) == ReadItems(more, before + [v])
  {
    hide ReadValue, SkipSpace, Blank;
    Punctuation();
    BlankCloses(b, COMMA, more);
    Close(b, COMMA, more);
  }

  lemma {:induction false} ObjectRead(fields: seq<Field>, t: Text, rest: Text)
    requires Core(Obj(fields), t)
    ensures ReadValue(t + rest) == Got(Obj(fields), rest)
    decreases |t|, 0
  {
    hide ReadValue, ReadFields, SkipSpace, FieldsText, PutAll;
    Punctuation();
    var inner := t[1..|t| - 1];
    var tail := inner + [CLOSE_OBJECT] + rest;
    assert t + rest == [OPEN_OBJECT] + tail;
    ObjectOpens(tail);
    if fields == [] && Blank(inner) {
      BlankCloses(inner, CLOSE_OBJECT, rest);
    } else {
      var raw: seq<Field> :| raw != [] && FieldsText(raw, inner) && fields == PutAll([], raw);
      FieldsRead(raw, inner, [], rest);
      FieldsTextStart(raw, inner, [CLOSE_OBJECT] + rest);
      assert inner + [CLOSE_OBJECT] + rest == inner + ([CLOSE_OBJECT] + rest);
    }
  }

  lemma KeyStart(key: Text, t: Text, rest: Text)
    requires KeyText(key, t)
    ensures SkipSpace(t + rest) != [] && SkipSpace(t + rest)[0] == QUOTE
  {
    hide SkipSpace, StringText, Blank;
    var i, j :| 0 <= i <= j <= |t| && Blank(t[..i]) && Blank(t[j..]) && StringText(key, t[i..j]);
    StringStarts(key, t[i..j]);
    CutAt(t, i, rest);
    SkipBlank(t[..i], t[i..] + rest);
    var more := t[i + 1..] + rest;
    assert t[i] == t[i..j][0];
    assert t[i..] + rest == [t[i]] + more;
    NotBlank(t[i], more);
  }

  lemma FieldTextStart(f: Field, t: Text, rest: Text)
    requires FieldText(f, t)
    ensures SkipSpace(t + rest) != [] && SkipSpace(t + rest)[0] == QUOTE
  {
    hide SkipSpace, KeyText, Spells;
    var k :| 0 <= k < |t| && t[k] == ':' as int && KeyText(f.key, t[..k]) && Spells(f.value, t[k + 1..]);
    KeyStart(f.key, t[..k], t[k..] + rest);
    CutAt(t, k, rest);
  }

  lemma FieldsTextStart(raw: seq<Field>, t: Text, rest: Text)
    requires raw != [] && FieldsText(raw, t)
    ensures SkipSpace(t + rest) != [] && SkipSpace(t + rest)[0] == QUOTE
  {
    hide SkipSpace, FieldText, FieldsText;
    if |raw| == 1 {
      FieldsOne(raw, t);
      FieldTextStart(raw[0], t, rest);
    } else {
      var k := FieldsSplit(raw, t);
      FieldTextStart(raw[0], t[..k], t[k..] + rest);
      CutAt(t, k, rest);
    }
  }

  lemma {:induction false} FieldRead(f: Field, t: Text, rest: Text) returns (b: Text)
    requires FieldText(f, t) && Closes(rest)
    ensures Blank(b) && ReadField(t + rest) == Got(f, b + rest)
    decreases |t|, 3
  {
    hide ReadField, StringText, Spells, ReadValue;
    var k :| 0 <= k < |t| && t[k] == ':' as int && KeyText(f.key, t[..k]) && Spells(f.value, t[k + 1..]);
    b := SpellsRead(f.value, t[k + 1..], rest);
    NameRead(f, t[..k], t[k + 1..] + rest, b + rest);
    assert t + rest == t[..k] + ([COLON] + (t[k + 1..] + rest));
  }

  lemma NameRead(f: Field, key: Text, value: Text, rest: Text)
    requires KeyText(f.key, key) && ReadValue(value) == Got(f.value, rest)
    ensures ReadField(key + ([COLON] + value)) == Got(f, rest)
  {
    hide ReadField, StringText, ReadValue, SkipSpace, ReadChars;
    var i, j :| 0 <= i <= j <= |key| && Blank(key[..i]) && Blank(key[j..]) && StringText(f.key, key[i..j]);
    var behind := key[j..] + [COLON] + value;
    StringStarts(f.key, key[i..j]);
    StringRead(f.key, key[i..j], behind);
    KeyRead(f, key[i..j], key[j..], value, rest);
    ReadBlank(key[..i], key[i..j] + behind);
    Cut(key, i, j, [COLON] + value);
    assert key[j..] + ([COLON] + value) == behind;
  }

  /** A name, a colon and a value. */
  lemma KeyRead(f: Field, name: Text, blanks: Text, value: Text, rest: Text)
    requires Blank(blanks) && ReadValue(value) == Got(f.value, rest)
    requires var behind := blanks + [COLON] + value;
      StartsWith(name + behind, QUOTE) && name != [] && ReadChars((name + behind)[1..]) == Got(f.key, behind)
    ensures ReadField(name + (blanks + [COLON] + value)) == Got(f, rest)
  {
    hide ReadChars, ReadValue, SkipSpace;
    var behind := blanks + [COLON] + value;
    var s := name + behind;
    BlankCloses(blanks, COLON, value);
    assert s == [s[0]] + s[1..];
    NotBlank(s[0], s[1..]);
  }

  lemma {:induction false} FieldsRead(raw: seq<Field>, t: Text, before: seq<Field>, rest: Text)
    requires raw != [] && FieldsText(raw, t)
    ensures ReadFields(t + [CLOSE_OBJECT] + rest, before) == Got(Obj(PutAll(before, raw)), rest)
    decreases |t|, 4, |raw|
  {
    hide ReadField, ReadFields, SkipSpace, FieldText, FieldsText, Put, Blank;
    Punctuation();
    if |raw| == 1 {
      FieldsOne(raw, t);
      var tail := [CLOSE_OBJECT] + rest;
      var b := FieldRead(raw[0], t, tail);
      Close(t, CLOSE_OBJECT, rest);
      FieldsEnd(raw[0], b, before, t + tail, rest);
      assert raw[1..] == [];
    } else {
      var k := FieldsSplit(raw, t);
      var more := t[k + 1..] + [CLOSE_OBJECT] + rest;
      var b := FieldRead(raw[0], t[..k], [COMMA] + more);
      CommaCut(t, k, CLOSE_OBJECT, rest);
      FieldsNext(raw[0], b, before, t[..k] + ([COMMA] + more), more);
      FieldsRead(raw[1..], t[k + 1..], Put(before, raw[0].key, raw[0].value), rest);
    }
  }

  lemma FieldsEnd(f: Field, b: Text, before: seq<Field>, s: Text, rest: Text)
    requires Blank(b) && ReadField(s) == Got(f, b + ([CLOSE_OBJECT] + rest))
    ensures ReadFields(s, before) == Got(Obj(Put(before, f.key, f.value)), rest)
  {
    hide ReadField, SkipSpace, Blank, Put;
    Punctuation();
    BlankCloses(b, CLOSE_OBJECT, rest);
    Close(b, CLOSE_OBJECT, rest);
  }

  lemma FieldsNext(f: Field, b: Text, before: seq<Field>, s: Text, more: Text)
    requires Blank(b) && ReadField(s) == Got(f, b + ([COMMA] + more))
    ensures ReadFields(s, before) == ReadFields(more, Put(before, f.key, f.value))
  {
    hide ReadField, SkipSpace, Blank, Put;
    Punctuation();
    BlankCloses(b, COMMA, more);
    Close(b, COMMA, more);
  }

  // ---------- whatever is read is a text of the grammar ----------

  /** A value behind blanks. */
  ghost predicate Leads(v: Value, t: Text) { exists i :: 0 <= i <= |t| && Blank(t[..i]) && Core(v, t[i..]) }

  lemma LeadsSpells(v: Value, t: Text, k: nat)
    requires k <= |t| && Leads(v, t[..k]) && Blank(t[k..])
    ensures Spells(v, t)
  {
    hide Core;
    var i :| 0 <= i <= k && Blank(t[..k][..i]) && Core(v, t[..k][i..]);
    assert t[..k][..i] == t[..i] && t[..k][i..] == t[i..k];
  }

  lemma CoreLeads(v: Value, s: Text, i: nat, k: nat)
    requires i <= k <= |s| && Blank(s[..i]) && Core(v, s[i..k])
    ensures Leads(v, s[..k])
  {
    hide Core;
    assert s[..k][..i] == s[..i] && s[..k][i..] == s[i..k];
  }

  lemma WordIsCore(s: Text)
    ensures HasPrefix(s, TRUE) ==> Core(Bool(true), s[..4])
    ensures HasPrefix(s, FALSE) ==> Core(Bool(false), s[..5])
    ensures HasPrefix(s, NULL) ==> Core(Null, s[..4])
  {
    Punctuation();
  }

  lemma StringIsCore(s: Text) returns (k: nat)
    requires StartsWith(s, QUOTE) && ReadChars(s[1..]).Got?
    ensures 0 < k <= |s| && ReadChars(s[1..]).rest == s[k..] && StringText(ReadChars(s[1..]).value, s[..k])
  {
    hide ReadChars, CharsText;
    var j := CharsAreText(s[1..]);
    k := j + 2;
    assert s[1..][j] == s[j + 1] && s[1..][j + 1..] == s[k..];
    assert s[..k][1..|s[..k]| - 1] == s[1..][..j];
  }

  lemma BracketsAreArray(items: seq<Value>, t: Text)
    requires |t| >= 2 && t[0] == '[' as int && t[|t| - 1] == ']' as int
    requires if items == [] then Blank(t[1..|t| - 1]) else ItemsText(items, t[1..|t| - 1])
    ensures Core(Arr(items), t)
  {
    hide ItemsText;
  }

  lemma BracesAreObject(fields: seq<Field>, raw: seq<Field>, t: Text)
    requires |t| >= 2 && t[0] == '{' as int && t[|t| - 1] == '}' as int
    requires fields == PutAll([], raw)
    requires if raw == [] then Blank(t[1..|t| - 1]) else FieldsText(raw, t[1..|t| - 1])
    ensures Core(Obj(fields), t)
  {
    hide FieldsText;
    if raw == [] {
      assert fields == [];
    }
  }

  /** What ReadValue reads behind the blanks. */
  lemma {:induction false} CoreIsText(s: Text) returns (k: nat)
    requires ReadValue(s).Got? && SkipSpace(s) == s
    ensures k <= |s| && ReadValue(s).rest == s[k..] && Core(ReadValue(s).value, s[..k])
    decreases |s|, 1
  {
    hide ReadItems, ReadFields, ReadFloat, ReadChars, NumberText, StringText, SkipSpace, Core;
    Punctuation();
    if s[0] == QUOTE {
      k := StringIsCore(s);
      StringCore(ReadChars(s[1..]).value, s[..k]);
    } else if s[0] == OPEN_ARRAY {
      k := ArrayIsText(s);
    } else if s[0] == OPEN_OBJECT {
      k := ObjectIsText(s);
    } else if HasPrefix(s, TRUE) || HasPrefix(s, FALSE) || HasPrefix(s, NULL) {
      WordIsCore(s);
      k := |s| - |ReadValue(s).rest|;
    } else {
      k := NumberIsText(s);
      NumberCore(ReadFloat(s).value, s[..k]);
    }
  }

  lemma StringCore(s: Text, t: Text)
    requires StringText(s, t)
    ensures Core(Str(s), t)
  {
  }

  lemma NumberCore(x: Float, t: Text)
    requires NumberText(x, t)
    ensures Core(Num(x), t)
  {
  }

  lemma {:induction false} ArrayIsText(s: Text) returns (k: nat)
    requires s != [] && s[0] == OPEN_ARRAY && ReadValue(s).Got? && SkipSpace(s) == s
    ensures k <= |s| && ReadValue(s).rest == s[k..] && Core(ReadValue(s).value, s[..k])
    decreases |s|, 0
  {
    hide ReadItems, ReadValue, Core, SkipSpace, ItemsText;
    var inner := s[1..];
    assert s == [OPEN_ARRAY] + inner;
    ArrayOpens(inner);
    if StartsWith(SkipSpace(inner), CLOSE_ARRAY) {
      var j := Skipped(inner);
      k := j + 2;
      assert inner[j] == SkipSpace(inner)[0];
      assert s[..k][1..|s[..k]| - 1] == inner[..j] && s[k..] == inner[j..][1..];
      BracketsAreArray([], s[..k]);
    } else {
      var items, j := ItemsAreText(inner, []);
      k := j + 2;
      assert s[..k][1..|s[..k]| - 1] == inner[..j] && s[k..] == inner[j + 1..];
      assert [] + items == items;
      BracketsAreArray(items, s[..k]);
    }
  }

  lemma {:induction false} ValueIsText(s: Text) returns (k: nat)
    requires ReadValue(s).Got?
    ensures k <= |s| && ReadValue(s).rest == s[k..] && Leads(ReadValue(s).value, s[..k])
    decreases |s|, 2
  {
    hide ReadValue, Core;
    var i := Skipped(s);
    var t := s[i..];
    assert s == s[..i] + t;
    ReadBlank(s[..i], t);
    SkipBlank(s[..i], t);
    var j := CoreIsText(t);
    k := i + j;
    assert t[..j] == s[i..k] && t[j..] == s[k..];
    CoreLeads(ReadValue(s).value, s, i, k);
  }

  /** A value, the blanks behind it, and the mark that follows. */
  lemma {:induction false} ValueThenMark(s: Text) returns (k: nat)
    requires ReadValue(s).Got? && SkipSpace(ReadValue(s).rest) != []
    ensures k < |s| && s[k] == SkipSpace(ReadValue(s).rest)[0] && SkipSpace(ReadValue(s).rest)[1..] == s[k + 1..]
    ensures Spells(ReadValue(s).value, s[..k])
    decreases |s|, 3
  {
    hide ReadValue, SkipSpace, Leads, Spells;
    var j := ValueIsText(s);
    var i := Skipped(s[j..]);
    k := i + j;
    assert s[..k][..j] == s[..j] && s[..k][j..] == s[j..][..i];
    LeadsSpells(ReadValue(s).value, s[..k], j);
    assert s[j..][i..] == s[k..] && s[k..][1..] == s[k + 1..];
  }

  lemma {:induction false} ItemsAreText(s: Text, before: seq<Value>) returns (items: seq<Value>, k: nat)
    requires ReadItems(s, before).Got?
    ensures items != [] && k < |s| && s[k] == CLOSE_ARRAY && ReadItems(s, before) == Got(Arr(before + items), s[k + 1..])
    ensures ItemsText(items, s[..k])
    decreases |s|, 4
  {
    hide ReadValue, SkipSpace, Spells;
    Punctuation();
    var j := ValueThenMark(s);
    var v := ReadValue(s).value;
    if s[j] == COMMA {
      var more, i := ItemsAreText(s[j + 1..], before + [v]);
      items := [v] + more;
      k := i + j + 1;
      assert s[..k][..j] == s[..j] && s[..k][j + 1..] == s[j + 1..][..i] && s[j + 1..][i + 1..] == s[k + 1..];
      assert items[1..] == more && before + [v] + more == before + items;
    } else {
      items := [v];
      k := j;
    }
  }

  lemma {:induction false} ObjectIsText(s: Text) returns (k: nat)
    requires s != [] && s[0] == OPEN_OBJECT && ReadValue(s).Got? && SkipSpace(s) == s
    ensures k <= |s| && ReadValue(s).rest == s[k..] && Core(ReadValue(s).value, s[..k])
    decreases |s|, 0
  {
    hide ReadFields, ReadValue, Core, SkipSpace, FieldsText, PutAll;
    var inner := s[1..];
    assert s == [OPEN_OBJECT] + inner;
    ObjectOpens(inner);
    if StartsWith(SkipSpace(inner), CLOSE_OBJECT) {
      var j := Skipped(inner);
      k := j + 2;
      assert inner[j] == SkipSpace(inner)[0];
      assert s[..k][1..|s[..k]| - 1] == inner[..j] && s[k..] == inner[j..][1..];
      PutNothing();
      BracesAreObject([], [], s[..k]);
    } else {
      var raw, j := FieldsAreText(inner, []);
      k := j + 2;
      assert s[..k][1..|s[..k]| - 1] == inner[..j] && s[k..] == inner[j + 1..];
      BracesAreObject(PutAll([], raw), raw, s[..k]);
    }
  }

  lemma PutNothing()
    ensures PutAll([], []) == []
  {
  }

  /** The name and the colon of a property. */
  lemma NameIsText(s: Text) returns (k: nat)
    requires ReadField(s).Got?
    ensures k < |s| && s[k] == ':' as int && KeyText(ReadField(s).value.key, s[..k])
    ensures ReadValue(s[k + 1..]).Got? && ReadField(s) == Got(Field(ReadField(s).value.key, ReadValue(s[k + 1..]).value), ReadValue(s[k + 1..]).rest)
  {
    hide ReadValue, ReadChars, SkipSpace, StringText;
    Punctuation();
    var i := Skipped(s);
    var t := s[i..];
    var j := StringIsCore(t);
    var u := t[j..];
    var h := Skipped(u);
    k := i + j + h;
    assert u[h..] == s[k..] && s[k..][1..] == s[k + 1..];
    assert s[..k][..i] == s[..i] && s[..k][i..i + j] == t[..j] && s[..k][i + j..] == u[..h];
  }

  lemma {:induction false} FieldThenMark(s: Text) returns (k: nat)
    requires ReadField(s).Got? && SkipSpace(ReadField(s).rest) != []
    ensures k < |s| && s[k] == SkipSpace(ReadField(s).rest)[0] && SkipSpace(ReadField(s).rest)[1..] == s[k + 1..]
    ensures FieldText(ReadField(s).value, s[..k])
    decreases |s|, 4
  {
    hide ReadField, ReadValue, SkipSpace, Spells, KeyText;
    var j := NameIsText(s);
    var t := s[j + 1..];
    var i := ValueThenMark(t);
    k := i + j + 1;
    assert s[..k][..j] == s[..j] && s[..k][j + 1..] == t[..i] && t[i + 1..] == s[k + 1..];
  }

  lemma {:induction false} FieldsAreText(s: Text, before: seq<Field>) returns (raw: seq<Field>, k: nat)
    requires ReadFields(s, before).Got?
    ensures raw != [] && k < |s| && s[k] == CLOSE_OBJECT && ReadFields(s, before) == Got(Obj(PutAll(before, raw)), s[k + 1..])
    ensures FieldsText(raw, s[..k])
    decreases |s|, 5
  {
    hide ReadField, SkipSpace, FieldText, Put;
    Punctuation();
    var j := FieldThenMark(s);
    var f := ReadField(s).value;
    if s[j] == COMMA {
      var more, i := FieldsAreText(s[j + 1..], Put(before, f.key, f.value));
      raw := [f] + more;
      k := i + j + 1;
      assert s[..k][..j] == s[..j] && s[..k][j + 1..] == s[j + 1..][..i] && s[j + 1..][i + 1..] == s[k + 1..];
      assert raw[1..] == more;
    } else {
      raw := [f];
      k := j;
      assert raw[1..] == [];
    }
  }

  // ---------- the theorem ----------

  /** JSON.parse accepts exactly the texts of the grammar, and returns the value that they spell. */
  lemma ParseExact(text: Text, v: Value)
    ensures Parse(text) == Some(v) <==> Spells(v, text)
  {
    hide ReadValue, Spells, SkipSpace, Leads;
    if Parse(text) == Some(v) {
      var k := ValueIsText(text);
      var j := Skipped(text[k..]);
      assert text[k..][..j] == text[k..];
      LeadsSpells(v, text, k);
    }
    if Spells(v, text) {
      var b := SpellsRead(v, text, []);
      SkipBlank(b, []);
      NothingToSkip();
      assert text + [] == text && b + [] == b;
    }
  }

  lemma NothingToSkip()
    ensures SkipSpace([]) == []
  {
  }

  // ---------- what the printer chooses ----------

  /** A name that is there keeps its place. */
  lemma {:induction false} PutExact(fields: seq<Field>, key: Text, value: Value, i: nat)
    requires i < |fields| && fields[i].key == key && forall j :: 0 <= j < i ==> fields[j].key != key
    ensures Put(fields, key, value) == fields[i := Field(key, value)]
  {
    if i > 0 {
      PutExact(fields[1..], key, value, i - 1);
    }
  }

  /** A new one goes to the end. */
  lemma PutNew(fields: seq<Field>, key: Text, value: Value)
    requires forall j :: 0 <= j < |fields| ==> fields[j].key != key
    ensures Put(fields, key, value) == fields + [Field(key, value)]
  {
    PutFresh(fields, Field(key, value));
  }

  predicate IsSurrogate(u: CodeUnit) { 0xD800 <= u <= 0xDFFF }

  /** A unit outside of a pair is escaped exactly if it is a quote, a backslash, a control character or a surrogate;
      the short escapes are used where there is one, and hexadecimal digits are small. */
  lemma EscapeExact(u: CodeUnit)
    ensures UnitText(u, EscapeUnit(u))
    ensures EscapeUnit(u) == [u] <==> !(u < 0x20 || u == '"' as int || u == '\\' as int || IsSurrogate(u))
    ensures |EscapeUnit(u)| == 2 <==> u in {'"' as int, '\\' as int, 0x08, 0x09, 0x0A, 0x0C, 0x0D}
    ensures forall i :: 2 <= i < |EscapeUnit(u)| ==> !('A' as int <= EscapeUnit(u)[i] <= 'F' as int)
  {
    var t := EscapeUnit(u);
    if |t| == 6 {
      var v: int := u;
      assert HexDigit(t[2], v / 4096) && HexDigit(t[3], v / 256 % 16) && HexDigit(t[4], v / 16 % 16) && HexDigit(t[5], v % 16);
      HexSum(v);
    }
  }

  lemma HexSum(v: int)
    requires 0 <= v < 0x10000
    ensures v == v / 4096 * 4096 + v / 256 % 16 * 256 + v / 16 % 16 * 16 + v % 16
  {
    assert v / 16 == v / 256 * 16 + v / 16 % 16;
    assert v / 256 == v / 4096 * 16 + v / 256 % 16;
  }

  /** A string is printed unit by unit, the pairs as they are. */
  lemma {:induction false} QuoteExact(s: Text, t: Text)
    ensures EscapeAll([]) == []
    ensures StartsWithPair(s) ==> EscapeAll(s) == s[..2] + EscapeAll(s[2..])
    ensures s != [] && !StartsWithPair(s) ==> EscapeAll(s) == EscapeUnit(s[0]) + EscapeAll(s[1..])
    ensures Quote(s) == Lit("\"") + EscapeAll(s) + Lit("\"")
  {
    Punctuation();
    assert Lit("\"") == [QUOTE];
  }

  /** How Number::toString writes a number: with an exponent exactly if the point is more than 21 places to the right of
      the first digit or more than 6 to the left, without superfluous zeros, and then with one digit in front. */
  predicate Printed(x: Float, p: Parts) {
    && GoodParts(p) && x == PartsValue(p) && (p.negative <==> x.Dec? && x.negative)
    && (p.power.None? <==> x.Zero? || -6 < x.point <= 21)
    && (p.fraction != [] ==> p.fraction[|p.fraction| - 1] != 0)
    && (p.power.Some? ==>
          |p.whole| == 1 && p.whole[0] != 0
          && !p.power.value.upper && p.power.value.sign.Some? && NoLeadingZero(p.power.value.digits) && p.power.value.digits[0] != 0)
  }

  lemma NumberPrinted(x: Float) returns (p: Parts)
    requires ValidFloat(x)
    ensures Printed(x, p) && PrintFloat(x) == PartsText(p)
  {
    hide FromDecimal, Show, Zeros, Digits, Number;
    match x
    case Zero =>
      p := Parts(false, [0], [], None);
      ZeroParts();
      assert PartsText(p) == Show([0]);
    case Dec(negative, ds, n) =>
      p := DigitsPrinted(negative, ds, n);
  }

  lemma ZeroParts()
    ensures FromDecimal(false, [0] + [], 1) == Zero
  {
    assert [0] + [] == [0];
    assert [0][1..] == [];
  }

  lemma DigitsPrinted(negative: bool, ds: seq<Digit>, n: int) returns (p: Parts)
    requires Trimmed(ds)
    ensures Printed(Dec(negative, ds, n), p) && PrintFloat(Dec(negative, ds, n)) == PartsText(p)
  {
    hide PrintFloat, Printed, PartsText;
    if |ds| <= n <= 21 {
      p := IntegerPrinted(negative, ds, n);
    } else if 0 < n <= 21 {
      p := PointPrinted(negative, ds, n);
    } else if -6 < n <= 0 {
      p := SmallPrinted(negative, ds, n);
    } else {
      p := ExponentPrinted(negative, ds, n);
    }
  }

  lemma IntegerPrinted(negative: bool, ds: seq<Digit>, n: int) returns (p: Parts)
    requires Trimmed(ds) && |ds| <= n <= 21
    ensures Printed(Dec(negative, ds, n), p) && PrintFloat(Dec(negative, ds, n)) == PartsText(p)
  {
    hide FromDecimal, Show, Digits, Number, StripTrailing;
    p := Parts(negative, ds + Zeros(n - |ds|), [], None);
    DropZeros(negative, ds, n - |ds|, n);
    assert p.whole + [] == p.whole;
    Unsigned(p, Show(p.whole), [], []);
  }

  lemma PointPrinted(negative: bool, ds: seq<Digit>, n: int) returns (p: Parts)
    requires Trimmed(ds) && 0 < n < |ds| && n <= 21
    ensures Printed(Dec(negative, ds, n), p) && PrintFloat(Dec(negative, ds, n)) == PartsText(p)
  {
    hide FromDecimal, Show, Digits, Number, StripTrailing;
    p := Parts(negative, ds[..n], ds[n..], None);
    assert ds[..n] + ds[n..] == Zeros(0) + ds;
    SkipZeros(negative, ds, 0, n);
    assert ds[n..][|ds| - n - 1] == ds[|ds| - 1];
    Unsigned(p, Show(p.whole), [DOT] + Show(p.fraction), []);
    PrintJoins(Show(p.whole), [DOT], Show(p.fraction));
  }

  lemma SmallPrinted(negative: bool, ds: seq<Digit>, n: int) returns (p: Parts)
    requires Trimmed(ds) && -6 < n <= 0
    ensures Printed(Dec(negative, ds, n), p) && PrintFloat(Dec(negative, ds, n)) == PartsText(p)
  {
    hide FromDecimal, Show, Digits, Number, StripTrailing;
    var fraction := Zeros(-n) + ds;
    p := Parts(negative, [0], fraction, None);
    assert [0] + fraction == Zeros(1 - n) + ds;
    SkipZeros(negative, ds, 1 - n, 1);
    assert fraction[|fraction| - 1] == ds[|ds| - 1];
    Unsigned(p, Show(p.whole), [DOT] + Show(fraction), []);
    PrintJoins(Show(p.whole), [DOT], Show(fraction));
  }

  lemma Unsigned(p: Parts, whole: Text, fraction: Text, power: Text)
    requires Show(p.whole) == whole && FractionText(p.fraction) == fraction && PowerPart(p.power) == power == []
    ensures PartsText(p) == SignText(p.negative) + (whole + fraction)
  {
    assert fraction + power == fraction;
  }

  lemma ExponentPrinted(negative: bool, ds: seq<Digit>, n: int) returns (p: Parts)
    requires Trimmed(ds) && !(-6 < n <= 21)
    ensures Printed(Dec(negative, ds, n), p) && PrintFloat(Dec(negative, ds, n)) == PartsText(p)
  {
    hide FromDecimal, Show, Digits, Number, StripTrailing;
    var e := n - 1;
    var m: nat := if e < 0 then -e else e;
    NumberOfDigits(m);
    var power := Power(false, Some(e < 0), Digits(m));
    p := Parts(negative, ds[..1], ds[1..], Some(power));
    assert ds[..1] + ds[1..] == Zeros(0) + ds;
    SkipZeros(negative, ds, 0, n);
    assert PowerText(power) == PrintExponent(e);
    if |ds| > 1 {
      assert ds[1..][|ds| - 2] == ds[|ds| - 1];
    }
    PrintJoins(Show(ds[..1]), FractionText(ds[1..]), PrintExponent(e));
    assert FractionText(ds[1..]) == if |ds| == 1 then [] else [DOT] + Show(ds[1..]);
  }

  lemma PrintJoins(a: Text, b: Text, c: Text)
    ensures a + b + c == a + (b + c)
  {
  }
}
