/** JSON strings: printed as JSON.stringify quotes them (RFC 8259, section 7, with lone
    surrogates escaped), read with every escape of the grammar. */
module JsonStrings {
  import opened Wrappers
  import opened Unicode
  import opened Scanning

  const QUOTE: CodeUnit := 0x22
  const BACKSLASH: CodeUnit := 0x5C

  // ---------- printing ----------

  function HexGlyph(h: int): CodeUnit
    requires 0 <= h < 16
  {
    if h < 10 then 0x30 + h else 0x57 + h
  }

  function HexEscape(u: CodeUnit): (t: Text)
    ensures |t| == 6
  {
    var value: int := u;
    [BACKSLASH, 0x75, HexGlyph(value / 4096), HexGlyph(value / 256 % 16), HexGlyph(value / 16 % 16), HexGlyph(value % 16)]
  }

  /** One unit that is not part of a surrogate pair. */
  function EscapeUnit(u: CodeUnit): (t: Text)
    ensures 1 <= |t| <= 6
  {
    if u == QUOTE then [BACKSLASH, QUOTE]
    else if u == BACKSLASH then [BACKSLASH, BACKSLASH]
    else if u == 0x08 then [BACKSLASH, 0x62]
    else if u == 0x0C then [BACKSLASH, 0x66]
    else if u == 0x0A then [BACKSLASH, 0x6E]
    else if u == 0x0D then [BACKSLASH, 0x72]
    else if u == 0x09 then [BACKSLASH, 0x74]
    else if u < 0x20 || IsHigh(u) || IsLow(u) then HexEscape(u)
    else [u]
  }

  function EscapeAll(s: Text): Text {
    if s == [] then []
    else if StartsWithPair(s) then s[..2] + EscapeAll(s[2..])
    else EscapeUnit(s[0]) + EscapeAll(s[1..])
  }

  function Quote(s: Text): Text { [QUOTE] + EscapeAll(s) + [QUOTE] }

  // ---------- reading ----------

  function HexValue(u: CodeUnit): Option<nat> {
    if 0x30 <= u <= 0x39 then Some(u - 0x30)
    else if 0x41 <= u <= 0x46 then Some(u - 0x37)
    else if 0x61 <= u <= 0x66 then Some(u - 0x57)
    else None
  }

  /** Four hexadecimal digits at the front of `s`. */
  function ReadHex(s: Text): (r: Option<CodeUnit>)
    ensures r.Some? ==> |s| >= 4
  {
    if |s| < 4 then None
    else
      var a :- HexValue(s[0]);
      var b :- HexValue(s[1]);
      var c :- HexValue(s[2]);
      var d :- HexValue(s[3]);
      var u := a * 4096 + b * 256 + c * 16 + d;
      if u < 0x10000 then Some(u) else None
  }

  function SimpleEscape(u: CodeUnit): Option<CodeUnit> {
    if u == QUOTE || u == BACKSLASH || u == 0x2F then Some(u)
    else if u == 0x62 then Some(0x08)
    else if u == 0x66 then Some(0x0C)
    else if u == 0x6E then Some(0x0A)
    else if u == 0x72 then Some(0x0D)
    else if u == 0x74 then Some(0x09)
    else None
  }

  /** One character of a string literal: its unit and the number of units it takes. */
  function ReadUnit(s: Text): (r: Read<CodeUnit>)
    ensures r.Got? ==> |r.rest| < |s|
  {
    if s == [] || s[0] == QUOTE || s[0] < 0x20 then Bad
    else if s[0] != BACKSLASH then Got(s[0], s[1..])
    else if |s| == 1 then Bad
    else if s[1] == 0x75 then
      match ReadHex(s[2..])
      case None => Bad
      case Some(u) => Got(u, s[6..])
    else
      match SimpleEscape(s[1])
      case None => Bad
      case Some(u) => Got(u, s[2..])
  }

  /** The rest of a string literal, after its opening quote. */
  function ReadChars(s: Text): (r: Read<Text>)
    ensures r.Got? ==> |r.rest| < |s|
    decreases |s|
  {
    if s != [] && s[0] == QUOTE then Got([], s[1..])
    else
      match ReadUnit(s)
      case Bad => Bad
      case Got(u, t) =>
        match ReadChars(t)
        case Bad => Bad
        case Got(us, rest) => Got([u] + us, rest)
  }

  // ---------- round trip ----------

  lemma HexRoundTrip(u: CodeUnit, rest: Text)
    ensures ReadHex(HexEscape(u)[2..] + rest) == Some(u)
  {
    var v: int := u;
    var s := HexEscape(u)[2..] + rest;
    assert s[0] == HexGlyph(v / 4096) && s[1] == HexGlyph(v / 256 % 16);
    assert s[2] == HexGlyph(v / 16 % 16) && s[3] == HexGlyph(v % 16);
    assert v / 256 == v / 16 / 16 && v / 4096 == v / 256 / 16;
    assert v == v / 4096 * 4096 + v / 256 % 16 * 256 + v / 16 % 16 * 16 + v % 16;
  }

  lemma ReadEscaped(u: CodeUnit, rest: Text)
    ensures ReadUnit(EscapeUnit(u) + rest) == Got(u, rest)
  {
    hide ReadHex, HexGlyph;
    var t := EscapeUnit(u) + rest;
    if |EscapeUnit(u)| == 6 {
      HexRoundTrip(u, rest);
      assert t[2..] == HexEscape(u)[2..] + rest;
      assert t[6..] == rest;
    } else if |EscapeUnit(u)| == 2 {
      assert t[2..] == rest;
    } else {
      assert t[1..] == rest;
    }
  }

  lemma ReadRaw(u: CodeUnit, rest: Text)
    requires u >= 0x20 && u != QUOTE && u != BACKSLASH
    ensures ReadUnit([u] + rest) == Got(u, rest)
  {
    assert ([u] + rest)[1..] == rest;
  }

  lemma EscapeStart(u: CodeUnit, rest: Text)
    ensures (EscapeUnit(u) + rest)[0] != QUOTE
  {
  }

  lemma {:induction false} CharsRoundTrip(s: Text, rest: Text)
    ensures ReadChars(EscapeAll(s) + [QUOTE] + rest) == Got(s, rest)
  {
    hide ReadUnit, EscapeUnit;
    var t := EscapeAll(s) + [QUOTE] + rest;
    if s == [] {
      assert t[0] == QUOTE && t[1..] == rest;
    } else if StartsWithPair(s) {
      var tail := EscapeAll(s[2..]) + [QUOTE] + rest;
      CharsRoundTrip(s[2..], rest);
      assert t == [s[0]] + ([s[1]] + tail);
      ReadRaw(s[0], [s[1]] + tail);
      ReadRaw(s[1], tail);
      assert ReadChars([s[1]] + tail) == Got([s[1]] + s[2..], rest);
      assert s == [s[0]] + ([s[1]] + s[2..]);
    } else {
      var tail := EscapeAll(s[1..]) + [QUOTE] + rest;
      CharsRoundTrip(s[1..], rest);
      ReadEscaped(s[0], tail);
      assert t == EscapeUnit(s[0]) + tail;
      EscapeStart(s[0], tail);
      assert s == [s[0]] + s[1..];
    }
  }

  // ---------- size ----------

  lemma EscapeUnitLength(u: CodeUnit)
    ensures Utf8Length(EscapeUnit(u)) <= 6 && WellFormed(EscapeUnit(u))
  {
    var t := EscapeUnit(u);
    if |t| == 1 {
      assert t[1..] == [];
      assert Utf8Length(t[1..]) == 0;
    } else {
      AsciiLength(t);
      AsciiWellFormed(t);
    }
  }

  /** A quoted string has no lone surrogate, and at most six bytes for each unit. */
  lemma {:induction false} EscapeLength(s: Text)
    ensures WellFormed(EscapeAll(s))
    ensures Utf8Length(EscapeAll(s)) <= 6 * |s|
  {
    if s == [] {
    } else if StartsWithPair(s) {
      EscapeLength(s[2..]);
      var t := s[..2] + EscapeAll(s[2..]);
      assert t[2..] == EscapeAll(s[2..]);
    } else {
      hide EscapeUnit;
      EscapeUnitLength(s[0]);
      EscapeLength(s[1..]);
      WellFormedConcat(EscapeUnit(s[0]), EscapeAll(s[1..]));
      Utf8LengthConcat(EscapeUnit(s[0]), EscapeAll(s[1..]));
    }
  }

  lemma QuoteLength(s: Text)
    ensures WellFormed(Quote(s))
    ensures Utf8Length(Quote(s)) <= 6 * |s| + 2
  {
    EscapeLength(s);
    var q := [QUOTE];
    AsciiLength(q);
    AsciiWellFormed(q);
    WellFormedConcat(q, EscapeAll(s));
    Utf8LengthConcat(q, EscapeAll(s));
    WellFormedConcat(q + EscapeAll(s), q);
    Utf8LengthConcat(q + EscapeAll(s), q);
  }
}
