/** Unpadded base64url (RFC 4648, section 5) with the canonical trailing bits of section 3.5:
    the recogniser decodedBase64UrlLength and the decoder base64UrlToBytes. */
module Base64Url {
  import opened Wrappers
  import opened Unicode
  import opened Validators
  import Json

  type Sextet = v: int | 0 <= v < 64

  predicate InAlphabet(u: CodeUnit) { IsIdUnit(u) }

  /** The position of a character in the alphabet. */
  function ValueOf(u: CodeUnit): Sextet
    requires InAlphabet(u)
  {
    var c: int := u;
    if c == 0x2D then 62
    else if c == 0x5F then 63
    else if c <= 0x39 then c + 4
    else if c <= 0x5A then c - 0x41
    else c - 0x47
  }

  function CharOf(v: Sextet): (u: CodeUnit)
    ensures InAlphabet(u) && ValueOf(u) == v
  {
    var n: int := v;
    if n < 26 then n + 0x41 else if n < 52 then n + 0x47 else if n < 62 then n - 4 else if n == 62 then 0x2D else 0x5F
  }

  lemma CharOfValue(u: CodeUnit)
    requires InAlphabet(u)
    ensures CharOf(ValueOf(u)) == u
  {
  }

  const LARGE := "ABCDEFGHIJKLMNOPQRSTUVWXYZ"
  const SMALL := "abcdefghijklmnopqrstuvwxyz"
  const TEN := "0123456789"

  /** The alphabet of section 5 of RFC 4648, letter by letter. */
  lemma Alphabet(v: Sextet)
    ensures CharOf(v) == (LARGE + SMALL + TEN + "-_")[v] as int
  {
    var n: int := v;
    Lengths();
    Lookup(LARGE, SMALL, TEN, "-_", n);
    if n < 26 {
      Large(n);
    } else if n < 52 {
      Small(n - 26);
    } else if n < 62 {
      Ten(n - 52);
    }
  }

  lemma Lengths()
    ensures |LARGE| == 26 && |SMALL| == 26 && |TEN| == 10
  {
  }

  lemma Lookup(a: string, b: string, c: string, d: string, n: nat)
    requires |a| == 26 && |b| == 26 && |c| == 10 && |d| == 2 && n < 64
    ensures (a + b + c + d)[n] == if n < 26 then a[n] else if n < 52 then b[n - 26] else if n < 62 then c[n - 52] else d[n - 62]
  {
  }

  lemma Large(n: nat)
    requires n < 26
    ensures LARGE[n] as int == 0x41 + n
  {
  }

  lemma Small(n: nat)
    requires n < 26
    ensures SMALL[n] as int == 0x61 + n
  {
  }

  lemma Ten(n: nat)
    requires n < 10
    ensures TEN[n] as int == 0x30 + n
  {
  }

  // ---------- the standard ----------

  /** Three bytes become four characters; two trailing bytes become three, one becomes two. */
  function Encode(b: seq<Byte>): Text {
    if |b| == 0 then []
    else if |b| == 1 then Encode1(b[0])
    else if |b| == 2 then Encode2(b[0], b[1])
    else Encode3(b[0], b[1], b[2]) + Encode(b[3..])
  }

  function Encode1(x: Byte): (t: Text)
    ensures |t| == 2
  {
    var b0: int := x;
    [CharOf(b0 / 4), CharOf(b0 % 4 * 16)]
  }

  function Encode2(x: Byte, y: Byte): (t: Text)
    ensures |t| == 3
  {
    var b0: int, b1: int := x, y;
    [CharOf(b0 / 4), CharOf(b0 % 4 * 16 + b1 / 16), CharOf(b1 % 16 * 4)]
  }

  function Encode3(x: Byte, y: Byte, z: Byte): (t: Text)
    ensures |t| == 4
  {
    var b0: int, b1: int, b2: int := x, y, z;
    [CharOf(b0 / 4), CharOf(b0 % 4 * 16 + b1 / 16), CharOf(b1 % 16 * 4 + b2 / 64), CharOf(b2 % 64)]
  }

  predicate AllInAlphabet(s: Text) { forall i :: 0 <= i < |s| ==> InAlphabet(s[i]) }

  /** The bytes that a text stands for, trailing bits dropped. */
  function Decode(s: Text): seq<Byte>
    requires AllInAlphabet(s)
  {
    if |s| < 2 then []
    else if |s| == 2 then Decode2(ValueOf(s[0]), ValueOf(s[1]))
    else if |s| == 3 then Decode3(ValueOf(s[0]), ValueOf(s[1]), ValueOf(s[2]))
    else Decode4(ValueOf(s[0]), ValueOf(s[1]), ValueOf(s[2]), ValueOf(s[3])) + Decode(s[4..])
  }

  function Decode2(a: Sextet, b: Sextet): (r: seq<Byte>)
    ensures |r| == 1
  {
    var v0: int, v1: int := a, b;
    [v0 * 4 + v1 / 16]
  }

  function Decode3(a: Sextet, b: Sextet, c: Sextet): (r: seq<Byte>)
    ensures |r| == 2
  {
    var v1: int, v2: int := b, c;
    Decode2(a, b) + [v1 % 16 * 16 + v2 / 4]
  }

  function Decode4(a: Sextet, b: Sextet, c: Sextet, d: Sextet): (r: seq<Byte>)
    ensures |r| == 3
  {
    var v2: int, v3: int := c, d;
    Decode3(a, b, c) + [v2 % 4 * 64 + v3]
  }

  // ---------- the recogniser ----------

  /** decodedBase64UrlLength */
  function DecodedLength(s: Text, code: string): Outcome<nat> {
    if |s| == 0 || |s| % 4 == 1 || !AllInAlphabet(s) then Fail(code)
    else
      var remainder := |s| % 4;
      var finalValue: int := ValueOf(s[|s| - 1]);
      if remainder != 0 && ((remainder == 2 && finalValue % 16 != 0) || (remainder == 3 && finalValue % 4 != 0)) then
        Fail(code)
      else Ok(|s| * 6 / 8)
  }

  predicate Canonical(s: Text) { DecodedLength(s, "").Ok? }

  /** assertBase64Url: canonical, and at most `maxBytes` bytes. */
  function AsBase64Url(v: Json.Value, maxBytes: nat, code: string): Outcome<Text> {
    if !v.Str? then Fail(code)
    else
      var size :- DecodedLength(v.s, code);
      if size == 0 || size > maxBytes then Fail(code) else Ok(v.s)
  }

  lemma GroupsDecode(x: Byte, y: Byte, z: Byte)
    ensures var t := Encode1(x); AllInAlphabet(t) && Decode2(ValueOf(t[0]), ValueOf(t[1])) == [x] && ValueOf(t[1]) % 16 == 0
    ensures var t := Encode2(x, y); AllInAlphabet(t) && Decode3(ValueOf(t[0]), ValueOf(t[1]), ValueOf(t[2])) == [x, y] && ValueOf(t[2]) % 4 == 0
    ensures var t := Encode3(x, y, z); AllInAlphabet(t) && Decode4(ValueOf(t[0]), ValueOf(t[1]), ValueOf(t[2]), ValueOf(t[3])) == [x, y, z]
  {
    hide ValueOf, CharOf, InAlphabet;
    var b0: int, b1: int, b2: int := x, y, z;
    assert b0 == b0 / 4 * 4 + b0 % 4 && b1 == b1 / 16 * 16 + b1 % 16 && b2 == b2 / 64 * 64 + b2 % 64;
  }

  /** How six-bit values and bytes are cut out of each other. */
  lemma Cuts(a: int, b: int)
    requires 0 <= a < 64 && 0 <= b < 64
    ensures (a * 4 + b / 16) / 4 == a && (a * 4 + b / 16) % 4 == b / 16
    ensures (a % 16 * 16 + b / 4) / 16 == a % 16 && (a % 16 * 16 + b / 4) % 16 == b / 4
    ensures (a % 4 * 64 + b) / 64 == a % 4 && (a % 4 * 64 + b) % 64 == b
    ensures a / 16 * 16 + a % 16 == a && a / 4 * 4 + a % 4 == a
    ensures (a * 64 + b) / 16 % 256 == a * 4 + b / 16 && (a * 64 + b) % 16 == b % 16
    ensures (a % 16 * 64 + b) / 4 % 256 == a % 16 * 16 + b / 4 && (a % 16 * 64 + b) % 4 == b % 4
    ensures (a % 4 * 64 + b) % 256 == a % 4 * 64 + b
  {
    CutQuarters(a, b);
    CutAccumulator(a, b);
  }

  lemma CutQuarters(a: int, b: int)
    requires 0 <= a < 64 && 0 <= b < 64
    ensures (a * 4 + b / 16) / 4 == a && (a * 4 + b / 16) % 4 == b / 16
    ensures (a % 16 * 16 + b / 4) / 16 == a % 16 && (a % 16 * 16 + b / 4) % 16 == b / 4
    ensures (a % 4 * 64 + b) / 64 == a % 4 && (a % 4 * 64 + b) % 64 == b
  {
  }

  lemma CutAccumulator(a: int, b: int)
    requires 0 <= a < 64 && 0 <= b < 64
    ensures (a * 64 + b) / 16 % 256 == a * 4 + b / 16 && (a * 64 + b) % 16 == b % 16
    ensures (a % 16 * 64 + b) / 4 % 256 == a % 16 * 16 + b / 4 && (a % 16 * 64 + b) % 4 == b % 4
  {
    CutSixteenths(a, b);
    CutFourths(a, b);
  }

  lemma CutSixteenths(a: int, b: int)
    requires 0 <= a < 64 && 0 <= b < 64
    ensures (a * 64 + b) / 16 % 256 == a * 4 + b / 16 && (a * 64 + b) % 16 == b % 16
  {
  }

  lemma CutFourths(a: int, b: int)
    requires 0 <= a < 64 && 0 <= b < 64
    ensures (a % 16 * 64 + b) / 4 % 256 == a % 16 * 16 + b / 4 && (a % 16 * 64 + b) % 4 == b % 4
  {
  }

  lemma Seams(a: int, b: int)
    requires 0 <= a < 64 && 0 <= b < 64
    ensures b / 16 * 16 + b % 16 == b && b / 4 * 4 + b % 4 == b
  {
  }

  /** A group of bytes prints as the sextets that it came from. */
  lemma Regroup1(a: Sextet, b: Sextet)
    requires (b as int) % 16 == 0
    ensures Encode1(Decode2(a, b)[0]) == [CharOf(a), CharOf(b)]
  {
    hide CharOf;
    Cuts(a, b);
    Seams(a, b);
  }

  lemma Regroup2(a: Sextet, b: Sextet, c: Sextet)
    requires (c as int) % 4 == 0
    ensures var t := Decode3(a, b, c); Encode2(t[0], t[1]) == [CharOf(a), CharOf(b), CharOf(c)]
  {
    hide CharOf;
    Cuts(a, b);
    Cuts(b, c);
    Seams(a, b);
    Seams(b, c);
  }

  lemma Regroup3(a: Sextet, b: Sextet, c: Sextet, d: Sextet)
    ensures var t := Decode4(a, b, c, d); Encode3(t[0], t[1], t[2]) == [CharOf(a), CharOf(b), CharOf(c), CharOf(d)]
  {
    hide CharOf;
    var v0: int, v1: int, v2: int, v3: int := a, b, c, d;
    var t := Decode4(a, b, c, d);
    var x: int, y: int, z: int := t[0], t[1], t[2];
    assert x == v0 * 4 + v1 / 16 && y == v1 % 16 * 16 + v2 / 4 && z == v2 % 4 * 64 + v3;
    assert x / 4 == v0 && x % 4 == v1 / 16 by { Cuts(v0, v1); }
    assert y / 16 == v1 % 16 && y % 16 == v2 / 4 by { Cuts(v1, v2); }
    assert z / 64 == v2 % 4 && z % 64 == v3 by { Cuts(v2, v3); }
    assert x % 4 * 16 + y / 16 == v1 by { Seams(v0, v1); }
    assert y % 16 * 4 + z / 64 == v2 by { Seams(v1, v2); }
  }

  lemma GroupsEncode(s: Text)
    requires AllInAlphabet(s) && 2 <= |s|
    ensures |s| == 2 && ValueOf(s[1]) % 16 == 0 ==> Encode1(Decode2(ValueOf(s[0]), ValueOf(s[1]))[0]) == s
    ensures |s| == 3 && ValueOf(s[2]) % 4 == 0 ==>
              var b := Decode3(ValueOf(s[0]), ValueOf(s[1]), ValueOf(s[2])); Encode2(b[0], b[1]) == s
    ensures |s| >= 4 ==>
              var b := Decode4(ValueOf(s[0]), ValueOf(s[1]), ValueOf(s[2]), ValueOf(s[3])); Encode3(b[0], b[1], b[2]) == s[..4]
  {
    hide ValueOf, CharOf, InAlphabet, Encode1, Encode2, Encode3, Decode2, Decode3, Decode4;
    CharOfValue(s[0]);
    CharOfValue(s[1]);
    if |s| == 2 {
      if ValueOf(s[1]) % 16 == 0 {
        Regroup1(ValueOf(s[0]), ValueOf(s[1]));
      }
    } else {
      CharOfValue(s[2]);
      if |s| == 3 {
        if ValueOf(s[2]) % 4 == 0 {
          Regroup2(ValueOf(s[0]), ValueOf(s[1]), ValueOf(s[2]));
        }
      } else {
        CharOfValue(s[3]);
        Regroup3(ValueOf(s[0]), ValueOf(s[1]), ValueOf(s[2]), ValueOf(s[3]));
      }
    }
  }

  lemma GroupLength(n: nat)
    ensures (n + 4) % 4 == n % 4 && (n + 4) * 6 / 8 == 3 + n * 6 / 8
  {
    assert (n + 4) * 6 == n * 6 + 3 * 8;
  }

  lemma Eighths(n: nat, p: nat, r: nat)
    requires n == 8 * p + r && r < 8
    ensures n / 8 == p && n % 8 == r
  {
  }

  /** Recognition proceeds group by group. */
  lemma PeelGroup(s: Text, code: string)
    requires |s| >= 4
    ensures AllInAlphabet(s) <==> AllInAlphabet(s[..4]) && AllInAlphabet(s[4..])
    ensures AllInAlphabet(s[..4]) && |s| == 4 ==> DecodedLength(s, code) == Ok(3)
    ensures AllInAlphabet(s[..4]) && |s| > 4 ==>
              DecodedLength(s, code) == (match DecodedLength(s[4..], code) case Fail(c) => Fail(c) case Ok(n) => Ok(3 + n))
    ensures DecodedLength(s, code).Ok? && |s| > 4 ==> DecodedLength(s[4..], code).Ok?
  {
    hide ValueOf, InAlphabet;
    var rest := s[4..];
    GroupLength(|rest|);
    if |s| > 4 {
      assert s[|s| - 1] == rest[|rest| - 1];
    }
    if AllInAlphabet(s[..4]) && AllInAlphabet(s[4..]) {
      forall i | 0 <= i < |s|
        ensures InAlphabet(s[i])
      {
        assert s[i] == if i < 4 then s[..4][i] else s[4..][i - 4];
      }
    }
  }

  lemma {:induction false} EncodeAccepted(b: seq<Byte>, code: string)
    requires b != []
    ensures DecodedLength(Encode(b), code) == Ok(|b|)
    ensures AllInAlphabet(Encode(b)) && Decode(Encode(b)) == b
    decreases b, 1
  {
    hide ValueOf, InAlphabet, Encode1, Encode2, Encode3, Decode2, Decode3, Decode4;
    GroupsDecode(b[0], if |b| > 1 then b[1] else 0, if |b| > 2 then b[2] else 0);
    if |b| > 2 {
      EncodeAcceptedGroup(b, code);
    }
  }

  lemma {:induction false} EncodeAcceptedGroup(b: seq<Byte>, code: string)
    requires |b| > 2
    ensures DecodedLength(Encode(b), code) == Ok(|b|)
    ensures AllInAlphabet(Encode(b)) && Decode(Encode(b)) == b
    decreases b, 0
  {
    hide ValueOf, InAlphabet, Encode1, Encode2, Encode3, Decode2, Decode3, Decode4, DecodedLength;
    var e, rest := Encode3(b[0], b[1], b[2]), Encode(b[3..]);
    var s := e + rest;
    assert Encode(b) == s && s[4..] == rest && s[..4] == e;
    assert b == [b[0], b[1], b[2]] + b[3..];
    GroupsDecode(b[0], b[1], b[2]);
    PeelGroup(s, code);
    if b[3..] != [] {
      EncodeAccepted(b[3..], code);
      assert |rest| > 0;
    } else {
      assert b == [b[0], b[1], b[2]];
    }
  }

  lemma {:induction false} AcceptedDecodes(s: Text, code: string)
    requires DecodedLength(s, code).Ok?
    ensures Encode(Decode(s)) == s
    ensures |Decode(s)| == DecodedLength(s, code).value > 0
    decreases s, 1
  {
    hide ValueOf, InAlphabet, Encode1, Encode2, Encode3, Decode2, Decode3, Decode4;
    GroupsEncode(s);
    if |s| >= 4 {
      AcceptedGroup(s, code);
    }
  }

  lemma {:induction false} AcceptedGroup(s: Text, code: string)
    requires |s| >= 4 && DecodedLength(s, code).Ok?
    ensures Encode(Decode(s)) == s
    ensures |Decode(s)| == DecodedLength(s, code).value > 0
    decreases s, 0
  {
    assert AllInAlphabet(s);
    hide ValueOf, InAlphabet, Encode1, Encode2, Encode3, Decode2, Decode3, Decode4, DecodedLength;
    PeelGroup(s, code);
    GroupsEncode(s);
    var b := Decode(s);
    assert s == s[..4] + s[4..];
    assert b[3..] == Decode(s[4..]);
    if |s| > 4 {
      AcceptedDecodes(s[4..], code);
    } else {
      assert s[4..] == [];
    }
  }

  /** The accepted texts are exactly the encodings of the non-empty byte sequences; the byte
      sequence is unique, and its length is the result. */
  lemma AcceptsExactlyEncodings(s: Text, b: seq<Byte>, code: string)
    ensures b != [] && Encode(b) == s <==> DecodedLength(s, code) == Ok(|b|) && AllInAlphabet(s) && b == Decode(s)
  {
    if b != [] {
      EncodeAccepted(b, code);
    }
    if DecodedLength(s, code).Ok? {
      AcceptedDecodes(s, code);
    }
  }

  lemma RejectsTheRest(s: Text, code: string)
    ensures DecodedLength(s, code).Ok? <==> exists b: seq<Byte> :: b != [] && Encode(b) == s
  {
    if DecodedLength(s, code).Ok? {
      AcceptedDecodes(s, code);
      assert Decode(s) != [];
    }
    forall b: seq<Byte> | b != [] && Encode(b) == s
      ensures DecodedLength(s, code).Ok?
    {
      EncodeAccepted(b, code);
    }
  }

  // ---------- the decoder loop ----------

  function ValueAt(s: Text, i: int): int
    requires AllInAlphabet(s) && 0 <= i < |s|
  {
    ValueOf(s[i])
  }

  /** Bytes written, and bits held back, after `i` characters. */
  function OffsetAt(i: nat): nat { i * 6 / 8 }

  function BitsAt(i: nat): nat { i * 6 % 8 }

  /** accumulator >>> bits */
  function Shifted(total: int, bits: int): int {
    if bits == 0 then total else if bits == 2 then total / 4 else total / 16
  }

  /** accumulator & ((1 << bits) - 1) */
  function Kept(total: int, bits: int): int {
    if bits == 0 then 0 else if bits == 2 then total % 4 else total % 16
  }

  lemma Positions(i: nat)
    ensures BitsAt(i) == (if i % 4 == 0 then 0 else if i % 4 == 1 then 6 else if i % 4 == 2 then 4 else 2)
    ensures i % 4 == 0 ==> OffsetAt(i + 1) == OffsetAt(i) && BitsAt(i + 1) == 6
    ensures i % 4 != 0 ==> OffsetAt(i + 1) == OffsetAt(i) + 1 && BitsAt(i + 1) == BitsAt(i) - 2
  {
    var q := i / 4;
    match i % 4
    case 0 =>
      Eighths(i * 6, 3 * q, 0);
      Eighths((i + 1) * 6, 3 * q, 6);
    case 1 =>
      Eighths(i * 6, 3 * q, 6);
      Eighths((i + 1) * 6, 3 * q + 1, 4);
    case 2 =>
      Eighths(i * 6, 3 * q + 1, 4);
      Eighths((i + 1) * 6, 3 * q + 2, 2);
    case _ =>
      Eighths(i * 6, 3 * q + 2, 2);
      Eighths((i + 1) * 6, 3 * q + 3, 0);
  }

  lemma OffsetGrows(i: nat, n: nat)
    requires i <= n
    ensures OffsetAt(i) <= OffsetAt(n)
  {
  }

  /** What the decoder has produced after `i` characters: the complete groups are decoded, and of
      an open group one or two bytes are out and the rest sits in the accumulator. */
  ghost predicate Progress(value: Text, i: nat, accumulator: int, out: seq<Byte>)
    requires i <= |value| && AllInAlphabet(value)
  {
    match i % 4
    case 0 => accumulator == 0 && out + Decode(value[i..]) == Decode(value)
    case 1 => accumulator == ValueAt(value, i - 1) && out + Decode(value[i - 1..]) == Decode(value)
    case 2 =>
      && out != [] && accumulator == ValueAt(value, i - 1) % 16
      && out[|out| - 1..] == Decode2(ValueAt(value, i - 2), ValueAt(value, i - 1))
      && out[..|out| - 1] + Decode(value[i - 2..]) == Decode(value)
    case _ =>
      && |out| >= 2 && accumulator == ValueAt(value, i - 1) % 4
      && out[|out| - 2..] == Decode3(ValueAt(value, i - 3), ValueAt(value, i - 2), ValueAt(value, i - 1))
      && out[..|out| - 2] + Decode(value[i - 3..]) == Decode(value)
  }

  /** One turn of the loop that only takes bits in. */
  lemma Absorb(value: Text, i: nat, accumulator: int, out: seq<Byte>)
    requires i < |value| && AllInAlphabet(value) && i % 4 == 0 && Progress(value, i, accumulator, out)
    ensures Progress(value, i + 1, accumulator * 64 + ValueAt(value, i), out)
  {
    hide ValueOf, InAlphabet, Decode, AllInAlphabet;
  }

  lemma EmitFirst(value: Text, i: nat, accumulator: int, out: seq<Byte>)
    requires i < |value| && AllInAlphabet(value) && i % 4 == 1 && Progress(value, i, accumulator, out)
    ensures var total := accumulator * 64 + ValueAt(value, i);
            0 <= total / 16 % 256 && Progress(value, i + 1, total % 16, out + [total / 16 % 256])
  {
    hide ValueOf, InAlphabet, Decode, AllInAlphabet;
    Cuts(ValueAt(value, i - 1), ValueAt(value, i));
    var total := accumulator * 64 + ValueAt(value, i);
    var after := out + [total / 16 % 256];
    assert after[..|after| - 1] == out;
  }

  lemma EmitSecond(value: Text, i: nat, accumulator: int, out: seq<Byte>)
    requires i < |value| && AllInAlphabet(value) && i % 4 == 2 && Progress(value, i, accumulator, out)
    ensures var total := accumulator * 64 + ValueAt(value, i);
            0 <= total / 4 % 256 && Progress(value, i + 1, total % 4, out + [total / 4 % 256])
  {
    hide ValueOf, InAlphabet, Decode, AllInAlphabet;
    Cuts(ValueAt(value, i - 1), ValueAt(value, i));
    var total := accumulator * 64 + ValueAt(value, i);
    var after := out + [total / 4 % 256];
    assert after[..|after| - 2] == out[..|out| - 1];
    assert after[|after| - 2..] == out[|out| - 1..] + [total / 4 % 256];
  }

  lemma EmitThird(value: Text, i: nat, accumulator: int, out: seq<Byte>)
    requires i < |value| && AllInAlphabet(value) && i % 4 == 3 && Progress(value, i, accumulator, out)
    ensures var total := accumulator * 64 + ValueAt(value, i);
            0 <= total % 256 && Progress(value, i + 1, 0, out + [total % 256])
  {
    hide ValueOf, InAlphabet, Decode2, Decode3;
    Cuts(ValueAt(value, i - 1), ValueAt(value, i));
    var byte := (accumulator * 64 + ValueAt(value, i)) % 256;
    var tail := value[i - 3..];
    assert tail[4..] == value[i + 1..];
    assert out == out[..|out| - 2] + out[|out| - 2..];
    assert Decode(tail) == out[|out| - 2..] + [byte] + Decode(value[i + 1..]);
    assert out + [byte] + Decode(value[i + 1..]) == out[..|out| - 2] + Decode(tail);
  }

  /** One turn of the loop that moves a byte out of the accumulator. */
  lemma Emit(value: Text, i: nat, accumulator: int, out: seq<Byte>)
    requires i < |value| && AllInAlphabet(value) && i % 4 != 0 && Progress(value, i, accumulator, out)
    ensures var total := accumulator * 64 + ValueAt(value, i);
            var bits := BitsAt(i) - 2;
            0 <= Shifted(total, bits) % 256
            && Progress(value, i + 1, Kept(total, bits), out + [Shifted(total, bits) % 256])
  {
    hide ValueOf, InAlphabet, Decode, AllInAlphabet, Progress, BitsAt;
    Positions(i);
    if i % 4 == 1 {
      EmitFirst(value, i, accumulator, out);
    } else if i % 4 == 2 {
      EmitSecond(value, i, accumulator, out);
    } else {
      EmitThird(value, i, accumulator, out);
    }
  }

  lemma Start(value: Text)
    requires AllInAlphabet(value)
    ensures Progress(value, 0, 0, [])
  {
    assert value[0..] == value;
  }

  /** At the end the leftover bits are the ones that the recogniser wants to be zero. */
  lemma LastBits(value: Text, accumulator: int, out: seq<Byte>)
    requires AllInAlphabet(value) && |value| > 0 && |value| % 4 != 1
    requires Progress(value, |value|, accumulator, out)
    ensures out == Decode(value)
    ensures Canonical(value) <==> accumulator == 0
    ensures |value| % 4 == 0 ==> accumulator == 0
  {
    hide ValueOf, InAlphabet, Decode2, Decode3;
    var k := |value| % 4;
    if k == 2 {
      assert out == out[..|out| - 1] + out[|out| - 1..];
      assert Decode(value[|value| - 2..]) == out[|out| - 1..];
    } else if k == 3 {
      assert out == out[..|out| - 2] + out[|out| - 2..];
      assert Decode(value[|value| - 3..]) == out[|out| - 2..];
    } else {
      assert Decode(value[|value|..]) == [];
    }
  }

  /** base64UrlToBytes: bits are shifted into an accumulator and leave it eight at a time. */
  method Base64UrlToBytes(value: Text, maximumBytes: nat) returns (r: Outcome<seq<Byte>>)
    ensures r.Ok? <==> Canonical(value) && |value| * 6 / 8 <= maximumBytes
    ensures r.Ok? ==> r.value == Decode(value)
  {
    hide Decode, ValueOf, InAlphabet, Progress, OffsetAt, BitsAt, Shifted, Kept, DecodedLength;
    Refusals(value);
    if |value| == 0 || |value| % 4 == 1 || !AllInAlphabet(value) {
      return Fail("base64url_decode");
    }
    var length := |value| * 6 / 8;
    if length > maximumBytes {
      return Fail("base64url_size");
    }
    var output := new Byte[length](_ => 0);
    var accumulator: int, bits: int, offset: nat := 0, 0, 0;
    var i: nat := 0;
    Start(value);
    Positions(0);
    assert output[..0] == [];
    while i < |value|
      invariant i <= |value|
      invariant offset == OffsetAt(i) && bits == BitsAt(i)
      invariant offset <= length == OffsetAt(|value|)
      invariant Progress(value, i, accumulator, output[..offset])
    {
      ghost var before, held := output[..offset], accumulator;
      Positions(i);
      Positions(i + 1);
      OffsetGrows(i + 1, |value|);
      accumulator := accumulator * 64 + ValueAt(value, i);
      bits := bits + 6;
      if bits >= 8 {
        Emit(value, i, held, before);
        bits := bits - 8;
        output[offset] := Shifted(accumulator, bits) % 256;
        offset := offset + 1;
        accumulator := Kept(accumulator, bits);
        assert output[..offset] == before + [output[offset - 1]];
      } else {
        Absorb(value, i, held, before);
      }
      i := i + 1;
    }
    assert output[..offset] == output[..];
    LastBits(value, accumulator, output[..]);
    Positions(i);
    if offset != length || (bits > 0 && accumulator != 0) {
      return Fail("base64url_decode");
    }
    return Ok(output[..]);
  }

  lemma Refusals(value: Text)
    ensures Canonical(value) ==> |value| > 0 && |value| % 4 != 1 && AllInAlphabet(value)
    ensures OffsetAt(0) == BitsAt(0) == 0 && OffsetAt(|value|) == |value| * 6 / 8
  {
  }
}
