/** JavaScript strings are sequences of UTF-16 code units; this module relates them
    to Unicode scalar values and to UTF-8 bytes (RFC 3629, section 3), and models
    the byte counter of the messaging contract. */
module Unicode {
  import opened Wrappers

  type CodeUnit = u: int | 0 <= u < 0x10000
  type Text = seq<CodeUnit>
  type Byte = b: int | 0 <= b < 256
  type Scalar = v: int | 0 <= v < 0xD800 || 0xE000 <= v < 0x110000

  const REPLACEMENT: Scalar := 0xFFFD

  predicate IsHigh(u: CodeUnit) { 0xD800 <= u <= 0xDBFF }

  predicate IsLow(u: CodeUnit) { 0xDC00 <= u <= 0xDFFF }

  /** A high surrogate at the front of `s` is followed by a low one. */
  predicate StartsWithPair(s: Text) {
    |s| >= 2 && IsHigh(s[0]) && IsLow(s[1])
  }

  /** ASCII literals as JavaScript strings; anything else is a question mark. */
  function Lit(s: string): (t: Text)
    ensures |t| == |s|
    ensures forall i :: 0 <= i < |s| ==> t[i] == if s[i] < 128 as char then s[i] as int else 0x3F
  {
    seq(|s|, i requires 0 <= i < |s| => if s[i] < 128 as char then s[i] as int else 0x3F)
  }

  // ---------- UTF-16 to scalar values ----------

  /** The scalar value that a surrogate pair stands for. */
  function PairScalar(high: CodeUnit, low: CodeUnit): Scalar
    requires IsHigh(high) && IsLow(low)
  {
    var h: int, l: int := high, low;
    0x10000 + (h - 0xD800) * 0x400 + (l - 0xDC00)
  }

  /** The scalar values of a JavaScript string; an unpaired surrogate reads as U+FFFD. */
  function Scalars(s: Text): seq<Scalar> {
    if s == [] then []
    else if StartsWithPair(s) then
      [PairScalar(s[0], s[1])] + Scalars(s[2..])
    else if IsHigh(s[0]) || IsLow(s[0]) then [REPLACEMENT] + Scalars(s[1..])
    else [s[0]] + Scalars(s[1..])
  }

  /** No unpaired surrogate anywhere. */
  predicate WellFormed(s: Text) {
    if s == [] then true
    else if StartsWithPair(s) then WellFormed(s[2..])
    else !IsHigh(s[0]) && !IsLow(s[0]) && WellFormed(s[1..])
  }

  function UnitsOf(v: Scalar): (r: Text)
    ensures |r| == 1 || |r| == 2
  {
    if v < 0x10000 then [v]
    else [0xD800 + (v - 0x10000) / 0x400, 0xDC00 + (v - 0x10000) % 0x400]
  }

  function Units(vs: seq<Scalar>): Text {
    if vs == [] then [] else UnitsOf(vs[0]) + Units(vs[1..])
  }

  lemma {:induction false} ScalarsUnits(s: Text)
    requires WellFormed(s)
    ensures Units(Scalars(s)) == s
  {
    if s == [] {
    } else if StartsWithPair(s) {
      ScalarsUnits(s[2..]);
      var v := PairScalar(s[0], s[1]);
      assert UnitsOf(v) == s[..2];
      assert Scalars(s) == [v] + Scalars(s[2..]);
    } else {
      ScalarsUnits(s[1..]);
      assert UnitsOf(s[0]) == s[..1];
      assert Scalars(s) == [s[0]] + Scalars(s[1..]);
    }
  }

  lemma {:induction false} WellFormedConcat(a: Text, b: Text)
    requires WellFormed(a) && WellFormed(b)
    ensures WellFormed(a + b)
  {
    if a == [] {
      assert a + b == b;
    } else if StartsWithPair(a) {
      assert (a + b)[2..] == a[2..] + b;
      WellFormedConcat(a[2..], b);
    } else {
      assert (a + b)[1..] == a[1..] + b;
      WellFormedConcat(a[1..], b);
    }
  }

  // ---------- UTF-8 ----------

  function EncodeScalar(v: Scalar): (r: seq<Byte>)
    ensures 1 <= |r| <= 4
  {
    if v < 0x80 then [v]
    else if v < 0x800 then [0xC0 + v / 64, 0x80 + v % 64]
    else if v < 0x10000 then [0xE0 + v / 4096, 0x80 + v / 64 % 64, 0x80 + v % 64]
    else [0xF0 + v / 262144, 0x80 + v / 4096 % 64, 0x80 + v / 64 % 64, 0x80 + v % 64]
  }

  function EncodeUtf8(vs: seq<Scalar>): seq<Byte> {
    if vs == [] then [] else EncodeScalar(vs[0]) + EncodeUtf8(vs[1..])
  }

  datatype Step = Malformed | Next(v: Scalar, length: nat)

  predicate IsTail(b: Byte) { 0x80 <= b < 0xC0 }

  /** The number whose base-64 digits are `d`, most significant first. */
  function Join(d: seq<int>): int {
    if |d| == 2 then d[0] * 64 + d[1]
    else if |d| == 3 then d[0] * 4096 + d[1] * 64 + d[2]
    else if |d| == 4 then d[0] * 262144 + d[1] * 4096 + d[2] * 64 + d[3]
    else 0
  }

  /** One scalar value from the front of `b`, shortest form only. */
  function DecodeScalar(b: seq<Byte>): (r: Step)
    ensures r.Next? ==> 1 <= r.length <= |b|
  {
    if b == [] then Malformed
    else if b[0] < 0x80 then Next(b[0], 1)
    else if 0xC2 <= b[0] < 0xE0 && |b| >= 2 && IsTail(b[1]) then
      Next(Join([b[0] - 0xC0, b[1] - 0x80]), 2)
    else if 0xE0 <= b[0] < 0xF0 && |b| >= 3 && IsTail(b[1]) && IsTail(b[2]) then
      var v := Join([b[0] - 0xE0, b[1] - 0x80, b[2] - 0x80]);
      if v < 0x800 || 0xD800 <= v < 0xE000 then Malformed else Next(v, 3)
    else if 0xF0 <= b[0] < 0xF5 && |b| >= 4 && IsTail(b[1]) && IsTail(b[2]) && IsTail(b[3]) then
      var v := Join([b[0] - 0xF0, b[1] - 0x80, b[2] - 0x80, b[3] - 0x80]);
      if v < 0x10000 || 0x110000 <= v then Malformed else Next(v, 4)
    else Malformed
  }

  datatype Decoded = Invalid | Valid(scalars: seq<Scalar>)

  function DecodeUtf8(b: seq<Byte>): Decoded {
    if b == [] then Valid([])
    else match DecodeScalar(b)
      case Malformed => Invalid
      case Next(v, n) =>
        match DecodeUtf8(b[n..])
        case Invalid => Invalid
        case Valid(rest) => Valid([v] + rest)
  }

  lemma SplitBase64(v: nat)
    ensures v == v / 64 * 64 + v % 64
    ensures v == v / 4096 * 4096 + v / 64 % 64 * 64 + v % 64
    ensures v == v / 262144 * 262144 + v / 4096 % 64 * 4096 + v / 64 % 64 * 64 + v % 64
  {
    assert v / 4096 == v / 64 / 64;
    assert v / 262144 == v / 4096 / 64;
  }

  lemma DecodeEncodeScalar(v: Scalar, rest: seq<Byte>)
    ensures DecodeScalar(EncodeScalar(v) + rest) == Next(v, |EncodeScalar(v)|)
  {
    var b := EncodeScalar(v) + rest;
    SplitBase64(v);
    if v < 0x80 {
      assert b[0] == v;
    } else if v < 0x800 {
      assert b[0] == 0xC0 + v / 64 && b[1] == 0x80 + v % 64;
    } else if v < 0x10000 {
      assert b[0] == 0xE0 + v / 4096 && b[1] == 0x80 + v / 64 % 64 && b[2] == 0x80 + v % 64;
    } else {
      assert b[0] == 0xF0 + v / 262144 && b[1] == 0x80 + v / 4096 % 64;
      assert b[2] == 0x80 + v / 64 % 64 && b[3] == 0x80 + v % 64;
    }
  }

  lemma {:induction false} Utf8RoundTrip(vs: seq<Scalar>)
    ensures DecodeUtf8(EncodeUtf8(vs)) == Valid(vs)
  {
    if vs != [] {
      var e := EncodeScalar(vs[0]);
      var rest := EncodeUtf8(vs[1..]);
      DecodeEncodeScalar(vs[0], rest);
      assert (e + rest)[|e|..] == rest;
      Utf8RoundTrip(vs[1..]);
      assert vs == [vs[0]] + vs[1..];
    }
  }

  lemma ScalarDecoded(b: seq<Byte>)
    requires DecodeScalar(b).Next?
    ensures b[..DecodeScalar(b).length] == EncodeScalar(DecodeScalar(b).v)
  {
    var v: int := DecodeScalar(b).v;
    if 0x80 <= b[0] < 0xE0 {
      TwoDigits(b[0] - 0xC0, b[1] - 0x80);
    } else if 0xE0 <= b[0] < 0xF0 {
      ThreeDigits(b[0] - 0xE0, b[1] - 0x80, b[2] - 0x80);
    } else if 0xF0 <= b[0] {
      FourDigits(b[0] - 0xF0, b[1] - 0x80, b[2] - 0x80, b[3] - 0x80);
    }
  }

  lemma TwoDigits(a: int, c: int)
    requires 0 <= a && 0 <= c < 64
    ensures (a * 64 + c) / 64 == a && (a * 64 + c) % 64 == c
  {
  }

  lemma ThreeDigits(a: int, c: int, d: int)
    requires 0 <= a && 0 <= c < 64 && 0 <= d < 64
    ensures var v := a * 4096 + c * 64 + d; v / 4096 == a && v / 64 % 64 == c && v % 64 == d
  {
    TwoDigits(a * 64 + c, d);
    TwoDigits(a, c);
  }

  lemma FourDigits(a: int, c: int, d: int, e: int)
    requires 0 <= a && 0 <= c < 64 && 0 <= d < 64 && 0 <= e < 64
    ensures var v := a * 262144 + c * 4096 + d * 64 + e; v / 262144 == a && v / 4096 % 64 == c && v / 64 % 64 == d && v % 64 == e
  {
    TwoDigits(a * 4096 + c * 64 + d, e);
    ThreeDigits(a, c, d);
    assert (a * 4096 + c * 64 + d) / 4096 == a;
  }

  /** The decoder accepts exactly the encodings: shortest forms of scalar values. */
  lemma {:induction false} Utf8Exact(b: seq<Byte>, vs: seq<Scalar>)
    ensures DecodeUtf8(b) == Valid(vs) <==> b == EncodeUtf8(vs)
    decreases |b|
  {
    hide DecodeScalar, EncodeScalar;
    Utf8RoundTrip(vs);
    if DecodeUtf8(b) == Valid(vs) && b != [] {
      var step := DecodeScalar(b);
      ScalarDecoded(b);
      Utf8Exact(b[step.length..], vs[1..]);
      assert b == b[..step.length] + b[step.length..];
    }
  }

  /** TextEncoder: the UTF-8 bytes of a JavaScript string. */
  function Bytes(s: Text): seq<Byte> { EncodeUtf8(Scalars(s)) }

  /** TextDecoder, on the inputs where it substitutes nothing and drops no byte order mark. */
  function TextOf(b: seq<Byte>): (r: Option<Text>) {
    match DecodeUtf8(b)
    case Invalid => None
    case Valid(vs) => Some(Units(vs))
  }

  /** A string without unpaired surrogates survives TextEncoder and TextDecoder. */
  lemma TextRoundTrip(s: Text)
    requires WellFormed(s)
    ensures TextOf(Bytes(s)) == Some(s)
  {
    Utf8RoundTrip(Scalars(s));
    ScalarsUnits(s);
  }

  // ---------- the byte counter ----------

  /** The number of UTF-8 bytes of a JavaScript string, unit by unit (see CountsUtf8). */
  function Utf8Length(s: Text): nat {
    if s == [] then 0
    else if StartsWithPair(s) then 4 + Utf8Length(s[2..])
    else (if s[0] < 0x80 then 1 else if s[0] < 0x800 then 2 else 3) + Utf8Length(s[1..])
  }

  lemma {:induction false} CountsUtf8(s: Text)
    ensures Utf8Length(s) == |Bytes(s)|
  {
    if s == [] {
    } else if StartsWithPair(s) {
      var v := PairScalar(s[0], s[1]);
      assert Scalars(s) == [v] + Scalars(s[2..]);
      assert Bytes(s) == EncodeScalar(v) + Bytes(s[2..]);
      CountsUtf8(s[2..]);
    } else {
      var v: Scalar := if IsHigh(s[0]) || IsLow(s[0]) then REPLACEMENT else s[0];
      assert Scalars(s) == [v] + Scalars(s[1..]);
      assert Bytes(s) == EncodeScalar(v) + Bytes(s[1..]);
      CountsUtf8(s[1..]);
    }
  }

  method Utf8ByteLength(value: Text) returns (bytes: nat)
    ensures bytes == |EncodeUtf8(Scalars(value))|
  {
    CountsUtf8(value);
    bytes := 0;
    var index := 0;
    assert value[0..] == value;
    while index < |value|
      invariant 0 <= index <= |value|
      invariant bytes + Utf8Length(value[index..]) == Utf8Length(value)
    {
      ghost var tail := value[index..];
      var code := value[index];
      if code < 0x80 {
        bytes := bytes + 1;
      } else if code < 0x800 {
        bytes := bytes + 2;
      } else if code >= 0xD800 && code <= 0xDBFF && index + 1 < |value|
        && value[index + 1] >= 0xDC00 && value[index + 1] <= 0xDFFF
      {
        assert StartsWithPair(tail) && tail[2..] == value[index + 2..];
        bytes := bytes + 4;
        index := index + 1;
      } else {
        bytes := bytes + 3;
      }
      index := index + 1;
      assert value[index..] == if StartsWithPair(tail) then tail[2..] else tail[1..];
    }
  }

  /** The split between `a` and `b` falls inside a surrogate pair. */
  predicate SplitsPair(a: Text, b: Text) {
    a != [] && b != [] && IsHigh(a[|a| - 1]) && IsLow(b[0])
  }

  /** Counting is additive, except that joining a split pair saves exactly two bytes. */
  lemma {:induction false} Utf8LengthConcat(a: Text, b: Text)
    ensures Utf8Length(a + b) == Utf8Length(a) + Utf8Length(b) - (if SplitsPair(a, b) then 2 else 0)
  {
    if a == [] {
      assert a + b == b;
    } else {
      assert forall i :: 0 <= i < |a| ==> (a + b)[i] == a[i];
      if StartsWithPair(a) {
        assert (a + b)[2..] == a[2..] + b;
        Utf8LengthConcat(a[2..], b);
      } else {
        assert (a + b)[1..] == a[1..] + b;
        if |a| == 1 {
          if SplitsPair(a, b) {
            assert (a + b)[2..] == b[1..];
            assert (a + b)[1] == b[0];
            assert a[1..] == [] && Utf8Length([]) == 0;
          } else {
            Utf8LengthConcat(a[1..], b);
          }
        } else {
          assert (a + b)[1] == a[1];
          Utf8LengthConcat(a[1..], b);
        }
      }
    }
  }

  /** ASCII text has one byte per code unit. */
  lemma {:induction false} AsciiLength(s: Text)
    requires forall i :: 0 <= i < |s| ==> s[i] < 0x80
    ensures Utf8Length(s) == |s|
  {
    if s != [] {
      AsciiLength(s[1..]);
    }
  }

  lemma {:induction false} AsciiWellFormed(s: Text)
    requires forall i :: 0 <= i < |s| ==> s[i] < 0x80
    ensures WellFormed(s)
  {
    if s != [] {
      AsciiWellFormed(s[1..]);
    }
  }
}
