/** Finite JavaScript numbers as their shortest decimals, printed as Number::toString
    prints them (ECMAScript, section 6.1.6.1.20) and read as RFC 8259, section 6 says. */
module JsonNumbers {
  import opened Wrappers
  import opened Unicode
  import opened Scanning
  import opened Decimal

  /** Zero, or 0.d1d2d3... times ten to the power `point`, with d1 not zero. */
  datatype Float = Zero | Dec(negative: bool, digits: seq<Digit>, point: int)

  /** The shortest decimal of some finite double. */
  predicate ValidFloat(x: Float) {
    x.Zero? || (Trimmed(x.digits) && |x.digits| <= 17 && -400 < x.point < 400)
  }

  /** Neither a leading nor a trailing zero, and at least one digit. */
  predicate Trimmed(ds: seq<Digit>) {
    ds != [] && ds[0] != 0 && ds[|ds| - 1] != 0
  }

  const ONE: Float := Dec(false, [1], 1)

  // ---------- digits as text ----------

  const MINUS: CodeUnit := 0x2D
  const PLUS: CodeUnit := 0x2B
  const DOT: CodeUnit := 0x2E
  const EXPONENT: CodeUnit := 0x65

  predicate IsDigit(u: CodeUnit) { 0x30 <= u <= 0x39 }

  function Glyph(d: Digit): CodeUnit {
    var value: int := d;
    0x30 + value
  }

  function Show(ds: seq<Digit>): (t: Text)
    ensures |t| == |ds|
    ensures forall i :: 0 <= i < |t| ==> t[i] == Glyph(ds[i])
  {
    seq(|ds|, i requires 0 <= i < |ds| => Glyph(ds[i]))
  }

  function Zeros(k: nat): (r: seq<Digit>)
    ensures |r| == k
    ensures forall i :: 0 <= i < k ==> r[i] == 0
  {
    seq(k, i => 0)
  }

  datatype Scan = Scan(digits: seq<Digit>, rest: Text)

  /** The longest run of digits at the front of `s`. */
  function ScanDigits(s: Text): (r: Scan)
    ensures |s| == |r.digits| + |r.rest|
  {
    if s == [] || !IsDigit(s[0]) then Scan([], s)
    else
      var r := ScanDigits(s[1..]);
      Scan([s[0] - 0x30] + r.digits, r.rest)
  }

  predicate NoDigitNext(rest: Text) { rest == [] || !IsDigit(rest[0]) }

  lemma {:induction false} ScanShown(ds: seq<Digit>, rest: Text)
    requires NoDigitNext(rest)
    ensures ScanDigits(Show(ds) + rest) == Scan(ds, rest)
  {
    var t := Show(ds) + rest;
    if ds == [] {
      assert t == rest;
    } else {
      assert t[0] == Glyph(ds[0]);
      assert t[1..] == Show(ds[1..]) + rest;
      ScanShown(ds[1..], rest);
      assert ds == [ds[0]] + ds[1..];
    }
  }

  // ---------- printing ----------

  function PrintFloat(x: Float): Text {
    match x
    case Zero => Show([0])
    case Dec(negative, digits, point) => (if negative then [MINUS] else []) + PrintDigits(digits, point)
  }

  /** The four layouts of Number::toString for k digits and decimal point n. */
  function PrintDigits(digits: seq<Digit>, n: int): Text {
    var k := |digits|;
    if k <= n <= 21 then Show(digits + Zeros(n - k))
    else if 0 < n <= 21 then Show(digits[..n]) + [DOT] + Show(digits[n..])
    else if -6 < n <= 0 then Show([0]) + [DOT] + Show(Zeros(-n) + digits)
    else if k == 0 then []
    else
      Show(digits[..1]) + (if k == 1 then [] else [DOT] + Show(digits[1..])) + PrintExponent(n - 1)
  }

  function PrintExponent(e: int): Text {
    [EXPONENT] + [if e < 0 then MINUS else PLUS] + Show(Digits(if e < 0 then -e else e))
  }

  // ---------- reading ----------

  function StripTrailing(ds: seq<Digit>): seq<Digit> {
    if ds != [] && ds[|ds| - 1] == 0 then StripTrailing(ds[..|ds| - 1]) else ds
  }

  /** The number sign 0.ds times ten to the power `point`. */
  function FromDecimal(negative: bool, ds: seq<Digit>, point: int): Float {
    if ds == [] then Zero
    else if ds[0] == 0 then FromDecimal(negative, ds[1..], point - 1)
    else Dec(negative, StripTrailing(ds), point)
  }

  /** An optional fraction: digits after a dot, at least one. */
  function ReadFraction(s: Text): (r: Read<seq<Digit>>)
    ensures r.Got? ==> |r.rest| <= |s|
  {
    if s == [] || s[0] != DOT then Got([], s)
    else
      var r := ScanDigits(s[1..]);
      if r.digits == [] then Bad else Got(r.digits, r.rest)
  }

  /** An optional exponent. */
  function ReadExponent(s: Text): (r: Read<int>)
    ensures r.Got? ==> |r.rest| <= |s|
  {
    if s == [] || (s[0] != EXPONENT && s[0] != 0x45) then Got(0, s)
    else
      var negative := |s| > 1 && s[1] == MINUS;
      var t := if |s| > 1 && (s[1] == MINUS || s[1] == PLUS) then s[2..] else s[1..];
      var r := ScanDigits(t);
      if r.digits == [] then Bad
      else
        var magnitude: int := Number(r.digits);
        Got(if negative then -magnitude else magnitude, r.rest)
  }

  function ReadFloat(s: Text): (r: Read<Float>)
    ensures r.Got? ==> |r.rest| < |s|
  {
    var negative := s != [] && s[0] == MINUS;
    var whole := ScanDigits(if negative then s[1..] else s);
    if !NoLeadingZero(whole.digits) then Bad
    else
      match ReadFraction(whole.rest)
      case Bad => Bad
      case Got(fraction, t) =>
        match ReadExponent(t)
        case Bad => Bad
        case Got(e, rest) => Got(FromDecimal(negative, whole.digits + fraction, |whole.digits| + e), rest)
  }

  // ---------- round trip ----------

  /** What may follow a number so that reading stops where printing stopped. */
  predicate EndsNumber(rest: Text) {
    rest == [] || (!IsDigit(rest[0]) && rest[0] != DOT && rest[0] != EXPONENT && rest[0] != 0x45)
  }

  lemma {:induction false} StripZeros(ds: seq<Digit>, k: nat)
    requires Trimmed(ds)
    ensures StripTrailing(ds + Zeros(k)) == ds
  {
    if k == 0 {
      assert ds + Zeros(0) == ds;
    } else {
      var t := ds + Zeros(k);
      assert t[|t| - 1] == 0;
      assert t[..|t| - 1] == ds + Zeros(k - 1);
      StripZeros(ds, k - 1);
    }
  }

  lemma {:induction false} SkipZeros(negative: bool, ds: seq<Digit>, k: nat, point: int)
    requires Trimmed(ds)
    ensures FromDecimal(negative, Zeros(k) + ds, point) == Dec(negative, ds, point - k)
  {
    var t := Zeros(k) + ds;
    if k == 0 {
      assert t == ds;
      assert ds + Zeros(0) == ds;
      StripZeros(ds, 0);
    } else {
      assert t[0] == 0;
      assert t[1..] == Zeros(k - 1) + ds;
      SkipZeros(negative, ds, k - 1, point - 1);
    }
  }

  lemma DropZeros(negative: bool, ds: seq<Digit>, k: nat, point: int)
    requires Trimmed(ds)
    ensures FromDecimal(negative, ds + Zeros(k), point) == Dec(negative, ds, point)
  {
    StripZeros(ds, k);
  }

  lemma ReadExponentShown(e: int, rest: Text)
    requires EndsNumber(rest)
    ensures ReadExponent(PrintExponent(e) + rest) == Got(e, rest)
  {
    hide Digits, ScanDigits, Number;
    var m: nat := if e < 0 then -e else e;
    var s := PrintExponent(e) + rest;
    assert s[1] == (if e < 0 then MINUS else PLUS) && s[2..] == Show(Digits(m)) + rest;
    ScanShown(Digits(m), rest);
    NumberOfDigits(m);
  }

  lemma ReadFractionShown(ds: seq<Digit>, rest: Text)
    requires ds != [] && NoDigitNext(rest)
    ensures ReadFraction([DOT] + Show(ds) + rest) == Got(ds, rest)
  {
    assert ([DOT] + Show(ds) + rest)[1..] == Show(ds) + rest;
    ScanShown(ds, rest);
  }

  /** Reading a number whose parts are printed one after the other. */
  lemma ReadParts(negative: bool, whole: seq<Digit>, tail: Text, fraction: seq<Digit>, mid: Text, e: int, rest: Text)
    requires NoLeadingZero(whole) && NoDigitNext(tail)
    requires ReadFraction(tail) == Got(fraction, mid)
    requires ReadExponent(mid) == Got(e, rest)
    ensures ReadFloat((if negative then [MINUS] else []) + (Show(whole) + tail))
         == Got(FromDecimal(negative, whole + fraction, |whole| + e), rest)
  {
    hide ReadFraction, ReadExponent, FromDecimal, ScanDigits, NoDigitNext;
    ScanShown(whole, tail);
    var t := Show(whole) + tail;
    var s := (if negative then [MINUS] else []) + t;
    if negative {
      assert s[1..] == t;
    } else {
      assert s == t;
      assert t[0] == Glyph(whole[0]);
    }
  }

  /** The four layouts, each read back. */
  lemma IntegerLayout(negative: bool, ds: seq<Digit>, n: int, rest: Text)
    requires Trimmed(ds) && EndsNumber(rest) && |ds| <= n
    ensures ReadFloat((if negative then [MINUS] else []) + (Show(ds + Zeros(n - |ds|)) + rest)) == Got(Dec(negative, ds, n), rest)
  {
    hide ReadFloat, FromDecimal;
    var whole := ds + Zeros(n - |ds|);
    ReadParts(negative, whole, rest, [], rest, 0, rest);
    DropZeros(negative, ds, n - |ds|, n);
    assert whole + [] == whole;
  }

  lemma PointLayout(negative: bool, ds: seq<Digit>, n: int, rest: Text)
    requires Trimmed(ds) && EndsNumber(rest) && 0 < n < |ds|
    ensures ReadFloat((if negative then [MINUS] else []) + (Show(ds[..n]) + ([DOT] + Show(ds[n..]) + rest))) == Got(Dec(negative, ds, n), rest)
  {
    hide ReadFloat, FromDecimal;
    var tail := [DOT] + Show(ds[n..]) + rest;
    ReadFractionShown(ds[n..], rest);
    ReadParts(negative, ds[..n], tail, ds[n..], rest, 0, rest);
    assert ds[..n] + ds[n..] == Zeros(0) + ds;
    SkipZeros(negative, ds, 0, n);
  }

  lemma SmallLayout(negative: bool, ds: seq<Digit>, n: int, rest: Text)
    requires Trimmed(ds) && EndsNumber(rest) && n <= 0
    ensures ReadFloat((if negative then [MINUS] else []) + (Show([0]) + ([DOT] + Show(Zeros(-n) + ds) + rest))) == Got(Dec(negative, ds, n), rest)
  {
    hide ReadFloat, FromDecimal;
    var fraction := Zeros(-n) + ds;
    var tail := [DOT] + Show(fraction) + rest;
    ReadFractionShown(fraction, rest);
    ReadParts(negative, [0], tail, fraction, rest, 0, rest);
    assert [0] + fraction == Zeros(1 - n) + ds;
    SkipZeros(negative, ds, 1 - n, 1);
  }

  lemma ExponentLayout(negative: bool, ds: seq<Digit>, n: int, rest: Text)
    requires Trimmed(ds) && EndsNumber(rest)
    ensures var tail := (if |ds| == 1 then [] else [DOT] + Show(ds[1..])) + (PrintExponent(n - 1) + rest);
            ReadFloat((if negative then [MINUS] else []) + (Show(ds[..1]) + tail)) == Got(Dec(negative, ds, n), rest)
  {
    hide ReadFloat, FromDecimal;
    var mid := PrintExponent(n - 1) + rest;
    var tail := (if |ds| == 1 then [] else [DOT] + Show(ds[1..])) + mid;
    ReadExponentShown(n - 1, rest);
    assert ds[..1] + ds[1..] == Zeros(0) + ds;
    SkipZeros(negative, ds, 0, n);
    if |ds| == 1 {
      assert ds[1..] == [] && tail == mid;
    } else {
      ReadFractionShown(ds[1..], mid);
      assert tail == [DOT] + Show(ds[1..]) + mid;
    }
    ReadParts(negative, ds[..1], tail, ds[1..], mid, n - 1, rest);
  }

  lemma Assoc(a: Text, b: Text, c: Text)
    ensures (a + b) + c == a + (b + c)
  {
  }

  lemma DigitsRoundTrip(negative: bool, ds: seq<Digit>, n: int, rest: Text)
    requires Trimmed(ds) && EndsNumber(rest)
    ensures ReadFloat((if negative then [MINUS] else []) + (PrintDigits(ds, n) + rest)) == Got(Dec(negative, ds, n), rest)
  {
    hide ReadFloat, Show, Zeros, PrintExponent;
    if |ds| <= n <= 21 {
      IntegerLayout(negative, ds, n, rest);
    } else if 0 < n <= 21 {
      PointLayout(negative, ds, n, rest);
      Assoc(Show(ds[..n]), [DOT] + Show(ds[n..]), rest);
      Assoc(Show(ds[..n]), [DOT], Show(ds[n..]));
    } else if -6 < n <= 0 {
      SmallLayout(negative, ds, n, rest);
      Assoc(Show([0]), [DOT] + Show(Zeros(-n) + ds), rest);
      Assoc(Show([0]), [DOT], Show(Zeros(-n) + ds));
    } else {
      ExponentLayout(negative, ds, n, rest);
      var dots := if |ds| == 1 then [] else [DOT] + Show(ds[1..]);
      Assoc(Show(ds[..1]) + dots, PrintExponent(n - 1), rest);
      Assoc(Show(ds[..1]), dots, PrintExponent(n - 1) + rest);
    }
  }

  /** JSON.parse reads back what JSON.stringify prints for a number. */
  lemma FloatRoundTrip(x: Float, rest: Text)
    requires ValidFloat(x) && EndsNumber(rest)
    ensures ReadFloat(PrintFloat(x) + rest) == Got(x, rest)
  {
    match x
    case Zero =>
      ReadParts(false, [0], rest, [], rest, 0, rest);
      assert PrintFloat(x) + rest == [] + (Show([0]) + rest);
      assert [0] + [] == [0] && [0][1..] == [];
    case Dec(negative, ds, n) =>
      DigitsRoundTrip(negative, ds, n, rest);
      Assoc(if negative then [MINUS] else [], PrintDigits(ds, n), rest);
  }

  // ---------- size ----------

  /** Printable ASCII without the space. */
  predicate Graphic(t: Text) {
    forall i :: 0 <= i < |t| ==> 0x20 < t[i] < 0x80
  }

  lemma GraphicExponent(e: int)
    requires -1000 < e < 1000
    ensures |PrintExponent(e)| <= 5 && Graphic(PrintExponent(e))
  {
    assert Pow10(3) == 1000;
    DigitsBound(if e < 0 then -e else e, 3);
  }

  lemma DigitsLength(ds: seq<Digit>, n: int)
    requires ds != [] && |ds| <= 17 && -400 < n < 400
    ensures 0 < |PrintDigits(ds, n)| <= 24 && Graphic(PrintDigits(ds, n)) && IsDigit(PrintDigits(ds, n)[0])
  {
    if |ds| <= n <= 21 || 0 < n <= 21 || -6 < n <= 0 {
    } else {
      GraphicExponent(n - 1);
    }
  }

  /** Printed numbers are short ASCII that starts with a digit or a minus sign. */
  lemma FloatLength(x: Float)
    requires ValidFloat(x)
    ensures 0 < |PrintFloat(x)| <= 25 && Graphic(PrintFloat(x))
    ensures PrintFloat(x)[0] == MINUS || IsDigit(PrintFloat(x)[0])
  {
    if x.Dec? {
      DigitsLength(x.digits, x.point);
    }
  }
}
