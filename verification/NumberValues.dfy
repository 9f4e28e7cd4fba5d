/** The real numbers that decimals stand for. */
module NumberValues {
  import opened Decimal
  import opened JsonNumbers
  import opened Validators

  lemma {:induction false} PowerSteps(e: int)
    ensures PowerOfTen(e + 1) == 10.0 * PowerOfTen(e)
  {
  }

  lemma {:induction false} PowerIsNat(k: int)
    requires k >= 0
    ensures PowerOfTen(k) == Pow10(k) as real && PowerOfTen(-k) * (Pow10(k) as real) == 1.0
    ensures Pow10(k) > 0
  {
    if k > 0 {
      PowerIsNat(k - 1);
    }
  }

  lemma DecValue(x: Float)
    requires x.Dec? && !x.negative
    ensures RealOf(x) == Number(x.digits) as real * PowerOfTen(x.point - |x.digits|)
  {
    hide PowerOfTen, Number;
  }

  lemma LastDigit(ds: seq<Digit>)
    requires ds != []
    ensures Number(ds) % 10 == ds[|ds| - 1]
  {
  }

  lemma Pow10Steps(k: nat)
    requires k > 0
    ensures Pow10(k) == 10 * Pow10(k - 1)
  {
  }

  /** A number is whole exactly when its point is not inside its digits. */
  lemma WholeNumber(x: Float, n: nat)
    requires ValidFloat(x) && x.Dec? && RealOf(x) == n as real
    ensures x.point >= |x.digits|
  {
    hide PowerOfTen, Number, Pow10, RealOf;
    if x.point < |x.digits| {
      var k := |x.digits| - x.point;
      SignOf(x);
      DecValue(x);
      PowerIsNat(k);
      Scaled(Number(x.digits), n, PowerOfTen(-k), Pow10(k));
      Pow10Steps(k);
      Tenfold(n, Pow10(k - 1), Pow10(k));
      LastDigit(x.digits);
    }
  }

  lemma Tenfold(n: nat, p: nat, q: nat)
    requires q == 10 * p
    ensures n * q % 10 == 0
  {
    assert n * q == 10 * (n * p);
  }

  lemma Scaled(m: nat, n: nat, p: real, q: nat)
    requires m as real * p == n as real && p * (q as real) == 1.0
    ensures m == n * q
  {
    assert m as real * (p * (q as real)) == (m as real * p) * (q as real);
    assert m as real == (n * q) as real;
  }

  lemma SignOf(x: Float)
    requires ValidFloat(x) && x.Dec?
    ensures Number(x.digits) > 0
    ensures RealOf(x) >= 0.0 <==> !x.negative
  {
    NumberPositive(x.digits);
    PowerPositive(x.point - |x.digits|);
  }

  lemma {:induction false} PowerPositive(e: int)
    ensures PowerOfTen(e) > 0.0
    decreases if e < 0 then -e else e
  {
    if e > 0 {
      PowerPositive(e - 1);
    } else if e < 0 {
      PowerPositive(e + 1);
    }
  }

  lemma WholeValue(x: Float) returns (n: nat)
    requires ValidFloat(x) && x.Dec? && !x.negative && x.point >= |x.digits|
    ensures RealOf(x) == n as real && n > 0
  {
    hide PowerOfTen, Number, Pow10, RealOf;
    var k := x.point - |x.digits|;
    PowerIsNat(k);
    SignOf(x);
    DecValue(x);
    n := Number(x.digits) * Pow10(k);
    Positive(Number(x.digits), Pow10(k));
  }

  lemma Positive(a: nat, b: nat)
    requires a > 0 && b > 0
    ensures a * b > 0 && (a * b) as real == a as real * b as real
  {
  }

  // ---------- the value of a decimal ----------

  /** Digits in front of the point are a whole number, and each place of the point is a factor of ten: this is what a
      decimal means. */
  lemma RealExact(negative: bool, ds: seq<Digit>, point: int)
    ensures RealOf(Zero) == 0.0
    ensures RealOf(Dec(negative, ds, |ds|)) == if negative then -(Number(ds) as real) else Number(ds) as real
    ensures RealOf(Dec(negative, ds, point + 1)) == 10.0 * RealOf(Dec(negative, ds, point))
  {
    hide Number;
    PowerSteps(point - |ds|);
    Tens(if negative then -1.0 else 1.0, Number(ds) as real, PowerOfTen(point - |ds|), PowerOfTen(point + 1 - |ds|));
    assert PowerOfTen(0) == 1.0;
  }

  lemma Tens(sign: real, m: real, p: real, q: real)
    requires q == 10.0 * p
    ensures sign * m * q == 10.0 * (sign * m * p)
  {
  }

  function Signed(negative: bool): real { if negative then -1.0 else 1.0 }

  lemma {:induction false} LeadingZero(ds: seq<Digit>)
    requires ds != [] && ds[0] == 0
    ensures Number(ds[1..]) == Number(ds)
  {
    if |ds| == 1 {
      assert ds[1..] == [] && ds[..0] == [];
    } else {
      var init := ds[..|ds| - 1];
      LeadingZero(init);
      assert init[1..] == ds[1..][..|ds| - 2];
    }
  }

  /** Trailing zeros only move the point. */
  lemma {:induction false} TrailingZeros(ds: seq<Digit>, point: int)
    requires ds != [] && ds[0] != 0
    ensures var r := StripTrailing(ds);
      Trimmed(r) && Number(r) as real * PowerOfTen(point - |r|) == Number(ds) as real * PowerOfTen(point - |ds|)
  {
    hide PowerOfTen, Number;
    if ds[|ds| - 1] == 0 {
      var init := ds[..|ds| - 1];
      NumberEnds(ds);
      TrailingZeros(init, point);
      PowerSteps(point - |ds|);
      Tenth(Number(ds), Number(init), PowerOfTen(point - |ds|), PowerOfTen(point - |init|));
    }
  }

  lemma NumberEnds(ds: seq<Digit>)
    requires ds != []
    ensures Number(ds) == Number(ds[..|ds| - 1]) * 10 + ds[|ds| - 1]
  {
  }

  lemma Tenth(m: nat, n: nat, p: real, q: real)
    requires m == n * 10 && q == 10.0 * p
    ensures n as real * q == m as real * p
  {
  }

  /** The normal form of a decimal has the value of its digits. */
  lemma {:induction false} FromDecimalExact(negative: bool, ds: seq<Digit>, point: int)
    ensures var x := FromDecimal(negative, ds, point);
      && RealOf(x) == Signed(negative) * (Number(ds) as real) * PowerOfTen(point - |ds|)
      && (x.Dec? ==> Trimmed(x.digits) && x.negative == negative)
    decreases |ds|
  {
    hide PowerOfTen, Number, StripTrailing;
    if ds == [] {
      NothingCounts(negative, point);
    } else if ds[0] == 0 {
      FromDecimalExact(negative, ds[1..], point - 1);
      LeadingZero(ds);
    } else {
      TrailingZeros(ds, point);
      var r := StripTrailing(ds);
      StrippedValue(negative, r, point);
      SameProduct(Signed(negative), Number(r) as real, PowerOfTen(point - |r|), Number(ds) as real, PowerOfTen(point - |ds|));
    }
  }

  lemma NothingCounts(negative: bool, point: int)
    ensures RealOf(Zero) == Signed(negative) * (Number([]) as real) * PowerOfTen(point - 0)
  {
    hide PowerOfTen;
  }

  lemma StrippedValue(negative: bool, r: seq<Digit>, point: int)
    ensures RealOf(Dec(negative, r, point)) == Signed(negative) * (Number(r) as real) * PowerOfTen(point - |r|)
  {
    hide PowerOfTen, Number;
  }

  lemma SameProduct(sign: real, a: real, p: real, b: real, q: real)
    requires a * p == b * q
    ensures sign * a * p == sign * b * q
  {
    assert sign * a * p == sign * (a * p) && sign * b * q == sign * (b * q);
  }
}
