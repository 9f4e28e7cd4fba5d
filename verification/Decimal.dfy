/** Decimal notation of natural numbers: FormatUint, and the exponents of JSON numbers. */
module Decimal {

  type Digit = d: int | 0 <= d < 10

  /** The digits of `n`, most significant first and without leading zeros. */
  function Digits(n: nat): (r: seq<Digit>)
    ensures r != []
  {
    if n < 10 then [n] else Digits(n / 10) + [n % 10]
  }

  /** The number that a digit sequence denotes, leading zeros allowed. */
  function Number(ds: seq<Digit>): nat {
    if ds == [] then 0 else Number(ds[..|ds| - 1]) * 10 + ds[|ds| - 1]
  }

  predicate NoLeadingZero(ds: seq<Digit>) {
    ds != [] && (|ds| == 1 || ds[0] != 0)
  }

  function Pow10(k: nat): nat {
    if k == 0 then 1 else 10 * Pow10(k - 1)
  }

  lemma {:induction false} NumberOfDigits(n: nat)
    ensures Number(Digits(n)) == n
    ensures NoLeadingZero(Digits(n))
    ensures n > 0 ==> Digits(n)[0] != 0
  {
    if n >= 10 {
      NumberOfDigits(n / 10);
      assert Digits(n)[..|Digits(n)| - 1] == Digits(n / 10);
    } else {
      assert Digits(n)[..0] == [];
    }
  }

  lemma {:induction false} NumberPositive(ds: seq<Digit>)
    requires ds != [] && ds[0] != 0
    ensures Number(ds) > 0
  {
    if |ds| == 1 {
      assert ds[..0] == [];
    } else {
      NumberPositive(ds[..|ds| - 1]);
    }
  }

  /** A digit sequence without leading zeros is the one that its number prints. */
  lemma {:induction false} DigitsOfNumber(ds: seq<Digit>)
    requires NoLeadingZero(ds)
    ensures Digits(Number(ds)) == ds
  {
    if |ds| == 1 {
      assert ds[..0] == [];
    } else {
      var init := ds[..|ds| - 1];
      DigitsOfNumber(init);
      NumberPositive(init);
      assert ds == init + [ds[|ds| - 1]];
    }
  }

  lemma {:induction false} DigitsBound(n: nat, k: nat)
    requires k > 0 && n < Pow10(k)
    ensures |Digits(n)| <= k
  {
    if n >= 10 {
      DigitsBound(n / 10, k - 1);
    }
  }

  lemma {:induction false} NumberBound(ds: seq<Digit>)
    ensures Number(ds) < Pow10(|ds|)
  {
    if ds != [] {
      NumberBound(ds[..|ds| - 1]);
    }
  }
}
