/** The small checks that the normalisers of the messaging contract share. */
module Validators {
  import opened Wrappers
  import opened Unicode
  import opened Json
  import opened JsonNumbers
  import Decimal

  /** The first property with this key, as `object.key` reads it. */
  function Get(fields: seq<Field>, key: Text): Value {
    if fields == [] then Undefined
    else if fields[0].key == key then fields[0].value
    else Get(fields[1..], key)
  }

  /** A property that is read comes from the object, so it is a JavaScript value as well. */
  lemma {:induction false} GetIsValue(fields: seq<Field>, key: Text)
    requires forall i :: 0 <= i < |fields| ==> IsValue(fields[i].value)
    ensures IsValue(Get(fields, key))
  {
    if fields != [] {
      GetIsValue(fields[1..], key);
    }
  }

  /** assertExactKeys: every own key is allowed. */
  predicate OnlyKeys(fields: seq<Field>, allowed: set<Text>) {
    forall i :: 0 <= i < |fields| ==> fields[i].key in allowed
  }

  function AsObject(v: Value, code: string): Outcome<seq<Field>> {
    if v.Obj? then Ok(v.fields) else Fail(code)
  }

  predicate IsAlnum(u: CodeUnit) {
    0x30 <= u <= 0x39 || 0x41 <= u <= 0x5A || 0x61 <= u <= 0x7A
  }

  predicate IsIdUnit(u: CodeUnit) { IsAlnum(u) || u == 0x5F || u == 0x2D }

  /** Eight to eighty letters, digits, underscores and hyphens. */
  predicate IsId(s: Text) {
    8 <= |s| <= 80 && forall i :: 0 <= i < |s| ==> IsIdUnit(s[i])
  }

  function AsId(v: Value, code: string): Outcome<Text> {
    if v.Str? && IsId(v.s) then Ok(v.s) else Fail(code)
  }

  /** assertRequiredString */
  function AsText(v: Value, maxLength: nat, code: string): Outcome<Text> {
    if v.Str? && 0 < |v.s| <= maxLength then Ok(v.s) else Fail(code)
  }

  /** Sixty-four lower-case hexadecimal digits. */
  predicate IsHash(s: Text) {
    |s| == 64 && forall i :: 0 <= i < 64 ==> 0x30 <= s[i] <= 0x39 || 0x61 <= s[i] <= 0x66
  }

  predicate DigitsAt(s: Text, from: nat, to: nat) {
    from <= to <= |s| && forall i :: from <= i < to ==> IsDigit(s[i])
  }

  /** YYYY-MM-DDTHH:MM:SS, an optional fraction of three digits, and Z. */
  predicate IsIsoDate(s: Text) {
    (|s| == 20 || (|s| == 24 && s[19] == DOT && DigitsAt(s, 20, 23)))
    && DigitsAt(s, 0, 4) && s[4] == MINUS && DigitsAt(s, 5, 7) && s[7] == MINUS && DigitsAt(s, 8, 10)
    && s[10] == 0x54 && DigitsAt(s, 11, 13) && s[13] == COLON && DigitsAt(s, 14, 16) && s[16] == COLON
    && DigitsAt(s, 17, 19) && s[|s| - 1] == 0x5A
  }

  /** White space and line terminators of ECMAScript, what `trim` removes. */
  predicate IsTrimmed(u: CodeUnit) {
    0x09 <= u <= 0x0D || u == 0x20 || u == 0xA0 || u == 0x1680 || 0x2000 <= u <= 0x200A
    || u == 0x2028 || u == 0x2029 || u == 0x202F || u == 0x205F || u == 0x3000 || u == 0xFEFF
  }

  predicate IsBlank(s: Text) { forall i :: 0 <= i < |s| ==> IsTrimmed(s[i]) }

  function TrimStart(s: Text): (t: Text)
    ensures |t| <= |s|
  {
    if s != [] && IsTrimmed(s[0]) then TrimStart(s[1..]) else s
  }

  function TrimEnd(s: Text): (t: Text)
    ensures |t| <= |s|
  {
    if s != [] && IsTrimmed(s[|s| - 1]) then TrimEnd(s[..|s| - 1]) else s
  }

  function Trim(s: Text): Text { TrimEnd(TrimStart(s)) }

  // ---------- numbers ----------

  function PowerOfTen(e: int): real
    decreases if e < 0 then -e else e
  {
    if e == 0 then 1.0 else if e > 0 then 10.0 * PowerOfTen(e - 1) else PowerOfTen(e + 1) / 10.0
  }

  function RealOf(x: Float): real {
    match x
    case Zero => 0.0
    case Dec(negative, digits, point) =>
      (if negative then -1.0 else 1.0) * (Decimal.Number(digits) as real) * PowerOfTen(point - |digits|)
  }

  /** A finite number between two bounds. */
  predicate InRange(v: Value, low: real, high: real) {
    v.Num? && low <= RealOf(v.x) <= high
  }

}
