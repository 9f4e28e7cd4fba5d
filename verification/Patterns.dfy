/** Regular expressions, and the checks of the messaging client as the expressions that its source writes down. */
module Patterns {
  import opened Unicode

  // ---------- what an expression matches ----------

  /** The units from `first` to `last`. */
  datatype Range = Range(first: CodeUnit, last: CodeUnit)

  /** `[...]`, `[^...]`, one expression after another, one or the other, and `{least,most}`. */
  datatype Pattern =
    | Unit(ranges: seq<Range>)
    | NotUnit(ranges: seq<Range>)
    | Empty
    | Then(first: Pattern, second: Pattern)
    | Either(first: Pattern, second: Pattern)
    | Times(body: Pattern, least: nat, most: nat)

  predicate InRanges(u: CodeUnit, ranges: seq<Range>) {
    exists i :: 0 <= i < |ranges| && ranges[i].first <= u <= ranges[i].last
  }

  predicate Admits(p: Pattern, u: CodeUnit)
    requires p.Unit? || p.NotUnit?
  {
    InRanges(u, p.ranges) == p.Unit?
  }

  /** The whole of `s` matches. */
  predicate Matches(p: Pattern, s: Text)
    decreases p, 0, 0
  {
    match p
    case Unit(_) => |s| == 1 && Admits(p, s[0])
    case NotUnit(_) => |s| == 1 && Admits(p, s[0])
    case Empty => s == []
    case Then(a, b) => exists k :: 0 <= k <= |s| && Matches(a, s[..k]) && Matches(b, s[k..])
    case Either(a, b) => Matches(a, s) || Matches(b, s)
    case Times(a, least, most) => Repeats(a, least, most, s)
  }

  predicate Repeats(p: Pattern, least: nat, most: nat, s: Text)
    decreases p, 1, most
  {
    || (least == 0 && s == [])
    || (most > 0 && exists k :: 0 <= k <= |s| && Matches(p, s[..k]) && Repeats(p, if least == 0 then 0 else least - 1, most - 1, s[k..]))
  }

  // ---------- notation ----------

  function Class(first: char, last: char): Range
    requires first < 128 as char && last < 128 as char
  {
    Range(first as int, last as int)
  }

  function Mark(c: char): Pattern
    requires c < 128 as char
  {
    Unit([Class(c, c)])
  }

  function All(ps: seq<Pattern>): Pattern {
    if ps == [] then Empty else if |ps| == 1 then ps[0] else Then(ps[0], All(ps[1..]))
  }

  // ---------- matching by position ----------

  predicate AllAdmitted(p: Pattern, s: Text, from: nat, to: nat)
    requires p.Unit? || p.NotUnit?
  {
    from <= to <= |s| && forall i :: from <= i < to ==> Admits(p, s[i])
  }

  lemma {:induction false} RepeatUnits(p: Pattern, least: nat, most: nat, s: Text)
    requires p.Unit? || p.NotUnit?
    ensures Repeats(p, least, most, s) <==> least <= |s| <= most && AllAdmitted(p, s, 0, |s|)
    decreases most
  {
    hide Admits;
    if most > 0 && s != [] {
      var fewer := if least == 0 then 0 else least - 1;
      RepeatUnits(p, fewer, most - 1, s[1..]);
      assert s[..1] == [s[0]];
      forall k | 0 <= k <= |s| && Matches(p, s[..k])
        ensures k == 1
      {
      }
      if AllAdmitted(p, s, 0, |s|) {
        assert Matches(p, s[..1]);
        assert AllAdmitted(p, s[1..], 0, |s| - 1);
      }
      if Matches(p, s[..1]) && AllAdmitted(p, s[1..], 0, |s| - 1) {
        forall i | 0 <= i < |s|
          ensures Admits(p, s[i])
        {
          if i > 0 {
            assert s[1..][i - 1] == s[i];
          }
        }
      }
    }
  }

  lemma TimesUnits(p: Pattern, least: nat, most: nat, s: Text)
    requires p.Unit? || p.NotUnit?
    ensures Matches(Times(p, least, most), s) <==> least <= |s| <= most && AllAdmitted(p, s, 0, |s|)
  {
    RepeatUnits(p, least, most, s);
  }

  /** A fixed number of units in front. */
  lemma ThenUnits(p: Pattern, n: nat, rest: Pattern, s: Text)
    requires p.Unit? || p.NotUnit?
    ensures Matches(Then(Times(p, n, n), rest), s) <==> |s| >= n && AllAdmitted(p, s, 0, n) && Matches(rest, s[n..])
  {
    hide Repeats, Admits;
    forall k | 0 <= k <= |s|
      ensures Matches(Times(p, n, n), s[..k]) <==> k == n && AllAdmitted(p, s, 0, n)
    {
      TimesUnits(p, n, n, s[..k]);
      assert AllAdmitted(p, s[..k], 0, k) <==> AllAdmitted(p, s, 0, k);
    }
  }

  lemma ThenUnit(p: Pattern, rest: Pattern, s: Text)
    requires p.Unit? || p.NotUnit?
    ensures Matches(Then(p, rest), s) <==> s != [] && Admits(p, s[0]) && Matches(rest, s[1..])
  {
    hide Admits;
    forall k | 0 <= k <= |s|
      ensures Matches(p, s[..k]) <==> k == 1 && Admits(p, s[0])
    {
    }
  }

  lemma MarkAdmits(c: char, u: CodeUnit)
    requires c < 128 as char
    ensures Mark(c).Unit? && (Admits(Mark(c), u) <==> u == c as int)
  {
    var r := Mark(c).ranges;
    assert r[0] == Range(c as int, c as int);
  }
}
