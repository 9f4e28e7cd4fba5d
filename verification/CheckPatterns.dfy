/** The hand-written checks of the models are the regular expressions of the source. */
module CheckPatterns {
  import opened Unicode
  import opened JsonNumbers
  import opened Json
  import opened Validators
  import opened Patterns
  import CanonicalForms
  import ContentEvent
  import OutboxStore

  /** [A-Za-z0-9_-] */
  const ID_UNIT: Pattern := Unit([Class('A', 'Z'), Class('a', 'z'), Class('0', '9'), Class('_', '_'), Class('-', '-')])
  /** ^[A-Za-z0-9_-]{8,80}$ */
  const ID_PATTERN: Pattern := Times(ID_UNIT, 8, 80)

  /** ^[0-9a-f]{64}$ */
  const HASH_PATTERN: Pattern := Times(Unit([Class('0', '9'), Class('a', 'f')]), 64, 64)

  /** \d */
  const DIGIT: Pattern := Unit([Class('0', '9')])

  /** ^(?:0|[1-9][0-9]{0,19})$ */
  const EPOCH_PATTERN: Pattern := Either(Mark('0'), Then(Unit([Class('1', '9')]), Times(DIGIT, 0, 19)))

  /** (?:\.\d{3})?Z$ */
  const FRACTION: Pattern := Either(Mark('Z'), Then(Mark('.'), Then(Times(DIGIT, 3, 3), Mark('Z'))))
  /** T\d{2}:\d{2}:\d{2}, and the fraction */
  const CLOCK: Pattern :=
    Then(Mark('T'), Then(Times(DIGIT, 2, 2), Then(Mark(':'), Then(Times(DIGIT, 2, 2), Then(Mark(':'), Then(Times(DIGIT, 2, 2), FRACTION))))))
  /** ^\d{4}-\d{2}-\d{2}, and the clock */
  const ISO_DATE_PATTERN: Pattern :=
    Then(Times(DIGIT, 4, 4), Then(Mark('-'), Then(Times(DIGIT, 2, 2), Then(Mark('-'), Then(Times(DIGIT, 2, 2), CLOCK)))))

  /** What \s stands for: WhiteSpace and LineTerminator of ECMAScript. */
  const SPACES: seq<Range> :=
    [Range(0x09, 0x0D), Range(0x20, 0x20), Range(0xA0, 0xA0), Range(0x1680, 0x1680), Range(0x2000, 0x200A), Range(0x2028, 0x2029),
     Range(0x202F, 0x202F), Range(0x205F, 0x205F), Range(0x3000, 0x3000), Range(0xFEFF, 0xFEFF)]

  /** ^\$[^\s]{1,254}$ */
  const EVENT_ID_PATTERN: Pattern := Then(Mark('$'), Times(NotUnit(SPACES), 1, 254))

  /** ^![^\s:]{1,255}:[^\s]{1,255}$ */
  const ROOM_ID_PATTERN: Pattern :=
    Then(Mark('!'), Then(Times(NotUnit(SPACES + [Class(':', ':')]), 1, 255), Then(Mark(':'), Times(NotUnit(SPACES), 1, 255))))

  /** [\u0000-\u0008\u000b\u000c\u000e-\u001f\u007f] */
  const CONTROLS: seq<Range> := [Range(0x00, 0x08), Range(0x0B, 0x0C), Range(0x0E, 0x1F), Range(0x7F, 0x7F)]

  lemma InOne(u: CodeUnit, r: Range)
    ensures InRanges(u, [r]) <==> r.first <= u <= r.last
  {
    assert [r][0] == r;
  }

  lemma InMore(u: CodeUnit, r: Range, rest: seq<Range>)
    ensures InRanges(u, [r] + rest) <==> r.first <= u <= r.last || InRanges(u, rest)
  {
    var all := [r] + rest;
    assert all[0] == r;
    if InRanges(u, rest) {
      var i :| 0 <= i < |rest| && rest[i].first <= u <= rest[i].last;
      assert all[i + 1] == rest[i];
    }
  }

  lemma DigitAdmits(u: CodeUnit)
    ensures Admits(DIGIT, u) <==> IsDigit(u)
  {
    InOne(u, Class('0', '9'));
  }

  lemma IdUnitAdmits(u: CodeUnit)
    ensures Admits(ID_UNIT, u) <==> IsIdUnit(u)
  {
    var r := ID_UNIT.ranges;
    assert r[0] == Class('A', 'Z') && r[1] == Class('a', 'z') && r[2] == Class('0', '9') && r[3] == Class('_', '_') && r[4] == Class('-', '-');
  }

  lemma SpaceAdmits(u: CodeUnit)
    ensures InRanges(u, SPACES) <==> IsTrimmed(u)
  {
    var r := SPACES;
    assert r[0] == Range(0x09, 0x0D) && r[1] == Range(0x20, 0x20) && r[2] == Range(0xA0, 0xA0) && r[3] == Range(0x1680, 0x1680);
    assert r[4] == Range(0x2000, 0x200A) && r[5] == Range(0x2028, 0x2029) && r[6] == Range(0x202F, 0x202F);
    assert r[7] == Range(0x205F, 0x205F) && r[8] == Range(0x3000, 0x3000) && r[9] == Range(0xFEFF, 0xFEFF);
  }

  lemma IdIsPattern(s: Text)
    ensures IsId(s) <==> Matches(ID_PATTERN, s)
  {
    hide Admits, Repeats, IsIdUnit;
    TimesUnits(ID_UNIT, 8, 80, s);
    forall u
      ensures Admits(ID_UNIT, u) <==> IsIdUnit(u)
    {
      IdUnitAdmits(u);
    }
  }

  lemma HashIsPattern(s: Text)
    ensures IsHash(s) <==> Matches(HASH_PATTERN, s)
  {
    hide Admits, Repeats;
    TimesUnits(HASH_PATTERN.body, 64, 64, s);
    forall u
      ensures Admits(HASH_PATTERN.body, u) <==> (0x30 <= u <= 0x39 || 0x61 <= u <= 0x66)
    {
      HashAdmits(u);
    }
  }

  lemma HashAdmits(u: CodeUnit)
    ensures Admits(HASH_PATTERN.body, u) <==> (0x30 <= u <= 0x39 || 0x61 <= u <= 0x66)
  {
    var r := HASH_PATTERN.body.ranges;
    assert r[0] == Class('0', '9') && r[1] == Class('a', 'f');
  }

  lemma DigitsAdmitted(s: Text, from: nat, to: nat)
    ensures AllAdmitted(DIGIT, s, from, to) <==> DigitsAt(s, from, to)
  {
    hide Admits, IsDigit;
    forall u
      ensures Admits(DIGIT, u) <==> IsDigit(u)
    {
      DigitAdmits(u);
    }
  }

  lemma EpochIsPattern(s: Text)
    ensures CanonicalForms.IsEpoch(s) <==> Matches(EPOCH_PATTERN, s)
  {
    hide Admits, Repeats, IsDigit;
    if s != [] {
      var first := Unit([Class('1', '9')]);
      InOne(s[0], Class('1', '9'));
      assert Admits(first, s[0]) <==> 0x31 <= s[0] <= 0x39 by { FirstAdmits(s[0]); }
      MarkAdmits('0', s[0]);
      ThenUnit(first, Times(DIGIT, 0, 19), s);
      TimesUnits(DIGIT, 0, 19, s[1..]);
      DigitsAdmitted(s[1..], 0, |s| - 1);
      DigitsBehind(s);
    }
  }

  lemma FirstAdmits(u: CodeUnit)
    ensures Admits(Unit([Class('1', '9')]), u) <==> 0x31 <= u <= 0x39
  {
    InOne(u, Class('1', '9'));
  }

  lemma DigitsBehind(s: Text)
    requires s != []
    ensures DigitsAt(s, 0, |s|) <==> IsDigit(s[0]) && DigitsAt(s[1..], 0, |s| - 1)
    ensures IsDigit(s[0]) <==> 0x30 <= s[0] <= 0x39
  {
    hide IsDigit;
    assert IsDigit(s[0]) <==> 0x30 <= s[0] <= 0x39 by { DigitRange(s[0]); }
    if IsDigit(s[0]) && DigitsAt(s[1..], 0, |s| - 1) {
      forall i | 0 <= i < |s|
        ensures IsDigit(s[i])
      {
        if i > 0 {
          assert s[1..][i - 1] == s[i];
        }
      }
    }
  }

  lemma DigitRange(u: CodeUnit)
    ensures IsDigit(u) <==> 0x30 <= u <= 0x39
  {
  }

  // ---------- dates ----------

  lemma DigitsShift(s: Text, k: nat, from: nat, to: nat)
    requires k <= |s|
    ensures DigitsAt(s[k..], from, to) <==> DigitsAt(s, k + from, k + to)
  {
    hide IsDigit;
    if DigitsAt(s, k + from, k + to) {
      forall i | from <= i < to
        ensures IsDigit(s[k..][i])
      {
        assert s[k..][i] == s[k + i];
      }
    }
    if DigitsAt(s[k..], from, to) {
      forall i | k + from <= i < k + to
        ensures IsDigit(s[i])
      {
        assert s[k..][i - k] == s[i];
      }
    }
  }

  /** From position `k` on: `n` digits, and the rest. */
  lemma DigitsThen(s: Text, k: nat, n: nat, rest: Pattern)
    requires k <= |s|
    ensures Matches(Then(Times(DIGIT, n, n), rest), s[k..]) <==> DigitsAt(s, k, k + n) && Matches(rest, s[k + n..])
  {
    hide Admits, Repeats, IsDigit, Matches;
    ThenUnits(DIGIT, n, rest, s[k..]);
    if k + n <= |s| {
      DigitsAdmitted(s[k..], 0, n);
      DigitsShift(s, k, 0, n);
      assert s[k..][n..] == s[k + n..];
    }
  }

  /** From position `k` on: a mark, and the rest. */
  lemma MarkThen(s: Text, k: nat, c: char, rest: Pattern)
    requires k <= |s| && c < 128 as char
    ensures Matches(Then(Mark(c), rest), s[k..]) <==> k < |s| && s[k] == c as int && Matches(rest, s[k + 1..])
  {
    hide Admits, Repeats, Matches;
    MarkAdmits(c, 0);
    ThenUnit(Mark(c), rest, s[k..]);
    if k < |s| {
      MarkAdmits(c, s[k]);
      assert s[k..][1..] == s[k + 1..];
    }
  }

  lemma MarkEnds(s: Text, k: nat, c: char)
    requires k <= |s| && c < 128 as char
    ensures Matches(Mark(c), s[k..]) <==> |s| == k + 1 && s[k] == c as int
  {
    hide Admits;
    MarkAdmits(c, 0);
    if k < |s| {
      MarkAdmits(c, s[k]);
    }
  }

  lemma FractionFrom(s: Text, k: nat)
    requires k <= |s|
    ensures Matches(FRACTION, s[k..]) <==>
      || (|s| == k + 1 && s[k] == 'Z' as int)
      || (|s| == k + 5 && s[k] == '.' as int && DigitsAt(s, k + 1, k + 4) && s[k + 4] == 'Z' as int)
  {
    hide Admits, Repeats, IsDigit;
    MarkEnds(s, k, 'Z');
    MarkThen(s, k, '.', Then(Times(DIGIT, 3, 3), Mark('Z')));
    if k < |s| {
      DigitsThen(s, k + 1, 3, Mark('Z'));
      if k + 4 <= |s| {
        MarkEnds(s, k + 4, 'Z');
      }
    }
  }

  lemma ClockFrom(s: Text, k: nat)
    requires k <= |s|
    ensures Matches(CLOCK, s[k..]) <==>
      && k + 9 <= |s| && s[k] == 'T' as int && DigitsAt(s, k + 1, k + 3) && s[k + 3] == ':' as int
      && DigitsAt(s, k + 4, k + 6) && s[k + 6] == ':' as int && DigitsAt(s, k + 7, k + 9) && Matches(FRACTION, s[k + 9..])
  {
    hide Matches, Repeats, IsDigit;
    var p3 := Then(Mark(':'), Then(Times(DIGIT, 2, 2), FRACTION));
    var p2 := Then(Mark(':'), Then(Times(DIGIT, 2, 2), p3));
    MarkThen(s, k, 'T', Then(Times(DIGIT, 2, 2), p2));
    if k < |s| {
      DigitsThen(s, k + 1, 2, p2);
      if k + 3 <= |s| {
        MarkThen(s, k + 3, ':', Then(Times(DIGIT, 2, 2), p3));
        if k + 4 <= |s| {
          DigitsThen(s, k + 4, 2, p3);
          if k + 6 <= |s| {
            MarkThen(s, k + 6, ':', Then(Times(DIGIT, 2, 2), FRACTION));
            if k + 7 <= |s| {
              DigitsThen(s, k + 7, 2, FRACTION);
            }
          }
        }
      }
    }
  }

  lemma DateFrom(s: Text)
    ensures Matches(ISO_DATE_PATTERN, s) <==>
      && 10 <= |s| && DigitsAt(s, 0, 4) && s[4] == '-' as int && DigitsAt(s, 5, 7) && s[7] == '-' as int
      && DigitsAt(s, 8, 10) && Matches(CLOCK, s[10..])
  {
    hide Matches, Repeats, IsDigit;
    assert s[0..] == s;
    var p2 := Then(Mark('-'), Then(Times(DIGIT, 2, 2), CLOCK));
    var p1 := Then(Mark('-'), Then(Times(DIGIT, 2, 2), p2));
    DigitsThen(s, 0, 4, p1);
    if 4 <= |s| {
      MarkThen(s, 4, '-', Then(Times(DIGIT, 2, 2), p2));
      if 5 <= |s| {
        DigitsThen(s, 5, 2, p2);
        if 7 <= |s| {
          MarkThen(s, 7, '-', Then(Times(DIGIT, 2, 2), CLOCK));
          if 8 <= |s| {
            DigitsThen(s, 8, 2, CLOCK);
          }
        }
      }
    }
  }

  lemma DateIsPattern(s: Text)
    ensures IsIsoDate(s) <==> Matches(ISO_DATE_PATTERN, s)
  {
    hide Matches, IsDigit;
    DateFrom(s);
    if 10 <= |s| {
      ClockFrom(s, 10);
      if 19 <= |s| {
        FractionFrom(s, 19);
      }
    }
  }

  // ---------- Matrix identifiers ----------

  lemma NoSpaceAdmitted(s: Text, from: nat, to: nat)
    ensures AllAdmitted(NotUnit(SPACES), s, from, to) <==> OutboxStore.NoSpace(s, from, to)
  {
    hide InRanges, IsTrimmed;
    forall u
      ensures InRanges(u, SPACES) <==> IsTrimmed(u)
    {
      SpaceAdmits(u);
    }
  }

  lemma NoSpaceShift(s: Text, k: nat, to: nat)
    requires k <= |s|
    ensures OutboxStore.NoSpace(s[k..], 0, to) <==> OutboxStore.NoSpace(s, k, k + to)
  {
    hide IsTrimmed;
    if OutboxStore.NoSpace(s[k..], 0, to) {
      forall i | k <= i < k + to
        ensures !IsTrimmed(s[i])
      {
        assert s[k..][i - k] == s[i];
      }
    }
  }

  lemma EventIdIsPattern(s: Text)
    ensures OutboxStore.IsEventId(s) <==> Matches(EVENT_ID_PATTERN, s)
  {
    hide Admits, Repeats, IsTrimmed;
    assert s[0..] == s;
    MarkThen(s, 0, '$', Times(NotUnit(SPACES), 1, 254));
    if s != [] {
      TimesUnits(NotUnit(SPACES), 1, 254, s[1..]);
      NoSpaceAdmitted(s[1..], 0, |s| - 1);
      NoSpaceShift(s, 1, |s| - 1);
    }
  }

  lemma LocalAdmits(u: CodeUnit)
    ensures Admits(NotUnit(SPACES + [Class(':', ':')]), u) <==> !IsTrimmed(u) && u != ':' as int
  {
    SpaceAdmits(u);
    var all := SPACES + [Class(':', ':')];
    assert all[|SPACES|] == Class(':', ':');
    if InRanges(u, SPACES) {
      var i :| 0 <= i < |SPACES| && SPACES[i].first <= u <= SPACES[i].last;
      assert all[i] == SPACES[i];
    }
  }

  /** The part between the exclamation mark and a colon at `c`. */
  lemma LocalPart(s: Text, c: nat)
    requires 1 <= c <= |s|
    ensures Matches(Times(NotUnit(SPACES + [Class(':', ':')]), 1, 255), s[1..c]) <==>
      2 <= c <= 256 && OutboxStore.NoSpace(s, 1, c) && forall i :: 1 <= i < c ==> s[i] != ':' as int
  {
    hide Admits, Repeats, IsTrimmed, InRanges;
    var p := NotUnit(SPACES + [Class(':', ':')]);
    var part := s[1..c];
    TimesUnits(p, 1, 255, part);
    forall u
      ensures Admits(p, u) <==> !IsTrimmed(u) && u != ':' as int
    {
      LocalAdmits(u);
    }
    assert forall i :: 1 <= i < c ==> s[i] == part[i - 1];
    if AllAdmitted(p, part, 0, |part|) {
      forall i | 1 <= i < c
        ensures !IsTrimmed(s[i]) && s[i] != ':' as int
      {
        assert Admits(p, part[i - 1]);
      }
    }
  }

  lemma RoomIdIsPattern(s: Text)
    ensures OutboxStore.IsRoomId(s) <==> Matches(ROOM_ID_PATTERN, s)
  {
    hide Matches, Repeats, IsTrimmed, InRanges, OutboxStore.Colon;
    var server := Then(Mark(':'), Times(NotUnit(SPACES), 1, 255));
    var local := Times(NotUnit(SPACES + [Class(':', ':')]), 1, 255);
    assert s[0..] == s;
    MarkThen(s, 0, '!', Then(local, server));
    if s != [] && s[0] == '!' as int {
      RoomTail(s);
    }
  }

  lemma ServerFrom(s: Text, c: nat)
    requires c <= |s|
    ensures Matches(Then(Mark(':'), Times(NotUnit(SPACES), 1, 255)), s[c..]) <==>
      c < |s| && s[c] == ':' as int && 1 <= |s| - c - 1 <= 255 && OutboxStore.NoSpace(s, c + 1, |s|)
  {
    hide Repeats, IsTrimmed, InRanges, Matches;
    MarkThen(s, c, ':', Times(NotUnit(SPACES), 1, 255));
    if c < |s| {
      TimesUnits(NotUnit(SPACES), 1, 255, s[c + 1..]);
      NoSpaceAdmitted(s[c + 1..], 0, |s| - c - 1);
      NoSpaceShift(s, c + 1, |s| - c - 1);
    }
  }

  lemma RoomTail(s: Text)
    requires s != [] && s[0] == '!' as int
    ensures OutboxStore.IsRoomId(s) <==>
      Matches(Then(Times(NotUnit(SPACES + [Class(':', ':')]), 1, 255), Then(Mark(':'), Times(NotUnit(SPACES), 1, 255))), s[1..])
  {
    hide Repeats, IsTrimmed, InRanges, OutboxStore.Colon, Matches;
    var server := Then(Mark(':'), Times(NotUnit(SPACES), 1, 255));
    var local := Times(NotUnit(SPACES + [Class(':', ':')]), 1, 255);
    var c := OutboxStore.Colon(s);
    var rest := s[1..];
    if OutboxStore.IsRoomId(s) {
      LocalPart(s, c);
      ServerFrom(s, c);
      assert rest[..c - 1] == s[1..c] && rest[c - 1..] == s[c..];
      ThenAt(local, server, rest, c - 1);
    }
    if Matches(Then(local, server), rest) {
      var k := ThenSplit(local, server, rest);
      assert rest[..k] == s[1..k + 1] && rest[k..] == s[k + 1..];
      LocalPart(s, k + 1);
      ServerFrom(s, k + 1);
      assert c == k + 1;
    }
  }

  lemma ThenAt(a: Pattern, b: Pattern, s: Text, k: nat)
    requires k <= |s| && Matches(a, s[..k]) && Matches(b, s[k..])
    ensures Matches(Then(a, b), s)
  {
  }

  lemma ThenSplit(a: Pattern, b: Pattern, s: Text) returns (k: nat)
    requires Matches(Then(a, b), s)
    ensures k <= |s| && Matches(a, s[..k]) && Matches(b, s[k..])
  {
    k :| 0 <= k <= |s| && Matches(a, s[..k]) && Matches(b, s[k..]);
  }

  // ---------- text ----------

  lemma ControlIsPattern(u: CodeUnit)
    ensures ContentEvent.IsControl(u) <==> InRanges(u, CONTROLS)
  {
    var r := CONTROLS;
    assert r[0] == Range(0x00, 0x08) && r[1] == Range(0x0B, 0x0C) && r[2] == Range(0x0E, 0x1F) && r[3] == Range(0x7F, 0x7F);
  }
}
