/** The canonical-entry gate of the key transparency log. */
module TransparencyLog {
  import opened Wrappers
  import opened Unicode
  import opened Scanning
  import opened Decimal
  import opened JsonNumbers
  import opened Json
  import opened Validators

  const MAX_ENTRY_BYTES := 2048
  const UINT64_LIMIT: nat := 0x1_0000_0000_0000_0000
  const ROOT_TAG: Text := Lit("VOLNA-CHAT-KEY-TRANSPARENCY-ROOT")

  const F_TAG: Text := Lit("tag")
  const F_VERSION: Text := Lit("version")
  const F_GENERATION: Text := Lit("generation")
  const F_ROOT: Text := Lit("root")
  const F_PREVIOUS_GENERATION: Text := Lit("previousGeneration")
  const F_PREVIOUS_ROOT: Text := Lit("previousRoot")
  const F_UPDATE_COUNT: Text := Lit("updateCount")
  const F_CREATED_AT: Text := Lit("createdAt")

  // ---------- what an entry means ----------

  datatype Timestamp = Timestamp(year: nat, month: nat, day: nat, hour: nat, minute: nat, second: nat, milli: nat)

  datatype Predecessor = Predecessor(generation: nat, root: Text)

  datatype Entry = Entry(generation: nat, root: Text, previous: Option<Predecessor>, updateCount: nat, createdAt: Timestamp)

  predicate IsLeap(year: nat) { year % 4 == 0 && (year % 100 != 0 || year % 400 == 0) }

  function DaysIn(year: nat, month: nat): nat {
    if month == 2 then (if IsLeap(year) then 29 else 28)
    else if month == 4 || month == 6 || month == 9 || month == 11 then 30
    else 31
  }

  predicate ValidTime(t: Timestamp) {
    t.year < 10000 && 1 <= t.month <= 12 && 1 <= t.day <= DaysIn(t.year, t.month)
    && t.hour < 24 && t.minute < 60 && t.second < 60 && t.milli < 1000
  }

  predicate ValidEntry(e: Entry) {
    && 0 < e.generation < UINT64_LIMIT && IsHash(e.root)
    && (e.previous.Some? ==> 0 < e.previous.value.generation < e.generation && IsHash(e.previous.value.root))
    && 1 <= e.updateCount <= 100000 && ValidTime(e.createdAt)
  }

  // ---------- numbers and times as text ----------

  function FormatUint(n: nat): Text { Show(Digits(n)) }

  function DigitsOf(s: Text): seq<Digit> { ScanDigits(s).digits }

  /** strconv.ParseUint(s, 10, 64) */
  function ParseUint(s: Text): Option<nat> {
    var scan := ScanDigits(s);
    if scan.digits == [] || scan.rest != [] || Number(scan.digits) >= UINT64_LIMIT then None
    else Some(Number(scan.digits))
  }

  function Pad2(n: nat): seq<Digit>
    requires n < 100
  {
    [n / 10, n % 10]
  }

  function Pad3(n: nat): seq<Digit>
    requires n < 1000
  {
    [n / 100, n / 10 % 10, n % 10]
  }

  function Pad4(n: nat): seq<Digit>
    requires n < 10000
  {
    [n / 1000, n / 100 % 10, n / 10 % 10, n % 10]
  }

  /** Format("2006-01-02T15:04:05.000Z") */
  function FormatTime(t: Timestamp): (s: Text)
    requires ValidTime(t)
    ensures |s| == 24
  {
    Show(Pad4(t.year)) + [MINUS] + Show(Pad2(t.month)) + [MINUS] + Show(Pad2(t.day)) + [0x54]
    + Show(Pad2(t.hour)) + [COLON] + Show(Pad2(t.minute)) + [COLON] + Show(Pad2(t.second))
    + [DOT] + Show(Pad3(t.milli)) + [0x5A]
  }

  /** `k` digits at the front of `s`. */
  function ReadFixed(s: Text, k: nat): (r: Read<nat>)
    ensures r.Got? ==> |r.rest| + k == |s|
  {
    if |s| < k || !DigitsAt(s, 0, k) then Bad
    else Got(Number(DigitsOf(s[..k])), s[k..])
  }

  /** Go reads the hour from one digit when no second one follows. */
  function ReadHour(s: Text): (r: Read<nat>)
    ensures r.Got? ==> |r.rest| < |s|
  {
    if |s| >= 2 && IsDigit(s[0]) && IsDigit(s[1]) then ReadFixed(s, 2) else ReadFixed(s, 1)
  }

  /** A dot or a comma, and three characters that strconv's atoi reads as a non-negative number. */
  function ReadMillis(s: Text): Read<nat> {
    if |s| < 4 || (s[0] != DOT && s[0] != COMMA) then Bad
    else if s[1] == PLUS || s[1] == MINUS then
      match ReadFixed(s[2..], 2)
      case Bad => Bad
      case Got(n, rest) => if s[1] == MINUS && n != 0 then Bad else Got(n, rest)
    else ReadFixed(s[1..], 3)
  }

  /** time.Parse("2006-01-02T15:04:05.000Z", s) */
  function ParseTime(s: Text): Option<Timestamp> {
    var year :- Field1(ReadFixed(s, 4), MINUS);
    var month :- Field1(ReadFixed(year.1, 2), MINUS);
    var day :- Field1(ReadFixed(month.1, 2), 0x54);
    var hour :- Field1(ReadHour(day.1), COLON);
    var minute :- Field1(ReadFixed(hour.1, 2), COLON);
    match ReadFixed(minute.1, 2)
    case Bad => None
    case Got(second, tail) =>
      var milli :- Field1(ReadMillis(tail), 0x5A);
      var t := Timestamp(year.0, month.0, day.0, hour.0, minute.0, second, milli.0);
      if milli.1 == [] && ValidTime(t) then Some(t) else None
  }

  /** A number that is followed by a mark. */
  function Field1(r: Read<nat>, mark: CodeUnit): Option<(nat, Text)> {
    match r
    case Bad => None
    case Got(n, rest) => if StartsWith(rest, mark) then Some((n, rest[1..])) else None
  }

  // ---------- the struct ----------

  datatype RawEntry = RawEntry(tag: Text, version: int, generation: Text, root: Text, previousGeneration: Option<Text>,
                               previousRoot: Option<Text>, updateCount: int, createdAt: Text)

  const ZERO_ENTRY := RawEntry([], 0, [], [], None, None, 0, [])

  function FloatOfNat(n: nat): Float { FromDecimal(false, Digits(n), |Digits(n)|) }

  function IntOf(x: Float): Option<int> {
    match x
    case Zero => Some(0)
    case Dec(negative, ds, point) =>
      if point < |ds| then None
      else
        var magnitude: int := Number(ds + Zeros(point - |ds|));
        Some(if negative then -magnitude else magnitude)
  }

  function Lower(s: Text): (t: Text)
    ensures |t| == |s|
  {
    seq(|s|, i requires 0 <= i < |s| => if 0x41 <= s[i] <= 0x5A then s[i] + 0x20 else s[i])
  }

  /** encoding/json matches member names without regard to case. */
  predicate Names(key: Text, field: Text) { Lower(key) == Lower(field) }

  /** null leaves a string alone. */
  function AsString(v: Value, current: Text): Option<Text> {
    if v.Null? then Some(current) else if v.Str? then Some(v.s) else None
  }

  function AsInt(v: Value, current: int): Option<int> {
    if v.Null? then Some(current) else if v.Num? then IntOf(v.x) else None
  }

  /** null clears a pointer. */
  function AsPointer(v: Value): Option<Option<Text>> {
    if v.Null? then Some(None) else if v.Str? then Some(Some(v.s)) else None
  }

  /** One member of the object, or None for an unknown name or a value of the wrong type. */
  function Assign(r: RawEntry, f: Field): Option<RawEntry> {
    if Names(f.key, F_TAG) then var t :- AsString(f.value, r.tag); Some(r.(tag := t))
    else if Names(f.key, F_VERSION) then var n :- AsInt(f.value, r.version); Some(r.(version := n))
    else if Names(f.key, F_GENERATION) then var t :- AsString(f.value, r.generation); Some(r.(generation := t))
    else if Names(f.key, F_ROOT) then var t :- AsString(f.value, r.root); Some(r.(root := t))
    else if Names(f.key, F_PREVIOUS_GENERATION) then var p :- AsPointer(f.value); Some(r.(previousGeneration := p))
    else if Names(f.key, F_PREVIOUS_ROOT) then var p :- AsPointer(f.value); Some(r.(previousRoot := p))
    else if Names(f.key, F_UPDATE_COUNT) then var n :- AsInt(f.value, r.updateCount); Some(r.(updateCount := n))
    else if Names(f.key, F_CREATED_AT) then var t :- AsString(f.value, r.createdAt); Some(r.(createdAt := t))
    else None
  }

  function AssignAll(r: RawEntry, fields: seq<Field>): Option<RawEntry>
    decreases fields
  {
    if fields == [] then Some(r)
    else
      var next :- Assign(r, fields[0]);
      AssignAll(next, fields[1..])
  }

  function DecodeEntry(v: Value): Option<RawEntry> {
    if v.Null? then Some(ZERO_ENTRY) else if v.Obj? then AssignAll(ZERO_ENTRY, v.fields) else None
  }

  function PointerValue(p: Option<Text>): Value {
    match p
    case None => Null
    case Some(t) => Str(t)
  }

  /** The members in the order of the struct. */
  function RawFields(r: RawEntry): seq<Field> {
    [Field(F_TAG, Str(r.tag)), Field(F_VERSION, Num(FloatOfInt(r.version))), Field(F_GENERATION, Str(r.generation)),
     Field(F_ROOT, Str(r.root)), Field(F_PREVIOUS_GENERATION, PointerValue(r.previousGeneration)),
     Field(F_PREVIOUS_ROOT, PointerValue(r.previousRoot)), Field(F_UPDATE_COUNT, Num(FloatOfInt(r.updateCount))),
     Field(F_CREATED_AT, Str(r.createdAt))]
  }

  function FloatOfInt(n: int): Float {
    if n >= 0 then FloatOfNat(n)
    else match FloatOfNat(-n)
      case Zero => Zero
      case Dec(_, ds, point) => Dec(true, ds, point)
  }

  function Marshal(r: RawEntry): Text { Print(Obj(RawFields(r))) }

  // ---------- the gate ----------

  /** regexp ^[0-9a-f]{64}$ and the counters of the struct. */
  predicate GenerationOk(s: Text) {
    ParseUint(s).Some? && ParseUint(s).value != 0 && FormatUint(ParseUint(s).value) == s
  }

  predicate EntryOk(r: RawEntry) {
    && r.tag == ROOT_TAG && r.version == 1 && IsHash(r.root)
    && GenerationOk(r.generation)
    && r.previousGeneration.None? == r.previousRoot.None?
    && (r.previousGeneration.Some? ==>
          GenerationOk(r.previousGeneration.value)
          && ParseUint(r.previousGeneration.value).value < ParseUint(r.generation).value)
    && (r.previousRoot.Some? ==> IsHash(r.previousRoot.value))
    && 1 <= r.updateCount <= 100000
    && ParseTime(r.createdAt).Some? && FormatTime(ParseTime(r.createdAt).value) == r.createdAt
  }

  /** canonicalEntry, on the bytes of a request body. */
  function CanonicalEntry(raw: seq<Byte>): Option<seq<Byte>> {
    if |raw| == 0 || |raw| > MAX_ENTRY_BYTES || 0x0D in raw || 0x0A in raw || 0x09 in raw then None
    else
      match ReadValue(raw)
      case Bad => None
      case Got(v, rest) =>
        var entry :- DecodeEntry(v);
        if SkipSpace(rest) != [] then None
        else if !EntryOk(entry) then None
        else if Marshal(entry) != raw then None
        else Some(raw)
  }

  // ---------- the reference printing ----------

  function RawOf(e: Entry): RawEntry
    requires ValidTime(e.createdAt)
  {
    RawEntry(ROOT_TAG, 1, FormatUint(e.generation), e.root,
             if e.previous.None? then None else Some(FormatUint(e.previous.value.generation)),
             if e.previous.None? then None else Some(e.previous.value.root),
             e.updateCount, FormatTime(e.createdAt))
  }

  /** The one JSON text of a valid entry. */
  function PrintEntry(e: Entry): Text
    requires ValidEntry(e)
  {
    Marshal(RawOf(e))
  }
}
