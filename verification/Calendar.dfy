/** The Gregorian calendar by counting days, without a table of months. */
module Calendar {

  /** Days since 1 March of year 0. A year starts in March here, so that the leap day is its last one. */
  function DayNumber(year: int, month: int, day: int): int {
    var y := if month <= 2 then year - 1 else year;
    var m := if month <= 2 then month + 9 else month - 3;
    365 * y + y / 4 - y / 100 + y / 400 + (153 * m + 2) / 5 + day - 1
  }

  /** The first day of the next month. */
  function NextMonth(year: int, month: int): int {
    if month == 12 then DayNumber(year + 1, 1, 1) else DayNumber(year, month + 1, 1)
  }

  /** The day is there before the next month starts. */
  predicate RealDate(year: int, month: int, day: int) {
    1 <= month <= 12 && 1 <= day && DayNumber(year, month, day) < NextMonth(year, month)
  }

  // ---------- the length of months and years ----------

  lemma LeapDays(y: int)
    ensures y / 4 - (y - 1) / 4 == if y % 4 == 0 then 1 else 0
    ensures y / 100 - (y - 1) / 100 == if y % 100 == 0 then 1 else 0
    ensures y / 400 - (y - 1) / 400 == if y % 400 == 0 then 1 else 0
  {
  }

  /** The common years have 28 days in February, the others 29. */
  lemma MonthLength(year: int, month: int)
    requires 1 <= month <= 12
    ensures NextMonth(year, month) - DayNumber(year, month, 1) ==
      if month == 2 then (if year % 4 == 0 && (year % 100 != 0 || year % 400 == 0) then 29 else 28)
      else if month == 4 || month == 6 || month == 9 || month == 11 then 30
      else 31
  {
    if month == 2 {
      LeapDays(year);
      LeapRule(year);
    }
  }

  lemma LeapRule(year: int)
    ensures year % 400 == 0 ==> year % 100 == 0
    ensures year % 100 == 0 ==> year % 4 == 0
  {
    if year % 400 == 0 {
      var k := year / 400;
      assert year == 100 * (4 * k);
    }
    if year % 100 == 0 {
      var k := year / 100;
      assert year == 4 * (25 * k);
    }
  }

  /** Four hundred years are 146097 days. */
  lemma Cycle(year: int, month: int, day: int)
    ensures DayNumber(year + 400, month, day) == DayNumber(year, month, day) + 146097
  {
    var y := if month <= 2 then year - 1 else year;
    assert (y + 400) / 4 == y / 4 + 100 && (y + 400) / 100 == y / 100 + 4 && (y + 400) / 400 == y / 400 + 1;
  }

  /** The Unix epoch. */
  lemma Epoch()
    ensures DayNumber(0, 3, 1) == 0 && DayNumber(1970, 1, 1) == 719468
  {
  }

  // ---------- dates and day numbers ----------

  lemma DaysAdd(year: int, month: int, day: int)
    ensures DayNumber(year, month, day) == DayNumber(year, month, 1) + day - 1
  {
  }

  /** Later months start after the ones before have ended. */
  lemma {:induction false} MonthsInOrder(year: int, month: int, later: int)
    requires 1 <= month < later <= 12
    ensures NextMonth(year, month) <= DayNumber(year, later, 1)
    decreases later - month
  {
    hide DayNumber;
    if month + 1 < later {
      MonthLength(year, month + 1);
      MonthsInOrder(year, month + 1, later);
    }
  }

  lemma {:induction false} YearsInOrder(year: int, month: int, later: int)
    requires 1 <= month <= 12 && year < later
    ensures NextMonth(year, month) <= DayNumber(later, 1, 1)
    decreases later - year
  {
    hide DayNumber;
    if month < 12 {
      MonthsInOrder(year, month, 12);
      MonthLength(year, 12);
    }
    if year + 1 < later {
      MonthLength(year + 1, 1);
      YearsInOrder(year + 1, 1, later);
    }
  }

  predicate Earlier(y: int, m: int, d: int, y2: int, m2: int, d2: int) {
    y < y2 || (y == y2 && (m < m2 || (m == m2 && d < d2)))
  }

  /** Day numbers are in the order of the dates. */
  lemma DatesInOrder(y: int, m: int, d: int, y2: int, m2: int, d2: int)
    requires RealDate(y, m, d) && RealDate(y2, m2, d2)
    ensures DayNumber(y, m, d) < DayNumber(y2, m2, d2) <==> Earlier(y, m, d, y2, m2, d2)
  {
    hide DayNumber;
    if Earlier(y, m, d, y2, m2, d2) {
      LaterNumber(y, m, d, y2, m2, d2);
    } else if Earlier(y2, m2, d2, y, m, d) {
      LaterNumber(y2, m2, d2, y, m, d);
    }
  }

  lemma LaterNumber(y: int, m: int, d: int, y2: int, m2: int, d2: int)
    requires RealDate(y, m, d) && RealDate(y2, m2, d2) && Earlier(y, m, d, y2, m2, d2)
    ensures DayNumber(y, m, d) < DayNumber(y2, m2, d2)
  {
    hide DayNumber;
    DaysAdd(y, m, d);
    DaysAdd(y2, m2, d2);
    if y < y2 {
      YearsInOrder(y, m, y2);
      if m2 > 1 {
        MonthsInOrder(y2, 1, m2);
        MonthLength(y2, 1);
      }
    } else if m < m2 {
      MonthsInOrder(y, m, m2);
    }
  }

  lemma {:induction false} FindYear(n: int, from: int, end: int) returns (year: int)
    requires from < end && DayNumber(from, 1, 1) <= n < DayNumber(end, 1, 1)
    ensures from <= year < end && DayNumber(year, 1, 1) <= n < DayNumber(year + 1, 1, 1)
    decreases end - from
  {
    hide DayNumber;
    if n < DayNumber(from + 1, 1, 1) {
      year := from;
    } else {
      year := FindYear(n, from + 1, end);
    }
  }

  lemma {:induction false} FindMonth(n: int, year: int, from: int) returns (month: int)
    requires 1 <= from <= 12 && DayNumber(year, from, 1) <= n < DayNumber(year + 1, 1, 1)
    ensures from <= month <= 12 && DayNumber(year, month, 1) <= n < NextMonth(year, month)
    decreases 12 - from
  {
    hide DayNumber;
    if from == 12 {
      month := 12;
    } else if n < DayNumber(year, from + 1, 1) {
      month := from;
    } else {
      month := FindMonth(n, year, from + 1);
    }
  }

  /** Each day from the first of year 0 to the last of year 9999 has exactly one date. */
  lemma DateOf(n: int) returns (year: int, month: int, day: int)
    requires DayNumber(0, 1, 1) <= n < DayNumber(10000, 1, 1)
    ensures 0 <= year <= 9999 && RealDate(year, month, day) && DayNumber(year, month, day) == n
    ensures forall y, m, d :: RealDate(y, m, d) && DayNumber(y, m, d) == n ==> y == year && m == month && d == day
  {
    hide DayNumber;
    year := FindYear(n, 0, 10000);
    month := FindMonth(n, year, 1);
    day := n - DayNumber(year, month, 1) + 1;
    DaysAdd(year, month, day);
    forall y, m, d | RealDate(y, m, d) && DayNumber(y, m, d) == n
      ensures y == year && m == month && d == day
    {
      DatesInOrder(y, m, d, year, month, day);
      DatesInOrder(year, month, day, y, m, d);
    }
  }
}
