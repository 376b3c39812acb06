/**
 * Calendar arithmetic of JavaScript's `Date`, on whole day numbers: day 0 is
 * 1970-01-01, months are counted from 0 (January) as `getMonth()` does, and
 * `getDay()` counts weekdays from 0 (Sunday). The formulas are those of the
 * ECMAScript standard (section 21.4.1 of ECMA-262: DayFromYear, MakeDay, WeekDay).
 */
module Calendar {

  predicate InLeapYear(y: int) {
    y % 4 == 0 && (y % 100 != 0 || y % 400 == 0)
  }

  function DaysInYear(y: int): int {
    if InLeapYear(y) then 366 else 365
  }

  /** Day number of January 1 of year `y`. */
  function DayFromYear(y: int): int {
    365 * (y - 1970) + (y - 1969) / 4 - (y - 1901) / 100 + (y - 1601) / 400
  }

  /** Number of days of month `mn` (0 = January) of year `y`. */
  function DaysInMonth(y: int, mn: int): (n: int)
    requires 0 <= mn < 12
    ensures 28 <= n <= 31
    ensures mn == 1 ==> (n == 29 <==> InLeapYear(y))
  {
    if mn == 1 then (if InLeapYear(y) then 29 else 28)
    else if mn == 3 || mn == 5 || mn == 8 || mn == 10 then 30
    else 31
  }

  /** Number of days of year `y` that precede month `mn`. */
  function DaysBeforeMonth(y: int, mn: int): (n: int)
    requires 0 <= mn <= 12
    ensures 0 <= n <= 31 * mn
  {
    if mn == 0 then 0 else DaysBeforeMonth(y, mn - 1) + DaysInMonth(y, mn - 1)
  }

  /**
   * `new Date(year, month, date)` as a day number. Out-of-range months and dates
   * roll over as in JavaScript: the month is reduced modulo 12 into the year and
   * the date is an offset from the first of that month, so date 0 is the last
   * day of the previous month.
   */
  function MakeDay(year: int, month: int, date: int): int {
    var ym := year + month / 12;
    var mn := month % 12;
    DayFromYear(ym) + DaysBeforeMonth(ym, mn) + date - 1
  }

  /** `getDay()`: 0 for Sunday up to 6 for Saturday; 1970-01-01 was a Thursday. */
  function WeekDay(day: int): (w: int)
    ensures 0 <= w < 7
  {
    (day + 4) % 7
  }

  /** A date as given by `getFullYear()`, `getMonth()` and `getDate()`. */
  datatype CivilDate = CivilDate(year: nat, month: int, date: int)

  predicate ValidDate(c: CivilDate) {
    0 <= c.month < 12 && 1 <= c.date <= DaysInMonth(c.year, c.month)
  }

  function DayNumber(c: CivilDate): int {
    MakeDay(c.year, c.month, c.date)
  }

  /** January 1 of the next year follows the last day of this one. */
  lemma DayFromYearStep(y: int)
    ensures DayFromYear(y + 1) == DayFromYear(y) + DaysInYear(y)
  {
    DivStep4(y);
    DivStep100(y);
    DivStep400(y);
    Divisibility(y);
    var a, b, c := y % 4 == 0, y % 100 == 0, y % 400 == 0;
    assert DayFromYear(y + 1) - DayFromYear(y) ==
      365 + (if a then 1 else 0) - (if b then 1 else 0) + (if c then 1 else 0);
  }

  /** A multiple of 400 is a multiple of 100, and a multiple of 100 is a multiple of 4. */
  lemma Divisibility(y: int)
    ensures y % 400 == 0 ==> y % 100 == 0
    ensures y % 100 == 0 ==> y % 4 == 0
  {
    if y % 400 == 0 {
      MultipleOf400(y);
    }
    if y % 100 == 0 {
      MultipleOf100(y);
    }
  }

  lemma MultipleOf400(y: int)
    requires y % 400 == 0
    ensures y % 100 == 0
  {
    var k := y / 400;
    assert y == 100 * (4 * k);
  }

  lemma MultipleOf100(y: int)
    requires y % 100 == 0
    ensures y % 4 == 0
  {
    var k := y / 100;
    assert y == 4 * (25 * k);
  }

  lemma DivStep4(y: int)
    ensures (y - 1968) / 4 - (y - 1969) / 4 == if y % 4 == 0 then 1 else 0
  {
    var q, r := (y - 1969) / 4, (y - 1969) % 4;
    assert y - 1969 == 4 * q + r;
    if r == 3 {
      assert y - 1968 == 4 * (q + 1) && y == 4 * (q + 493);
    } else {
      assert y - 1968 == 4 * q + (r + 1) && y == 4 * (q + 492) + (r + 1);
    }
  }

  lemma DivStep100(y: int)
    ensures (y - 1900) / 100 - (y - 1901) / 100 == if y % 100 == 0 then 1 else 0
  {
    var q, r := (y - 1901) / 100, (y - 1901) % 100;
    assert y - 1901 == 100 * q + r;
    if r == 99 {
      assert y - 1900 == 100 * (q + 1) && y == 100 * (q + 20);
    } else {
      assert y - 1900 == 100 * q + (r + 1) && y == 100 * (q + 19) + (r + 1);
    }
  }

  lemma DivStep400(y: int)
    ensures (y - 1600) / 400 - (y - 1601) / 400 == if y % 400 == 0 then 1 else 0
  {
    var q, r := (y - 1601) / 400, (y - 1601) % 400;
    assert y - 1601 == 400 * q + r;
    if r == 399 {
      assert y - 1600 == 400 * (q + 1) && y == 400 * (q + 5);
    } else {
      assert y - 1600 == 400 * q + (r + 1) && y == 400 * (q + 4) + (r + 1);
    }
  }

  lemma DaysBeforeDecemberEnd(y: int)
    ensures DaysBeforeMonth(y, 12) == DaysInYear(y)
  {
    var feb := DaysInMonth(y, 1);
    assert DaysBeforeMonth(y, 2) == 31 + feb;
    assert DaysBeforeMonth(y, 4) == 92 + feb;
    assert DaysBeforeMonth(y, 6) == 153 + feb;
    assert DaysBeforeMonth(y, 8) == 215 + feb;
    assert DaysBeforeMonth(y, 10) == 276 + feb;
  }

  /**
   * `new Date(y, m, 0)` is the last day of month `m` (counted from 1), for
   * every month including December, where the roll-over reaches the next year.
   */
  lemma LastDayOfMonth(y: int, m: int)
    requires 1 <= m <= 12
    ensures MakeDay(y, m, 0) == MakeDay(y, m - 1, DaysInMonth(y, m - 1))
  {
    if m == 12 {
      LastDayOfDecember(y);
    } else {
      LastDayWithinYear(y, m);
    }
  }

  lemma LastDayWithinYear(y: int, m: int)
    requires 1 <= m <= 11
    ensures MakeDay(y, m, 0) == MakeDay(y, m - 1, DaysInMonth(y, m - 1))
  {
    assert m / 12 == 0 && m % 12 == m && (m - 1) / 12 == 0 && (m - 1) % 12 == m - 1;
    assert DaysBeforeMonth(y, m) == DaysBeforeMonth(y, m - 1) + DaysInMonth(y, m - 1);
  }

  lemma LastDayOfDecember(y: int)
    ensures MakeDay(y, 12, 0) == MakeDay(y, 11, 31)
  {
    assert MakeDay(y, 12, 0) == DayFromYear(y + 1) - 1;
    assert MakeDay(y, 11, 31) == DayFromYear(y) + DaysBeforeMonth(y, 11) + 30;
    DayFromYearStep(y);
    DaysBeforeDecemberEnd(y);
    assert DaysBeforeMonth(y, 12) == DaysBeforeMonth(y, 11) + 31;
  }

  /** On a valid date the day number grows with the date inside a month. */
  lemma DayNumberInMonth(c: CivilDate)
    requires ValidDate(c)
    ensures MakeDay(c.year, c.month, 1) <= DayNumber(c) <= MakeDay(c.year, c.month, DaysInMonth(c.year, c.month))
    ensures DayNumber(c) - MakeDay(c.year, 0, 1) >= 0
  {
    assert c.month / 12 == 0 && c.month % 12 == c.month;
    assert DayNumber(c) == DayFromYear(c.year) + DaysBeforeMonth(c.year, c.month) + c.date - 1;
    assert MakeDay(c.year, 0, 1) == DayFromYear(c.year);
  }
}
