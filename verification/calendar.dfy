/**
 * Civil dates and times as the app's calendar sees them: the proleptic
 * Gregorian calendar in the device's local time.  A moment is a valid
 * (year, month, day) plus the second of that day; time zones are already
 * applied, so "start of day" is simply the date part.
 */
module Calendar {

  const SecondsPerDay: int := 86400

  predicate IsLeapYear(y: int) {
    (y % 4 == 0 && y % 100 != 0) || y % 400 == 0
  }

  /** Number of days in month `m` (1 = January) of year `y`. */
  function DaysInMonth(y: int, m: int): (n: int)
    requires 1 <= m <= 12
    ensures 28 <= n <= 31
    ensures m == 2 ==> (n == 29 <==> IsLeapYear(y))
    ensures m != 2 ==> n >= 30
  {
    if m == 2 then (if IsLeapYear(y) then 29 else 28)
    else if m == 4 || m == 6 || m == 9 || m == 11 then 30
    else 31
  }

  datatype CivilDate = CivilDate(year: int, month: int, day: int)

  predicate ValidDate(d: CivilDate) {
    1 <= d.month <= 12 && 1 <= d.day <= DaysInMonth(d.year, d.month)
  }

  /** A calendar day that exists. */
  type Date = d: CivilDate | ValidDate(d) witness CivilDate(1970, 1, 1)

  datatype DateTime = DateTime(date: Date, second: int)

  /** A moment: a day and a second within it. */
  type Moment = t: DateTime | 0 <= t.second < SecondsPerDay
    witness DateTime(CivilDate(1970, 1, 1), 0)

  // ---------------------------------------------------------------------
  // Day numbers: days elapsed since 0001-01-01.

  function DaysBeforeYear(y: int): int {
    var p := y - 1;
    365 * p + p / 4 - p / 100 + p / 400
  }

  function DaysBeforeMonth(y: int, m: int): int
    requires 1 <= m <= 12
  {
    [0, 31, 59, 90, 120, 151, 181, 212, 243, 273, 304, 334][m - 1]
      + (if m > 2 && IsLeapYear(y) then 1 else 0)
  }

  function DayNumber(d: Date): int {
    DaysBeforeYear(d.year) + DaysBeforeMonth(d.year, d.month) + d.day - 1
  }

  /** The calendar day after `d`. */
  function NextDate(d: Date): (r: Date)
    ensures r.year == d.year || (r.year == d.year + 1 && r.month == 1 && r.day == 1)
  {
    if d.day < DaysInMonth(d.year, d.month) then CivilDate(d.year, d.month, d.day + 1)
    else if d.month < 12 then CivilDate(d.year, d.month + 1, 1)
    else CivilDate(d.year + 1, 1, 1)
  }

  /** The day `n` days after `d`, found by stepping one day at a time. */
  function AddDays(d: Date, n: nat): Date
    decreases n
  {
    if n == 0 then d else AddDays(NextDate(d), n - 1)
  }

  lemma DivStep(a: int, k: int)
    requires k == 4 || k == 100 || k == 400
    ensures a / k - (a - 1) / k == (if a % k == 0 then 1 else 0)
  {
    if k == 4 {
    } else if k == 100 {
    } else {
    }
  }

  lemma DivisibilityChain(y: int)
    ensures y % 400 == 0 ==> y % 100 == 0
    ensures y % 100 == 0 ==> y % 4 == 0
  {
    if y % 400 == 0 {
      var q := y / 400;
      assert y == 400 * q;
      assert y / 100 == 4 * q;
    }
    if y % 100 == 0 {
      var q := y / 100;
      assert y == 100 * q;
      assert y / 4 == 25 * q;
    }
  }

  /** A year has 365 days, plus one when it is a leap year. */
  lemma YearLength(y: int)
    ensures DaysBeforeYear(y + 1) == DaysBeforeYear(y) + 365 + (if IsLeapYear(y) then 1 else 0)
  {
    DivStep(y, 4);
    DivStep(y, 100);
    DivStep(y, 400);
    DivisibilityChain(y);
    var step := y / 4 - (y - 1) / 4 - (y / 100 - (y - 1) / 100) + (y / 400 - (y - 1) / 400);
    assert step == (if IsLeapYear(y) then 1 else 0);
  }

  lemma MonthLength(y: int, m: int)
    requires 1 <= m < 12
    ensures DaysBeforeMonth(y, m + 1) == DaysBeforeMonth(y, m) + DaysInMonth(y, m)
  {
  }

  /** Stepping to the next calendar day advances the day number by exactly one. */
  lemma NextDateIsOneDayLater(d: Date)
    ensures DayNumber(NextDate(d)) == DayNumber(d) + 1
  {
    if d.day < DaysInMonth(d.year, d.month) {
    } else if d.month < 12 {
      MonthLength(d.year, d.month);
    } else {
      YearLength(d.year);
    }
  }

  lemma {:induction false} AddDaysCounts(d: Date, n: nat)
    ensures DayNumber(AddDays(d, n)) == DayNumber(d) + n
    decreases n
  {
    if n > 0 {
      NextDateIsOneDayLater(d);
      AddDaysCounts(NextDate(d), n - 1);
    }
  }

  // ---------------------------------------------------------------------
  // Chronological order.

  predicate DateBefore(a: Date, b: Date) {
    a.year < b.year
    || (a.year == b.year && a.month < b.month)
    || (a.year == b.year && a.month == b.month && a.day < b.day)
  }

  lemma {:induction false} YearsOrdered(a: int, b: int)
    requires a <= b
    ensures DaysBeforeYear(a) <= DaysBeforeYear(b)
    decreases b - a
  {
    if a < b {
      YearLength(a);
      YearsOrdered(a + 1, b);
    }
  }

  lemma DaysBeforeMonthOrdered(y: int, m: int, n: int)
    requires 1 <= m < n <= 12
    ensures DaysBeforeMonth(y, m) + DaysInMonth(y, m) <= DaysBeforeMonth(y, n)
  {
  }

  /** Day numbers are chronological: an earlier date has a smaller number. */
  lemma DayNumberIsChronological(a: Date, b: Date)
    requires DateBefore(a, b)
    ensures DayNumber(a) < DayNumber(b)
  {
    if a.year < b.year {
      YearLength(a.year);
      YearsOrdered(a.year + 1, b.year);
      assert DaysBeforeMonth(a.year, a.month) + a.day - 1 < 365 + (if IsLeapYear(a.year) then 1 else 0);
    } else if a.month < b.month {
      DaysBeforeMonthOrdered(a.year, a.month, b.month);
    }
  }

  /** Sunday = 1 ... Saturday = 7; 0001-01-01 was a Monday. */
  function Weekday(d: Date): (w: int)
    ensures 1 <= w <= 7
  {
    (DayNumber(d) + 1) % 7 + 1
  }

  lemma ModSevenStep(x: int)
    ensures (x + 1) % 7 == (x % 7 + 1) % 7
  {
    assert x == 7 * (x / 7) + x % 7;
    if x % 7 == 6 {
      assert x + 1 == 7 * (x / 7 + 1);
    } else {
      assert x + 1 == 7 * (x / 7) + (x % 7 + 1);
    }
  }

  lemma WeekdayAdvances(d: Date)
    ensures Weekday(NextDate(d)) == Weekday(d) % 7 + 1
  {
    NextDateIsOneDayLater(d);
    ModSevenStep(DayNumber(d) + 1);
  }

  lemma NewYear2026IsThursday()
    ensures Weekday(CivilDate(2026, 1, 1)) == 5
  {
  }

  // ---------------------------------------------------------------------
  // Month arithmetic.

  /** Months elapsed since January of year 0. */
  function MonthIndex(d: CivilDate): int {
    d.year * 12 + (d.month - 1)
  }

  function Min(a: int, b: int): int {
    if a <= b then a else b
  }

  /**
   * Adding `n` months to a date moves the month index by `n` and keeps the
   * day of month, pulled back to the month's last day when it would not exist.
   */
  function AddMonths(d: Date, n: int): (r: Date)
    ensures MonthIndex(r) == MonthIndex(d) + n
    ensures 1 <= r.day <= d.day
    ensures r.day == d.day || r.day == DaysInMonth(r.year, r.month)
  {
    var idx := MonthIndex(d) + n;
    var y, m := idx / 12, idx % 12 + 1;
    CivilDate(y, m, Min(d.day, DaysInMonth(y, m)))
  }

  lemma SameMonthIndex(a: CivilDate, b: CivilDate)
    requires 1 <= a.month <= 12 && 1 <= b.month <= 12
    requires MonthIndex(a) == MonthIndex(b)
    ensures a.year == b.year && a.month == b.month
  {
  }

  /** Going `n` months forward and then `n` back returns to the same month. */
  lemma AddMonthsRoundTrip(d: Date, n: int)
    ensures AddMonths(AddMonths(d, n), -n).year == d.year
    ensures AddMonths(AddMonths(d, n), -n).month == d.month
  {
    SameMonthIndex(AddMonths(AddMonths(d, n), -n), d);
  }
}
