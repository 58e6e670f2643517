/**
 * Proleptic Gregorian calendar days. A `Date` is a civil (year, month, day)
 * triple with a 1-based month, as JavaScript's `getFullYear()`,
 * `getMonth() + 1` and `getDate()` report it; a day number counts days from
 * 1970-01-01, the day `Date.getTime() / 86400000` counts for a UTC midnight.
 */
module Calendar {

  datatype Date = Date(year: int, month: int, day: int)

  predicate IsLeapYear(y: int) {
    y % 4 == 0 && (y % 100 != 0 || y % 400 == 0)
  }

  function DaysInYear(y: int): int {
    if IsLeapYear(y) then 366 else 365
  }

  function DaysInMonth(y: int, m: int): (n: int)
    requires 1 <= m <= 12
    ensures 28 <= n <= 31
  {
    if m == 2 then (if IsLeapYear(y) then 29 else 28)
    else if m == 4 || m == 6 || m == 9 || m == 11 then 30
    else 31
  }

  predicate Valid(d: Date) {
    1 <= d.month <= 12 && 1 <= d.day <= DaysInMonth(d.year, d.month)
  }

  /** Days from 1970-01-01 to January 1st of year `y`. */
  function DaysBeforeYear(y: int): int
    decreases if y >= 1970 then y - 1970 else 1970 - y
  {
    if y == 1970 then 0
    else if y > 1970 then DaysBeforeYear(y - 1) + DaysInYear(y - 1)
    else DaysBeforeYear(y + 1) - DaysInYear(y)
  }

  /** Days from January 1st to the first of month `m` in year `y`. */
  function DaysBeforeMonth(y: int, m: int): int
    requires 1 <= m <= 13
  {
    var leapDay := if m > 2 && IsLeapYear(y) then 1 else 0;
    [0, 31, 59, 90, 120, 151, 181, 212, 243, 273, 304, 334, 365][m - 1] + leapDay
  }

  function DayNumber(d: Date): int
    requires Valid(d)
  {
    DaysBeforeYear(d.year) + DaysBeforeMonth(d.year, d.month) + d.day - 1
  }

  lemma YearStep(y: int)
    ensures DaysBeforeYear(y + 1) == DaysBeforeYear(y) + DaysInYear(y)
  {
  }

  lemma MonthStep(y: int, m: int)
    requires 1 <= m <= 12
    ensures DaysBeforeMonth(y, m + 1) == DaysBeforeMonth(y, m) + DaysInMonth(y, m)
    ensures DaysBeforeMonth(y, 13) == DaysInYear(y)
  {
  }

  /** The day `n` days after January 1st of month `m` of year `y`, within that year. */
  function FromMonth(y: int, m: int, n: int): (d: Date)
    requires 1 <= m <= 12 && 0 <= n < DaysInYear(y) - DaysBeforeMonth(y, m)
    ensures Valid(d) && d.year == y && m <= d.month
    ensures DaysBeforeMonth(y, d.month) + d.day - 1 == DaysBeforeMonth(y, m) + n
    decreases 12 - m
  {
    MonthStep(y, m);
    if n < DaysInMonth(y, m) then Date(y, m, n + 1)
    else FromMonth(y, m + 1, n - DaysInMonth(y, m))
  }

  /** The day `n` days after January 1st of year `y` (`n` may be negative or beyond the year). */
  function FromYear(y: int, n: int): (d: Date)
    ensures Valid(d) && DayNumber(d) == DaysBeforeYear(y) + n
    decreases n < 0, if n < 0 then -n else n
  {
    if n < 0 then
      YearStep(y - 1);
      FromYear(y - 1, n + DaysInYear(y - 1))
    else if n >= DaysInYear(y) then
      YearStep(y);
      FromYear(y + 1, n - DaysInYear(y))
    else
      MonthStep(y, 1);
      FromMonth(y, 1, n)
  }

  /** The civil date of day number `n`. */
  function CivilFromDays(n: int): (d: Date)
    ensures Valid(d) && DayNumber(d) == n
  {
    FromYear(1970, n)
  }

  lemma {:induction false} YearsIncrease(a: int, b: int)
    requires a < b
    ensures DaysBeforeYear(a + 1) <= DaysBeforeYear(b)
    decreases b - a
  {
    if a + 1 < b {
      YearsIncrease(a + 1, b);
      YearStep(a + 1);
    }
  }

  /** A valid date lies inside its own year and month. */
  lemma DayNumberBounds(d: Date)
    requires Valid(d)
    ensures DaysBeforeYear(d.year) <= DayNumber(d) < DaysBeforeYear(d.year + 1)
    ensures DaysBeforeMonth(d.year, d.month) <= DayNumber(d) - DaysBeforeYear(d.year)
                                              < DaysBeforeMonth(d.year, d.month + 1)
  {
    YearStep(d.year);
    MonthStep(d.year, d.month);
  }

  lemma MonthsIncrease(y: int, a: int, b: int)
    requires 1 <= a < b <= 12
    ensures DaysBeforeMonth(y, a + 1) <= DaysBeforeMonth(y, b)
  {
  }

  /** Different valid dates have different day numbers. */
  lemma DayNumberInjective(d1: Date, d2: Date)
    requires Valid(d1) && Valid(d2) && DayNumber(d1) == DayNumber(d2)
    ensures d1 == d2
  {
    DayNumberBounds(d1);
    DayNumberBounds(d2);
    if d1.year < d2.year {
      YearsIncrease(d1.year, d2.year);
    } else if d2.year < d1.year {
      YearsIncrease(d2.year, d1.year);
    }
    assert d1.year == d2.year;
    if d1.month < d2.month {
      MonthsIncrease(d1.year, d1.month, d2.month);
    } else if d2.month < d1.month {
      MonthsIncrease(d1.year, d2.month, d1.month);
    }
  }

  /** Converting a valid date to its day number and back gives the date again. */
  lemma CivilRoundTrip(d: Date)
    requires Valid(d)
    ensures CivilFromDays(DayNumber(d)) == d
  {
    DayNumberInjective(CivilFromDays(DayNumber(d)), d);
  }

  /** JavaScript `setDate(getDate() + k)`: the date `k` days later (earlier for negative `k`). */
  function AddDays(d: Date, k: int): (r: Date)
    requires Valid(d)
    ensures Valid(r) && DayNumber(r) == DayNumber(d) + k
  {
    CivilFromDays(DayNumber(d) + k)
  }

  /** `new Date(d.getFullYear(), d.getMonth(), 1)`. */
  function FirstOfMonth(d: Date): (r: Date)
    requires Valid(d)
    ensures Valid(r) && r.year == d.year && r.month == d.month && r.day == 1
    ensures DayNumber(d) - 30 <= DayNumber(r) <= DayNumber(d)
  {
    Date(d.year, d.month, 1)
  }
}
