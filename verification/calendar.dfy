/**
 * UTC time as whole seconds since 0001-01-01T00:00:00 (Python's
 * `datetime.min`), with the proleptic Gregorian calendar needed for
 * "first instant of this month", "same day" and "day + 1" decisions.
 */
module Calendar {

  /** A UTC instant, in seconds since 0001-01-01T00:00:00 UTC. */
  type Instant = nat

  const SecondsPerMinute: nat := 60
  const SecondsPerHour: nat := 3600
  const SecondsPerDay: nat := 86400

  predicate IsLeap(y: int) {
    y % 4 == 0 && (y % 100 != 0 || y % 400 == 0)
  }

  function YearDays(y: int): nat {
    if IsLeap(y) then 366 else 365
  }

  function MonthDays(y: int, m: int): nat
    requires 1 <= m <= 12
  {
    if m == 2 then (if IsLeap(y) then 29 else 28)
    else if m == 4 || m == 6 || m == 9 || m == 11 then 30
    else 31
  }

  datatype Date = Date(year: int, month: int, day: int)

  predicate ValidDate(d: Date) {
    d.year >= 1 && 1 <= d.month <= 12 && 1 <= d.day <= MonthDays(d.year, d.month)
  }

  /** Days from 0001-01-01 to January 1st of year `y`. */
  function DaysBeforeYear(y: int): nat
    requires y >= 1
    decreases y
  {
    if y == 1 then 0 else DaysBeforeYear(y - 1) + YearDays(y - 1)
  }

  /** Days from January 1st to the first day of month `m` of year `y`. */
  function DaysBeforeMonth(y: int, m: int): nat
    requires 1 <= m <= 12
  {
    (if m > 2 && IsLeap(y) then 1 else 0) + [0, 31, 59, 90, 120, 151, 181, 212, 243, 273, 304, 334][m - 1]
  }

  lemma DaysBeforeMonthStep(y: int, m: int)
    requires 1 <= m <= 12
    ensures m < 12 ==> DaysBeforeMonth(y, m + 1) == DaysBeforeMonth(y, m) + MonthDays(y, m)
    ensures m == 12 ==> DaysBeforeMonth(y, m) + MonthDays(y, m) == YearDays(y)
  {
  }

  /** The day number of a date: days elapsed since 0001-01-01. */
  function DayNumber(d: Date): nat
    requires ValidDate(d)
  {
    DaysBeforeYear(d.year) + DaysBeforeMonth(d.year, d.month) + d.day - 1
  }

  /** The year containing day number `n`, searching from year `y`, and the day within that year. */
  function YearOf(n: nat, y: int): (r: (int, nat))
    requires y >= 1
    ensures r.0 >= y && r.1 < YearDays(r.0)
    ensures DaysBeforeYear(r.0) + r.1 == DaysBeforeYear(y) + n
    decreases n
  {
    if n < YearDays(y) then (y, n) else YearOf(n - YearDays(y), y + 1)
  }

  /** The month and day of the `k`-th day (from 0) after the start of month `m`. */
  function MonthOf(y: int, k: nat, m: int): (r: (int, int))
    requires 1 <= m <= 12
    requires DaysBeforeMonth(y, m) + k < YearDays(y)
    ensures m <= r.0 <= 12 && 1 <= r.1 <= MonthDays(y, r.0)
    ensures DaysBeforeMonth(y, r.0) + r.1 - 1 == DaysBeforeMonth(y, m) + k
    decreases 12 - m
  {
    DaysBeforeMonthStep(y, m);
    if k < MonthDays(y, m) then (m, k + 1) else MonthOf(y, k - MonthDays(y, m), m + 1)
  }

  /** The calendar date of day number `n`; the inverse of `DayNumber`. */
  function CivilFromDays(n: nat): (d: Date)
    ensures ValidDate(d) && DayNumber(d) == n
  {
    var (y, doy) := YearOf(n, 1);
    var (m, day) := MonthOf(y, doy, 1);
    Date(y, m, day)
  }

  lemma {:induction false} DaysBeforeYearGrows(a: int, b: int)
    requires 1 <= a < b
    ensures DaysBeforeYear(a) + YearDays(a) <= DaysBeforeYear(b)
    decreases b - a
  {
    if a + 1 < b {
      DaysBeforeYearGrows(a + 1, b);
    }
  }

  lemma DaysBeforeMonthGrows(y: int, a: int, b: int)
    requires 1 <= a < b <= 12
    ensures DaysBeforeMonth(y, a) + MonthDays(y, a) <= DaysBeforeMonth(y, b)
  {
  }

  /** Two valid dates with the same day number are the same date. */
  lemma DayNumberInjective(a: Date, b: Date)
    requires ValidDate(a) && ValidDate(b)
    requires DayNumber(a) == DayNumber(b)
    ensures a == b
  {
    DaysBeforeMonthStep(a.year, 12);
    DaysBeforeMonthStep(b.year, 12);
    if a.year < b.year {
      DaysBeforeYearGrows(a.year, b.year);
      assert false;
    } else if b.year < a.year {
      DaysBeforeYearGrows(b.year, a.year);
      assert false;
    }
    if a.month < b.month {
      DaysBeforeMonthGrows(a.year, a.month, b.month);
      assert false;
    } else if b.month < a.month {
      DaysBeforeMonthGrows(a.year, b.month, a.month);
      assert false;
    }
  }

  /** Day number of an instant (days since 0001-01-01). */
  function DayIndex(t: Instant): nat {
    t / SecondsPerDay
  }

  /** `t.date()` in UTC. */
  function DateOf(t: Instant): (d: Date)
    ensures ValidDate(d) && DayNumber(d) == DayIndex(t)
  {
    CivilFromDays(DayIndex(t))
  }

  /** `u.date() == t.date()` holds exactly for the instants of the UTC day of `t`. */
  lemma SameDate(t: Instant, u: Instant)
    ensures DateOf(u) == DateOf(t) <==> DayStart(t) <= u < DayStart(t) + SecondsPerDay
  {
    if DateOf(u) == DateOf(t) {
      assert DayIndex(u) == DayIndex(t);
    }
    if DayStart(t) <= u < DayStart(t) + SecondsPerDay {
      assert DayIndex(u) == DayIndex(t);
    }
  }

  /** Midnight UTC starting the day of `t`: `t.replace(hour=0, minute=0, second=0)`. */
  function DayStart(t: Instant): (r: Instant)
    ensures r <= t < r + SecondsPerDay
    ensures r % SecondsPerDay == 0
  {
    DayIndex(t) * SecondsPerDay
  }

  /**
   * `t.replace(day=1, hour=0, minute=0, second=0, microsecond=0)`: midnight
   * UTC on the first day of the month of `t`.
   */
  function MonthStart(t: Instant): (r: Instant)
    ensures r <= t && r % SecondsPerDay == 0
    ensures DateOf(r) == Date(DateOf(t).year, DateOf(t).month, 1)
  {
    var d := DateOf(t);
    var first := Date(d.year, d.month, 1);
    var r := DayNumber(first) * SecondsPerDay;
    assert DayIndex(r) == DayNumber(first);
    DayNumberInjective(CivilFromDays(DayNumber(first)), first);
    r
  }

  /** Every instant from the month start up to `t` lies in the month of `t`. */
  lemma MonthStartSameMonth(t: Instant, u: Instant)
    requires MonthStart(t) <= u <= t
    ensures DateOf(u).year == DateOf(t).year && DateOf(u).month == DateOf(t).month
  {
    var d := DateOf(t);
    var first := Date(d.year, d.month, 1);
    var n := DayIndex(u);
    assert DayNumber(first) <= n <= DayNumber(d);
    var candidate := Date(d.year, d.month, 1 + n - DayNumber(first));
    assert ValidDate(candidate) && DayNumber(candidate) == n;
    DayNumberInjective(DateOf(u), candidate);
  }

  /** The second before the month start is the last second of the previous month. */
  lemma MonthStartPrecededByPreviousMonth(t: Instant)
    requires MonthStart(t) > 0
    ensures DateOf(MonthStart(t) - 1).month != DateOf(t).month
    ensures DateOf(MonthStart(t) - 1).day == MonthDays(DateOf(MonthStart(t) - 1).year, DateOf(MonthStart(t) - 1).month)
  {
    var d := DateOf(t);
    var first := Date(d.year, d.month, 1);
    var ms := MonthStart(t);
    assert DayIndex(ms - 1) == DayNumber(first) - 1;
    var prev: Date;
    if d.month == 1 {
      assert d.year > 1;
      prev := Date(d.year - 1, 12, 31);
      DaysBeforeMonthStep(d.year - 1, 12);
    } else {
      prev := Date(d.year, d.month - 1, MonthDays(d.year, d.month - 1));
      DaysBeforeMonthStep(d.year, d.month - 1);
    }
    assert ValidDate(prev) && DayNumber(prev) == DayNumber(first) - 1;
    DayNumberInjective(DateOf(ms - 1), prev);
  }
}
