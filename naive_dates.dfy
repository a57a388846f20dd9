/**
 * The slice of a proleptic Gregorian calendar date (the `chrono` crate's
 * `NaiveDate`) that the month-length computation of the interval model uses:
 * checked construction from year, month and day, and the signed number of
 * days between two dates.
 */
module NaiveDates {
  import opened Wrappers

  // The range of years a `NaiveDate` is assumed to hold: the bounds of the
  // `chrono` releases that pack the year into the top 19 bits of an `i32`
  // (i32::MIN >> 13 and i32::MAX >> 13). The source pins no version; other
  // releases may differ. Outside this range `from_ymd_opt` yields nothing.
  const MinYear: int := -262144
  const MaxYear: int := 262143

  /** Gregorian rule: every fourth year, except centuries not divisible by 400. */
  predicate IsLeapYear(y: int)
  {
    y % 4 == 0 && (y % 100 != 0 || y % 400 == 0)
  }

  /** The classical month-length table. */
  function DaysInMonth(y: int, m: int): (n: nat)
    requires 1 <= m <= 12
    ensures 28 <= n <= 31
    ensures n == 29 <==> m == 2 && IsLeapYear(y)
  {
    if m == 2 then (if IsLeapYear(y) then 29 else 28)
    else if m == 4 || m == 6 || m == 9 || m == 11 then 30
    else 31
  }

  function DaysInYear(y: int): nat
  {
    if IsLeapYear(y) then 366 else 365
  }

  datatype Date = Date(year: int, month: int, day: int)

  /** A calendar date that exists and lies in the representable range. */
  predicate Valid(d: Date)
  {
    && MinYear <= d.year <= MaxYear
    && 1 <= d.month <= 12
    && 1 <= d.day <= DaysInMonth(d.year, d.month)
  }

  /** `NaiveDate::from_ymd_opt`: the date, when it exists and is in range. */
  function FromYmdOpt(year: int, month: int, day: int): Option<Date>
  {
    if Valid(Date(year, month, day)) then Some(Date(year, month, day)) else None
  }

  /** The first of a month exists exactly in the representable years. */
  lemma FirstOfMonth(y: int, m: int)
    requires 1 <= m <= 12
    ensures FromYmdOpt(y, m, 1) == if MinYear <= y <= MaxYear then Some(Date(y, m, 1)) else None
  {
  }

  /** Days of the years before `y`, counted from 1 January of year 1 (negative before it). */
  function DaysBeforeYear(y: int): int
  {
    var p := y - 1;
    365 * p + p / 4 - p / 100 + p / 400
  }

  /** Days of a common year that precede month `m` (a cumulative table). */
  function CumulativeDays(m: int): nat
    requires 1 <= m <= 12
  {
    [0, 31, 59, 90, 120, 151, 181, 212, 243, 273, 304, 334][m - 1]
  }

  /** Position of a date in its year, 1 January being 1. */
  function Ordinal(d: Date): int
    requires 1 <= d.month <= 12
  {
    CumulativeDays(d.month) + (if d.month > 2 && IsLeapYear(d.year) then 1 else 0) + d.day
  }

  /** Day number of a date, 1 January of year 1 being day 1 (`num_days_from_ce`). */
  function DaysFromCe(d: Date): int
    requires 1 <= d.month <= 12
  {
    DaysBeforeYear(d.year) + Ordinal(d)
  }

  /** `(a - b).num_days()`: signed number of days from `b` to `a`. */
  function DaysBetween(a: Date, b: Date): int
    requires 1 <= a.month <= 12 && 1 <= b.month <= 12
  {
    DaysFromCe(a) - DaysFromCe(b)
  }

  /** The calendar day after `d`, rolling over month and year ends. */
  function NextDay(d: Date): (n: Date)
    requires 1 <= d.month <= 12 && 1 <= d.day <= DaysInMonth(d.year, d.month)
    ensures 1 <= n.month <= 12 && 1 <= n.day <= DaysInMonth(n.year, n.month)
  {
    if d.day < DaysInMonth(d.year, d.month) then Date(d.year, d.month, d.day + 1)
    else if d.month < 12 then Date(d.year, d.month + 1, 1)
    else Date(d.year + 1, 1, 1)
  }

  // Floor division by a positive constant steps up by one exactly at the
  // multiples of that constant.

  lemma StepBy4(x: int)
    ensures x / 4 - (x - 1) / 4 == if x % 4 == 0 then 1 else 0
  {
  }

  lemma StepBy100(x: int)
    ensures x / 100 - (x - 1) / 100 == if x % 100 == 0 then 1 else 0
  {
  }

  lemma StepBy400(x: int)
    ensures x / 400 - (x - 1) / 400 == if x % 400 == 0 then 1 else 0
  {
  }

  /** Multiples of 100 are multiples of 4, and multiples of 400 are multiples of 100. */
  lemma CenturyDivisibility(y: int)
    ensures y % 100 == 0 ==> y % 4 == 0
    ensures y % 400 == 0 ==> y % 100 == 0
  {
    if y % 100 == 0 {
      var k := y / 100;
      assert y == 100 * k;
      assert y / 4 == 25 * k;
    }
    if y % 400 == 0 {
      var k := y / 400;
      assert y == 400 * k;
      assert y / 100 == 4 * k;
    }
  }

  /** Consecutive years are as far apart as the earlier year is long. */
  lemma {:induction false} YearLength(y: int)
    ensures DaysBeforeYear(y + 1) - DaysBeforeYear(y) == DaysInYear(y)
  {
    var p := y - 1;
    StepBy4(y);
    StepBy100(y);
    StepBy400(y);
    CenturyDivisibility(y);
    calc {
      DaysBeforeYear(y + 1) - DaysBeforeYear(y);
      (365 * y + y / 4 - y / 100 + y / 400) - (365 * p + p / 4 - p / 100 + p / 400);
      365 + (y / 4 - p / 4) - (y / 100 - p / 100) + (y / 400 - p / 400);
    }
  }

  /** The cumulative table agrees with the month-length table. */
  lemma MonthStart(y: int, m: int)
    requires 1 <= m < 12
    ensures DaysFromCe(Date(y, m + 1, 1)) - DaysFromCe(Date(y, m, 1)) == DaysInMonth(y, m)
  {
  }

  /** The first of January follows the last month of the previous year. */
  lemma YearStart(y: int)
    ensures DaysFromCe(Date(y + 1, 1, 1)) - DaysFromCe(Date(y, 12, 1)) == DaysInMonth(y, 12)
  {
    YearLength(y);
  }

  /** From the first of a month to the first of the next is one month's length. */
  lemma MonthSpan(y: int, m: int)
    requires 1 <= m <= 12
    ensures var next := if m == 12 then Date(y + 1, 1, 1) else Date(y, m + 1, 1);
            DaysFromCe(next) - DaysFromCe(Date(y, m, 1)) == DaysInMonth(y, m)
  {
    if m == 12 {
      YearStart(y);
    } else {
      MonthStart(y, m);
    }
  }

  /** The day numbering has no gaps: the next calendar day is the next number. */
  lemma NextDayNumber(d: Date)
    requires 1 <= d.month <= 12 && 1 <= d.day <= DaysInMonth(d.year, d.month)
    ensures DaysFromCe(NextDay(d)) == DaysFromCe(d) + 1
  {
    if d.day == DaysInMonth(d.year, d.month) {
      if d.month < 12 {
        MonthStart(d.year, d.month);
      } else {
        YearStart(d.year);
      }
    }
  }

  /** The numbering starts where `num_days_from_ce` does. */
  lemma CommonEraStart()
    ensures DaysFromCe(Date(1, 1, 1)) == 1
  {
  }
}
