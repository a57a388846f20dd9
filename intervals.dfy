/**
 * The kline (candlestick) interval model of src/binance/api.rs: the fifteen
 * periods the exchange supports, their textual codes, their durations in
 * seconds, and the fixed subset used for scheduled polling.
 *
 * The source reads the wall clock to size the one-month period; here the
 * current year and month are parameters.
 */
module Intervals {
  import opened Wrappers
  import opened NaiveDates

  /** The kline periods, in declaration order. */
  datatype BinanceInterval =
      m1 | m3 | m5 | m15 | m30
    | h1 | h2 | h4 | h6 | h8 | h12
    | d1 | d3
    | w1
    | M1

  /** Position of a period in the declaration. */
  function Index(i: BinanceInterval): nat
  {
    match i
    case m1 => 0  case m3 => 1  case m5 => 2  case m15 => 3  case m30 => 4
    case h1 => 5  case h2 => 6  case h4 => 7  case h6 => 8  case h8 => 9  case h12 => 10
    case d1 => 11  case d3 => 12
    case w1 => 13
    case M1 => 14
  }

  /** A character that can end an interval code: minute, hour, day, week, month. */
  predicate IsUnit(c: char)
  {
    c == 'm' || c == 'h' || c == 'd' || c == 'w' || c == 'M'
  }

  predicate IsDigit(c: char)
  {
    '0' <= c <= '9'
  }

  /**
   * `BinanceInterval::name`: the exchange's code for a period, a decimal
   * magnitude without leading zero followed by a unit letter.
   */
  function Name(i: BinanceInterval): (s: string)
    ensures 2 <= |s| <= 3 && IsUnit(s[|s| - 1]) && s[0] != '0'
    ensures forall k :: 0 <= k < |s| - 1 ==> IsDigit(s[k])
  {
    match i
    case m1 => "1m"
    case m3 => "3m"
    case m5 => "5m"
    case m15 => "15m"
    case m30 => "30m"
    case h1 => "1h"
    case h2 => "2h"
    case h4 => "4h"
    case h6 => "6h"
    case h8 => "8h"
    case h12 => "12h"
    case d1 => "1d"
    case d3 => "3d"
    case w1 => "1w"
    case M1 => "1M"
  }

  /** Distinct periods have distinct codes. */
  lemma NameInjective(i: BinanceInterval, j: BinanceInterval)
    ensures Name(i) == Name(j) <==> i == j
  {
    if Name(i) == Name(j) {
      match i
      case _ => assert Name(i)[..|Name(i)| - 1] == Name(j)[..|Name(j)| - 1];
    }
  }

  // The range of Rust's `u64`, and the `as u64` conversion from a signed
  // 64-bit day count, which keeps the low 64 bits.
  const U64Modulus: int := 0x1_0000_0000_0000_0000

  function AsU64(n: int): nat
  {
    n % U64Modulus
  }

  /** The conversion keeps a count that already fits. */
  lemma AsU64Small(n: int)
    requires 0 <= n < U64Modulus
    ensures AsU64(n) == n
  {
  }

  const SecondsPerDay: nat := 24 * 3600

  /** The clock's reading: a year a date can hold, and a month of it. */
  predicate ClockMonth(year: int, month: int)
  {
    MinYear <= year <= MaxYear && 1 <= month <= 12
  }

  /**
   * `get_current_month_days` for the month `(year, month)`: the number of
   * days from the first of that month to the first of the next one,
   * December rolling over to January of the next year. `None` stands for
   * the panic of `unwrap` when the first of the next month is beyond the
   * last representable year.
   */
  function CurrentMonthDays(year: int, month: int): (r: Option<nat>)
    requires ClockMonth(year, month)
    ensures r.None? <==> year == MaxYear && month == 12
    ensures r.Some? ==> r.value == DaysInMonth(year, month)
  {
    var nextYear := if month == 12 then year + 1 else year;
    var nextMonthOfYear := if month == 12 then 1 else month + 1;
    var nextMonth := FromYmdOpt(nextYear, nextMonthOfYear, 1);
    var thisMonth := FromYmdOpt(year, month, 1);
    FirstOfMonth(nextYear, nextMonthOfYear);
    FirstOfMonth(year, month);
    if nextMonth.None? || thisMonth.None? then None
    else
      MonthSpan(year, month);
      AsU64Small(DaysInMonth(year, month));
      Some(AsU64(DaysBetween(nextMonth.value, thisMonth.value)))
  }

  /**
   * `BinanceInterval::value`: the duration of a period in seconds. The month
   * lasts as many days as the clock's current month; `None` stands for the
   * panic inherited from `CurrentMonthDays`.
   */
  function Value(i: BinanceInterval, year: int, month: int): (r: Option<nat>)
    requires ClockMonth(year, month)
    ensures r.None? <==> i == M1 && year == MaxYear && month == 12
    ensures r.Some? ==> 60 <= r.value < U64Modulus
    ensures i == M1 && r.Some? ==> r.value == DaysInMonth(year, month) * SecondsPerDay
  {
    match i
    case m1 => Some(1 * 60)
    case m3 => Some(3 * 60)
    case m5 => Some(5 * 60)
    case m15 => Some(15 * 60)
    case m30 => Some(30 * 60)
    case h1 => Some(1 * 3600)
    case h2 => Some(2 * 3600)
    case h4 => Some(4 * 3600)
    case h6 => Some(6 * 3600)
    case h8 => Some(8 * 3600)
    case h12 => Some(12 * 3600)
    case d1 => Some(1 * 24 * 3600)
    case d3 => Some(3 * 24 * 3600)
    case w1 => Some(7 * 24 * 3600)
    case M1 =>
      match CurrentMonthDays(year, month)
      case Some(days) => Some(days * 24 * 3600)
      case None => None
  }

  // An independent reading of the codes: the decimal magnitude times the
  // length of the unit the letter names.

  function DigitValue(c: char): nat
    requires IsDigit(c)
  {
    c as int - '0' as int
  }

  function DecimalValue(s: string): nat
    requires forall k :: 0 <= k < |s| ==> IsDigit(s[k])
  {
    if s == [] then 0 else 10 * DecimalValue(s[..|s| - 1]) + DigitValue(s[|s| - 1])
  }

  function UnitSeconds(c: char, monthDays: nat): nat
    requires IsUnit(c)
  {
    if c == 'm' then 60
    else if c == 'h' then 3600
    else if c == 'd' then SecondsPerDay
    else if c == 'w' then 7 * SecondsPerDay
    else monthDays * SecondsPerDay
  }

  /** Seconds a well-formed interval code denotes, given the length of the month. */
  function CodeSeconds(code: string, monthDays: nat): nat
    requires |code| >= 1 && IsUnit(code[|code| - 1])
    requires forall k :: 0 <= k < |code| - 1 ==> IsDigit(code[k])
  {
    DecimalValue(code[..|code| - 1]) * UnitSeconds(code[|code| - 1], monthDays)
  }

  /** A two- or three-character code read digit by digit. */
  lemma CodeSecondsShort(code: string, monthDays: nat)
    requires 2 <= |code| <= 3 && IsUnit(code[|code| - 1])
    requires forall k :: 0 <= k < |code| - 1 ==> IsDigit(code[k])
    ensures CodeSeconds(code, monthDays) ==
      (if |code| == 2 then DigitValue(code[0]) else 10 * DigitValue(code[0]) + DigitValue(code[1]))
      * UnitSeconds(code[|code| - 1], monthDays)
  {
    var digits := code[..|code| - 1];
    if |code| == 3 {
      assert digits[..1][..0] == [];
      assert DecimalValue(digits[..1]) == DigitValue(code[0]);
    } else {
      assert digits[..0] == [];
      assert DecimalValue(digits) == DigitValue(code[0]);
    }
  }

  /** Every period lasts exactly what its code says. */
  lemma ValueMatchesName(i: BinanceInterval, year: int, month: int)
    requires ClockMonth(year, month)
    requires Value(i, year, month).Some?
    ensures Value(i, year, month).value == CodeSeconds(Name(i), DaysInMonth(year, month))
  {
    var days := DaysInMonth(year, month);
    CodeSecondsShort(Name(i), days);
    if i == M1 {
      assert Value(i, year, month).value == days * SecondsPerDay;
      assert CodeSeconds(Name(i), days) == 1 * (days * SecondsPerDay);
    }
  }

  /** Reference months of 31 and 30 days, December included. */
  lemma MonthValueExamples()
    ensures Value(M1, 2023, 1) == Some(31 * SecondsPerDay)
    ensures Value(M1, 2023, 4) == Some(30 * SecondsPerDay)
    ensures Value(M1, 2023, 12) == Some(31 * SecondsPerDay)
  {
    assert Value(M1, 2023, 1).Some? && Value(M1, 2023, 4).Some? && Value(M1, 2023, 12).Some?;
  }

  /** February: 28 days in common years (1900 among them), 29 in leap years (2000 among them). */
  lemma FebruaryValueExamples()
    ensures Value(M1, 2023, 2) == Some(28 * SecondsPerDay)
    ensures Value(M1, 2024, 2) == Some(29 * SecondsPerDay)
    ensures Value(M1, 1900, 2) == Some(28 * SecondsPerDay)
    ensures Value(M1, 2000, 2) == Some(29 * SecondsPerDay)
  {
    assert !IsLeapYear(2023) && IsLeapYear(2024);
    assert !IsLeapYear(1900) && IsLeapYear(2000);
  }

  /** Only the month depends on the clock. */
  lemma FixedValue(i: BinanceInterval, y: int, m: int, y': int, m': int)
    requires ClockMonth(y, m) && ClockMonth(y', m')
    requires i != M1
    ensures Value(i, y, m) == Value(i, y', m')
  {
  }

  /** Periods declared later last strictly longer, the month included. */
  lemma ValueIncreasing(i: BinanceInterval, j: BinanceInterval, year: int, month: int)
    requires ClockMonth(year, month)
    requires Index(i) < Index(j)
    requires Value(i, year, month).Some? && Value(j, year, month).Some?
    ensures Value(i, year, month).value < Value(j, year, month).value
  {
  }

  /**
   * `BinanceInterval::iterator`: the periods polled by default. Seven of the
   * fifteen, in declaration order; neither one minute nor one month.
   */
  function Iterator(): (r: seq<BinanceInterval>)
    ensures |r| == 7
    ensures forall a, b :: 0 <= a < b < |r| ==> Index(r[a]) < Index(r[b])
    ensures m1 !in r && M1 !in r
  {
    [m5, m15, m30, h2, h4, h8, d1]
  }
}
