/**
 * Calendar dates as (year, month, day) triples, their chronological order,
 * month names, and the month anchors the dashboard groups by.
 */
module Dates {

  type Month = m: int | 1 <= m <= 12 witness 1
  type Day = d: int | 1 <= d <= 31 witness 1

  /** A date with its time of day dropped: the ledgers carry dates only. */
  datatype Date = Date(year: int, month: Month, day: Day)

  predicate IsLeapYear(y: int) {
    y % 4 == 0 && (y % 100 != 0 || y % 400 == 0)
  }

  function DaysInMonth(y: int, m: Month): (n: int)
    ensures 28 <= n <= 31
    ensures n == 31 <==> m in ThirtyOneDayMonths
  {
    if m == 2 then (if IsLeapYear(y) then 29 else 28)
    else if m in ThirtyDayMonths then 30
    else 31
  }

  /** A triple that names a real day of the Gregorian calendar. */
  predicate ValidDate(d: Date) {
    d.day <= DaysInMonth(d.year, d.month)
  }

  /**
   * Position of a date on a line: one 31-day slot per month. It is only used
   * to compare dates; it is not a day count.
   */
  function Ordinal(d: Date): int {
    d.year * 372 + (d.month - 1) * 31 + (d.day - 1)
  }

  /** Chronological order on dates, the order of the ledgers' timestamps. */
  predicate DateLe(a: Date, b: Date) {
    Ordinal(a) <= Ordinal(b)
  }

  predicate DateLt(a: Date, b: Date) {
    Ordinal(a) < Ordinal(b)
  }

  /** Earlier years first, then earlier months, then earlier days. */
  predicate LexicographicLt(a: Date, b: Date) {
    a.year < b.year
    || (a.year == b.year && a.month < b.month)
    || (a.year == b.year && a.month == b.month && a.day < b.day)
  }

  lemma YearDominates(a: Date, b: Date)
    requires a.year < b.year
    ensures Ordinal(a) < Ordinal(b)
  {
    var ra := (a.month - 1) * 31 + (a.day - 1);
    var rb := (b.month - 1) * 31 + (b.day - 1);
    assert 0 <= ra <= 371 && 0 <= rb;
    assert a.year * 372 + 372 <= b.year * 372 by {
      assert (b.year - a.year) * 372 >= 372;
    }
  }

  /** The order `DateLt` compares is calendar order, and Ordinal tells dates apart. */
  lemma {:induction false} OrdinalIsChronological(a: Date, b: Date)
    ensures DateLt(a, b) <==> LexicographicLt(a, b)
    ensures Ordinal(a) == Ordinal(b) <==> a == b
  {
    if a.year < b.year {
      YearDominates(a, b);
    } else if b.year < a.year {
      YearDominates(b, a);
    }
  }

  const MonthNames: seq<string> := ["January", "February", "March", "April", "May", "June",
    "July", "August", "September", "October", "November", "December"]

  /** The English month name of a month number. */
  function MonthName(m: Month): string {
    MonthNames[m - 1]
  }

  /** The month number a month name stands for; 0 for any other text. */
  function MonthNumber(name: string): int {
    if name == "January" then 1 else if name == "February" then 2
    else if name == "March" then 3 else if name == "April" then 4
    else if name == "May" then 5 else if name == "June" then 6
    else if name == "July" then 7 else if name == "August" then 8
    else if name == "September" then 9 else if name == "October" then 10
    else if name == "November" then 11 else if name == "December" then 12
    else 0
  }

  /** Reading a month's name back gives the month. */
  lemma MonthNameRoundTrip(m: Month)
    ensures MonthNumber(MonthName(m)) == m
  {
  }

  /** Distinct months have distinct names, so a month-name filter picks one month. */
  lemma MonthNameInjective(m: Month, n: Month)
    ensures MonthName(m) == MonthName(n) <==> m == n
  {
    MonthNameRoundTrip(m);
    MonthNameRoundTrip(n);
  }

  const ThirtyOneDayMonths: seq<int> := [1, 3, 5, 7, 8, 10, 12]
  const ThirtyDayMonths: seq<int> := [4, 6, 9, 11]

  /**
   * The month-end anchor of the monthly spending totals: day 31 for the
   * 31-day months, day 30 for the 30-day months and day 28 for February,
   * leap year or not.
   */
  function MonthEnd(d: Date): (e: Date)
    ensures e.year == d.year && e.month == d.month
    ensures e.day == 31 <==> d.month in [1, 3, 5, 7, 8, 10, 12]
    ensures e.day == 30 <==> d.month in [4, 6, 9, 11]
    ensures e.day == 28 <==> d.month == 2
  {
    if d.month in ThirtyOneDayMonths then Date(d.year, d.month, 31)
    else if d.month in ThirtyDayMonths then Date(d.year, d.month, 30)
    else Date(d.year, d.month, 28)
  }

  /** Two dates share a month-end anchor exactly when they lie in the same calendar month. */
  lemma SameMonthEndIffSameMonth(a: Date, b: Date)
    ensures MonthEnd(a) == MonthEnd(b) <==> a.year == b.year && a.month == b.month
  {
  }

  /** The anchor is the real last day of every month but February, and never earlier than the date. */
  lemma MonthEndIsLastDay(d: Date)
    requires ValidDate(d)
    ensures d.month != 2 ==> MonthEnd(d).day == DaysInMonth(d.year, d.month)
    ensures !(d.month == 2 && d.day == 29) ==> DateLe(d, MonthEnd(d))
  {
  }

  /** The one exception: 29 February of a leap year is anchored one day before itself. */
  lemma LeapDayAnchorsEarlier()
    ensures ValidDate(Date(2024, 2, 29))
    ensures DateLt(MonthEnd(Date(2024, 2, 29)), Date(2024, 2, 29))
  {
  }

  /** Anchoring keeps chronological order, so grouped buckets follow the dates' order. */
  lemma MonthEndMonotone(a: Date, b: Date)
    requires DateLe(a, b)
    ensures DateLe(MonthEnd(a), MonthEnd(b))
  {
    OrdinalIsChronological(a, b);
    OrdinalIsChronological(MonthEnd(a), MonthEnd(b));
  }
}
