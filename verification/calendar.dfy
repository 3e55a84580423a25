/** Proleptic Gregorian calendar arithmetic, in the shape JavaScript's `Date`
    uses it: a civil date is a (year, month, day) triple and its place on the
    time line is a day number counted from January 1 of year 0. Time of day
    and time zones are not modelled. */
module Calendar {

  /** A calendar date as the application stores it ('yyyy-MM-dd'); `month` is
      1-based as in the string form. */
  datatype Date = Date(year: int, month: int, day: int)

  predicate IsLeapYear(y: int) {
    y % 4 == 0 && (y % 100 != 0 || y % 400 == 0)
  }

  function YearLength(y: int): int {
    if IsLeapYear(y) then 366 else 365
  }

  function DaysInMonth(y: int, m: int): (n: int)
    requires 1 <= m <= 12
    ensures 28 <= n <= 31
    ensures m == 2 ==> (n == 29 <==> IsLeapYear(y))
  {
    if m == 2 then (if IsLeapYear(y) then 29 else 28)
    else if m == 4 || m == 6 || m == 9 || m == 11 then 30
    else 31
  }

  predicate ValidDate(d: Date) {
    1 <= d.month <= 12 && 1 <= d.day <= DaysInMonth(d.year, d.month)
  }

  /** Length of the month with absolute index `k`
      (`k == 12 * year + monthIndex`, monthIndex 0-based). */
  function MonthLength(k: int): (n: int)
    ensures 28 <= n <= 31
  {
    DaysInMonth(k / 12, k % 12 + 1)
  }

  /** Day number of the first day of the month with absolute index `k`,
      counted from the first of January of year 0: each month starts where
      the previous one ends. */
  function MonthFirstDay(k: int): int
    decreases if k < 0 then -k else k
  {
    if k == 0 then 0
    else if k > 0 then MonthFirstDay(k - 1) + MonthLength(k - 1)
    else MonthFirstDay(k + 1) - MonthLength(k)
  }

  /** ECMAScript's MakeDay, i.e. the day of `new Date(y, monthIndex, date)`:
      the month index carries into the year by floor division, so month -1 is
      December of the previous year, and an out-of-range date rolls over into
      the neighbouring months (day 0 is the last day of the previous month). */
  function MakeDay(y: int, monthIndex: int, date: int): int {
    MonthFirstDay(12 * y + monthIndex) + date - 1
  }

  /** The day of `new Date('yyyy-MM-dd')`. */
  function DayNumber(d: Date): int {
    MakeDay(d.year, d.month - 1, d.day)
  }

  /** Absolute month index of a date, `12 * year + (month - 1)`. */
  function MonthIndexOf(d: Date): int {
    12 * d.year + d.month - 1
  }

  /** Chronological order on civil dates. */
  predicate Before(a: Date, b: Date) {
    a.year < b.year
    || (a.year == b.year && a.month < b.month)
    || (a.year == b.year && a.month == b.month && a.day < b.day)
  }

  /** Consecutive month starts are one month length apart, in both
      directions from the epoch. */
  lemma MonthFirstDayStep(k: int)
    ensures MonthFirstDay(k + 1) == MonthFirstDay(k) + MonthLength(k)
  {
  }

  /** The month index of a date names that date's own year and month. */
  lemma MonthIndexOfDate(d: Date)
    requires 1 <= d.month <= 12
    ensures MonthIndexOf(d) / 12 == d.year && MonthIndexOf(d) % 12 + 1 == d.month
    ensures MonthLength(MonthIndexOf(d)) == DaysInMonth(d.year, d.month)
  {
  }

  lemma {:induction false} MonthFirstDayMonotone(j: int, k: int)
    requires j <= k
    ensures MonthFirstDay(j) + 28 * (k - j) <= MonthFirstDay(k)
    decreases k - j
  {
    if j < k {
      MonthFirstDayMonotone(j, k - 1);
      MonthFirstDayStep(k - 1);
    }
  }

  /** A valid date lies in its own month: at or after that month's first day
      and before the next month's first day. */
  lemma DateInItsMonth(d: Date)
    requires ValidDate(d)
    ensures MonthFirstDay(MonthIndexOf(d)) <= DayNumber(d) < MonthFirstDay(MonthIndexOf(d) + 1)
    ensures DayNumber(d) == MonthFirstDay(MonthIndexOf(d)) + d.day - 1
  {
    MonthIndexOfDate(d);
    MonthFirstDayStep(MonthIndexOf(d));
  }

  /** Valid dates lie in a span of whole months exactly when their month
      index lies in the span's index range. */
  lemma MonthSpanMembership(d: Date, j: int, k: int)
    requires ValidDate(d)
    ensures MonthFirstDay(j) <= DayNumber(d) < MonthFirstDay(k + 1)
            <==> j <= MonthIndexOf(d) <= k
  {
    var i := MonthIndexOf(d);
    DateInItsMonth(d);
    if i < j {
      MonthFirstDayMonotone(i + 1, j);
    }
    if k < i {
      MonthFirstDayMonotone(k + 1, i);
    }
    if j <= i {
      MonthFirstDayMonotone(j, i);
    }
    if i <= k {
      MonthFirstDayMonotone(i + 1, k + 1);
    }
  }

  /** Day numbers order valid dates chronologically. */
  lemma DayNumberOrder(a: Date, b: Date)
    requires ValidDate(a) && ValidDate(b)
    ensures DayNumber(a) < DayNumber(b) <==> Before(a, b)
  {
    var i := MonthIndexOf(a);
    var k := MonthIndexOf(b);
    DateInItsMonth(a);
    DateInItsMonth(b);
    if i < k {
      MonthFirstDayMonotone(i + 1, k);
    } else if k < i {
      MonthFirstDayMonotone(k + 1, i);
    }
    assert i < k <==> a.year < b.year || (a.year == b.year && a.month < b.month);
    assert i == k <==> a.year == b.year && a.month == b.month;
  }

  /** Distinct valid dates have distinct day numbers. */
  lemma DayNumberInjective(a: Date, b: Date)
    requires ValidDate(a) && ValidDate(b)
    ensures DayNumber(a) == DayNumber(b) <==> a == b
  {
    DayNumberOrder(a, b);
    DayNumberOrder(b, a);
  }
}
