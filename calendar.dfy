/** Calendar dates as the engine sees them: a local-midnight JavaScript `Date`
    reduced to its year, month (1-12) and day of month. */
module Calendar {

  datatype Date = Date(year: int, month: int, day: int)

  /** Gregorian leap years. */
  predicate IsLeapYear(y: int) {
    y % 4 == 0 && (y % 100 != 0 || y % 400 == 0)
  }

  function DaysInMonth(y: int, m: int): (n: int)
    requires 1 <= m <= 12
    ensures 28 <= n <= 31
    ensures m == 2 ==> (n == 29 <==> IsLeapYear(y))
  {
    if m == 2 then (if IsLeapYear(y) then 29 else 28)
    else if m == 4 || m == 6 || m == 9 || m == 11 then 30
    else 31
  }

  /** A date that a JavaScript `Date` can denote (no overflowed day or month). */
  predicate Valid(d: Date) {
    1 <= d.month <= 12 && 1 <= d.day <= DaysInMonth(d.year, d.month)
  }

  /** Consecutive calendar months have consecutive indices. */
  function MonthIndex(d: Date): int {
    d.year * 12 + d.month - 1
  }

  /** `a < b` on two dates: an earlier month, or the same month and an earlier day. */
  predicate Before(a: Date, b: Date) {
    MonthIndex(a) < MonthIndex(b) || (MonthIndex(a) == MonthIndex(b) && a.day < b.day)
  }

  /** `a <= b` on two dates. */
  predicate AtOrBefore(a: Date, b: Date) {
    !Before(b, a)
  }

  /** On valid dates the order above is the lexicographic order of (year, month, day). */
  lemma BeforeIsLexicographic(a: Date, b: Date)
    requires Valid(a) && Valid(b)
    ensures Before(a, b) <==>
              a.year < b.year || (a.year == b.year && (a.month < b.month || (a.month == b.month && a.day < b.day)))
  {
  }

  /** `setFullYear(getFullYear() + n)`: the same month and day n years later,
      except that 29 February of a year that is not leap rolls over to 1 March. */
  function AddYears(d: Date, n: int): (r: Date)
    requires Valid(d)
    ensures Valid(r) && r.year == d.year + n
  {
    if d.month == 2 && d.day == 29 && !IsLeapYear(d.year + n) then Date(d.year + n, 3, 1)
    else Date(d.year + n, d.month, d.day)
  }

  /** AddYears moves by exactly 12n months, or by one month more when 29 February rolls over. */
  lemma AddYearsShape(d: Date, n: int)
    requires Valid(d)
    ensures var r := AddYears(d, n);
            (MonthIndex(r) == MonthIndex(d) + 12 * n && r.day == d.day) ||
            (d.month == 2 && d.day == 29 && MonthIndex(r) == MonthIndex(d) + 12 * n + 1 && r.day == 1)
  {
  }

  /** The first day of the month of d (`new Date(y, m, 1)`). */
  function FirstOfMonth(d: Date): (r: Date)
    requires Valid(d)
    ensures Valid(r) && r.day == 1 && MonthIndex(r) == MonthIndex(d)
  {
    Date(d.year, d.month, 1)
  }

  /** `setMonth(getMonth() + 1)` on the first day of a month. */
  function NextMonth(d: Date): (r: Date)
    requires Valid(d) && d.day == 1
    ensures Valid(r) && r.day == 1 && MonthIndex(r) == MonthIndex(d) + 1
  {
    if d.month == 12 then Date(d.year + 1, 1, 1) else Date(d.year, d.month + 1, 1)
  }

  /** `new Date(y, m, 0).getDate()`: the length of the month before the month of d. */
  function DaysInPreviousMonth(d: Date): (n: int)
    requires Valid(d)
    ensures 28 <= n <= 31
  {
    if d.month == 1 then DaysInMonth(d.year - 1, 12) else DaysInMonth(d.year, d.month - 1)
  }

  /** Two valid dates in the same month agree on the length of the month before it. */
  lemma SameMonthSamePrevious(a: Date, b: Date)
    requires Valid(a) && Valid(b) && MonthIndex(a) == MonthIndex(b)
    ensures a.year == b.year && a.month == b.month
    ensures DaysInPreviousMonth(a) == DaysInPreviousMonth(b)
  {
  }

  /** The month before the month after d's month is d's month. */
  lemma PreviousOfNextMonth(a: Date, b: Date)
    requires Valid(a) && Valid(b) && MonthIndex(b) == MonthIndex(a) + 1
    ensures DaysInPreviousMonth(b) == DaysInMonth(a.year, a.month)
  {
  }
}
