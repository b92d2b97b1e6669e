/** The proleptic Gregorian calendar, as far as schedules need it: day numbers, and months with their ends. */
module Calendar {

  datatype Date = Date(year: int, month: int, day: int)

  predicate IsLeap(y: int) { y % 4 == 0 && (y % 100 != 0 || y % 400 == 0) }

  function DaysIn(y: int, m: int): (n: int)
    requires 1 <= m <= 12
    ensures 28 <= n <= 31
  {
    if m == 2 then (if IsLeap(y) then 29 else 28)
    else if m == 4 || m == 6 || m == 9 || m == 11 then 30 else 31
  }

  /** Thirty days have September, April, June and November; February has 28, and 29 in a leap year. */
  lemma {:induction false} MonthLengths(y: int, m: int)
    requires 1 <= m <= 12
    ensures m in {4, 6, 9, 11} ==> DaysIn(y, m) == 30
    ensures m in {1, 3, 5, 7, 8, 10, 12} ==> DaysIn(y, m) == 31
    ensures DaysIn(y, 2) == 29 <==> y % 400 == 0 || (y % 4 == 0 && y % 100 != 0)
  {
    LeapYears(y);
  }

  lemma {:induction false} LeapYears(y: int)
    ensures IsLeap(y) <==> y % 400 == 0 || (y % 4 == 0 && y % 100 != 0)
  {
    if y % 400 == 0 { assert y == 4 * (100 * (y / 400)); }
  }

  predicate IsDate(d: Date) { 1 <= d.month <= 12 && 1 <= d.day <= DaysIn(d.year, d.month) }

  /** Days before the first of January of year y. */
  function DaysBeforeYear(y: int): int { 365 * (y - 1) + (y - 1) / 4 - (y - 1) / 100 + (y - 1) / 400 }

  function DaysBeforeMonth(y: int, m: int): int
    requires 1 <= m <= 13
    decreases m
  {
    if m == 1 then 0 else DaysBeforeMonth(y, m - 1) + DaysIn(y, m - 1)
  }

  /** The day count: dates are compared, and weeks are added, on it. */
  function DayNumber(d: Date): int
    requires IsDate(d)
  {
    DaysBeforeYear(d.year) + DaysBeforeMonth(d.year, d.month) + d.day
  }

  predicate Earlier(a: Date, b: Date) {
    a.year < b.year || (a.year == b.year && (a.month < b.month || (a.month == b.month && a.day < b.day)))
  }

  lemma {:induction false} By4(y: int)
    ensures y / 4 == (y - 1) / 4 + if y % 4 == 0 then 1 else 0
  {}

  lemma {:induction false} By100(y: int)
    ensures y / 100 == (y - 1) / 100 + if y % 100 == 0 then 1 else 0
    ensures y % 100 == 0 ==> y % 4 == 0
  {}

  lemma {:induction false} By400(y: int)
    ensures y / 400 == (y - 1) / 400 + if y % 400 == 0 then 1 else 0
    ensures y % 400 == 0 ==> y % 100 == 0
  {}

  lemma {:induction false} YearLength(y: int)
    ensures DaysBeforeYear(y + 1) == DaysBeforeYear(y) + DaysBeforeMonth(y, 13)
  {
    By4(y); By100(y); By400(y);
  }

  lemma {:induction false} MonthsAddUp(y: int, a: int, b: int)
    requires 1 <= a <= b <= 13
    ensures DaysBeforeMonth(y, a) <= DaysBeforeMonth(y, b)
    ensures a < b ==> DaysBeforeMonth(y, a) + DaysIn(y, a) <= DaysBeforeMonth(y, b)
    decreases b
  {
    if a < b { MonthsAddUp(y, a, b - 1); }
  }

  /** The day number orders dates the way the calendar does. */
  lemma {:induction false} EarlierIsSmaller(a: Date, b: Date)
    requires IsDate(a) && IsDate(b)
    ensures Earlier(a, b) <==> DayNumber(a) < DayNumber(b)
    ensures a == b <==> DayNumber(a) == DayNumber(b)
  {
    if Earlier(a, b) { EarlierOneWay(a, b); }
    if Earlier(b, a) { EarlierOneWay(b, a); }
  }

  lemma {:induction false} EarlierOneWay(a: Date, b: Date)
    requires IsDate(a) && IsDate(b) && Earlier(a, b)
    ensures DayNumber(a) < DayNumber(b)
  {
    if a.year < b.year {
      MonthsAddUp(a.year, a.month, 13);
      MonthsAddUp(b.year, 1, b.month);
      YearLength(a.year);
    } else {
      MonthsAddUp(a.year, a.month, b.month);
    }
  }

  function NextDay(d: Date): (r: Date)
    requires IsDate(d)
    ensures IsDate(r)
  {
    if d.day < DaysIn(d.year, d.month) then d.(day := d.day + 1)
    else if d.month < 12 then Date(d.year, d.month + 1, 1)
    else Date(d.year + 1, 1, 1)
  }

  lemma {:induction false} NextDayIsOneMore(d: Date)
    requires IsDate(d)
    ensures DayNumber(NextDay(d)) == DayNumber(d) + 1
  {
    if d.month == 12 && d.day == 31 { YearLength(d.year); }
  }

  /** AddDate(0, 0, n). */
  function AddDays(d: Date, n: nat): (r: Date)
    requires IsDate(d)
    ensures IsDate(r)
  {
    if n == 0 then d else NextDay(AddDays(d, n - 1))
  }

  lemma {:induction false} AddDaysCounts(d: Date, n: nat)
    requires IsDate(d)
    ensures DayNumber(AddDays(d, n)) == DayNumber(d) + n
  {
    if n > 0 {
      AddDaysCounts(d, n - 1);
      NextDayIsOneMore(AddDays(d, n - 1));
    }
  }

  /** Months since year 0. */
  function MonthIndex(d: Date): int { 12 * d.year + d.month - 1 }

  /** The last day of the month with a given index. */
  function LastDay(i: int): int { DaysIn(i / 12, i % 12 + 1) }

  function MinDay(a: int, b: int): int { if a < b then a else b }

  /** addMonths: n months on, clamped to the last day of a shorter month. */
  function AddMonths(d: Date, n: nat): (r: Date)
    requires IsDate(d)
    ensures IsDate(r)
  {
    var total := d.month - 1 + n;
    var y, m := d.year + total / 12, total % 12 + 1;
    Date(y, m, if d.day > DaysIn(y, m) then DaysIn(y, m) else d.day)
  }

  /** It lands n months on, on the same day or the month's last. */
  lemma {:induction false} AddMonthsLands(d: Date, n: nat)
    requires IsDate(d)
    ensures MonthIndex(AddMonths(d, n)) == MonthIndex(d) + n
    ensures AddMonths(d, n).day == MinDay(d.day, LastDay(MonthIndex(d) + n))
  {
    var total, i := d.month - 1 + n, MonthIndex(d) + n;
    assert i == 12 * d.year + total && i / 12 == d.year + total / 12 && i % 12 == total % 12;
  }

  lemma {:induction false} LaterMonthIsLater(a: Date, b: Date)
    requires IsDate(a) && IsDate(b) && MonthIndex(a) < MonthIndex(b)
    ensures DayNumber(a) < DayNumber(b)
  {
    EarlierOneWay(a, b);
  }

}
