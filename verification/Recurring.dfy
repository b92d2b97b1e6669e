/** Run dates of a recurring invoice (internal/modules/recurring/recurring.go:39-79). */
module RunDates {
  import opened Calendar

  datatype Frequency = Weekly | Monthly | Quarterly | Yearly

  function MonthsPer(f: Frequency): nat { if f == Quarterly then 3 else if f == Yearly then 12 else 1 }

  /** Next: one step on from a date. */
  function Next(d: Date, f: Frequency, n: nat): (r: Date)
    requires IsDate(d)
    ensures IsDate(r)
  {
    match f
    case Weekly => AddDays(d, 7 * n)
    case Quarterly => AddMonths(d, 3 * n)
    case Yearly => AddMonths(d, 12 * n)
    case Monthly => AddMonths(d, n)
  }

  /** Nth: the k-th run date, counted from the anchor. */
  function Nth(anchor: Date, f: Frequency, every: nat, k: nat): (r: Date)
    requires IsDate(anchor)
    ensures IsDate(r)
  {
    match f
    case Weekly => AddDays(anchor, 7 * every * k)
    case Quarterly => AddMonths(anchor, 3 * every * k)
    case Yearly => AddMonths(anchor, 12 * every * k)
    case Monthly => AddMonths(anchor, every * k)
  }

  /** A weekly run falls every * k weeks after the anchor, so always on the anchor's day of the week; a step is as long. */
  lemma {:induction false} WeeksLand(anchor: Date, every: nat, k: nat)
    requires IsDate(anchor)
    ensures DayNumber(Nth(anchor, Weekly, every, k)) == DayNumber(anchor) + 7 * every * k
    ensures DayNumber(Nth(anchor, Weekly, every, k)) % 7 == DayNumber(anchor) % 7
    ensures DayNumber(Next(anchor, Weekly, every)) == DayNumber(anchor) + 7 * every
  {
    AddDaysCounts(anchor, 7 * every * k);
    AddDaysCounts(anchor, 7 * every);
    WholeWeeks(DayNumber(anchor), every, k);
  }

  lemma {:induction false} WholeWeeks(day: int, every: nat, k: nat)
    ensures (day + 7 * every * k) % 7 == day % 7
  {
    var n := every * k;
    assert 7 * every * k == 7 * n;
  }

  /** A monthly run lands every * k months after the anchor, a quarterly run three times and a yearly run twelve times as many;
      on the anchor's day, or on the last of the month where that is earlier. */
  lemma {:induction false} MonthsLand(anchor: Date, every: nat, k: nat)
    requires IsDate(anchor)
    ensures LandsAfter(anchor, Nth(anchor, Monthly, every, k), every * k)
    ensures LandsAfter(anchor, Nth(anchor, Quarterly, every, k), 3 * every * k)
    ensures LandsAfter(anchor, Nth(anchor, Yearly, every, k), 12 * every * k)
    ensures LandsAfter(anchor, Next(anchor, Monthly, every), every)
    ensures LandsAfter(anchor, Next(anchor, Quarterly, every), 3 * every)
    ensures LandsAfter(anchor, Next(anchor, Yearly, every), 12 * every)
  {
    AddMonthsAfter(anchor, every * k);
    AddMonthsAfter(anchor, 3 * every * k);
    AddMonthsAfter(anchor, 12 * every * k);
    AddMonthsAfter(anchor, every);
    AddMonthsAfter(anchor, 3 * every);
    AddMonthsAfter(anchor, 12 * every);
  }

  /** The date d lies n months after the anchor. */
  predicate LandsAfter(anchor: Date, d: Date, n: int) {
    && IsDate(d) && 12 * d.year + d.month == 12 * anchor.year + anchor.month + n
    && (d.day == anchor.day || (d.day < anchor.day && d.day == DaysIn(d.year, d.month)))
  }

  lemma {:induction false} AddMonthsAfter(d: Date, n: nat)
    requires IsDate(d)
    ensures LandsAfter(d, AddMonths(d, n), n)
  {}

  /** Run k of a month rhythm lands exactly step * k months after the anchor, on the anchor's day or the month's last. */
  lemma {:induction false} NthLands(anchor: Date, f: Frequency, every: nat, k: nat)
    requires IsDate(anchor) && f != Weekly
    ensures var i := MonthIndex(anchor) + MonthsPer(f) * every * k;
            MonthIndex(Nth(anchor, f, every, k)) == i && Nth(anchor, f, every, k).day == MinDay(anchor.day, LastDay(i))
  {
    AddMonthsLands(anchor, MonthsPer(f) * every * k);
  }

  lemma {:induction false} StepGrows(s: nat, k: nat)
    requires s > 0
    ensures s * (k + 1) == s * k + s > s * k
  {}

  /** Run dates strictly increase. */
  lemma {:induction false} NthIncreases(anchor: Date, f: Frequency, every: nat, k: nat)
    requires IsDate(anchor) && every > 0
    ensures DayNumber(Nth(anchor, f, every, k)) < DayNumber(Nth(anchor, f, every, k + 1))
  {
    if f == Weekly {
      StepGrows(7 * every, k);
      AddDaysCounts(anchor, 7 * every * k);
      AddDaysCounts(anchor, 7 * every * (k + 1));
    } else {
      StepGrows(MonthsPer(f) * every, k);
      NthLands(anchor, f, every, k);
      NthLands(anchor, f, every, k + 1);
      LaterMonthIsLater(Nth(anchor, f, every, k), Nth(anchor, f, every, k + 1));
    }
  }

  function RunDay(anchor: Date, f: Frequency, every: nat, k: nat): int
    requires IsDate(anchor)
  {
    DayNumber(Nth(anchor, f, every, k))
  }

  lemma {:induction false} NthOrdered(anchor: Date, f: Frequency, every: nat, j: nat, k: nat)
    requires IsDate(anchor) && every > 0 && j <= k
    ensures RunDay(anchor, f, every, j) + (k - j) <= RunDay(anchor, f, every, k)
    decreases k
  {
    if j < k {
      NthOrdered(anchor, f, every, j, k - 1);
      NthIncreases(anchor, f, every, k - 1);
    }
  }

  // ---- stepping from date to date -----------------------------------------------------------

  /** Next applied k times: where a schedule would be if it stepped from its previous date. */
  function Stepped(anchor: Date, f: Frequency, every: nat, k: nat): (r: Date)
    requires IsDate(anchor)
    ensures IsDate(r)
  {
    if k == 0 then anchor else Next(Stepped(anchor, f, every, k - 1), f, every)
  }

  lemma {:induction false} StepGrows2(s: nat, k: nat)
    ensures s * (k + 1) == s * k + s
  {}

  /** The smallest day among the first k + 1 run dates. */
  function LowestDay(anchor: Date, f: Frequency, every: nat, k: nat): int
    requires IsDate(anchor)
  {
    if k == 0 then anchor.day else MinDay(LowestDay(anchor, f, every, k - 1), Nth(anchor, f, every, k).day)
  }

  lemma {:induction false} LowestIsLowest(anchor: Date, f: Frequency, every: nat, k: nat)
    requires IsDate(anchor) && f != Weekly
    ensures forall j :: 0 <= j <= k ==> LowestDay(anchor, f, every, k) <= Nth(anchor, f, every, j).day
    ensures exists j :: 0 <= j <= k && LowestDay(anchor, f, every, k) == Nth(anchor, f, every, j).day
  {
    if k == 0 {
      assert AddMonths(anchor, 0) == anchor;
      assert LowestDay(anchor, f, every, 0) == Nth(anchor, f, every, 0).day;
    } else {
      LowestIsLowest(anchor, f, every, k - 1);
      assert LowestDay(anchor, f, every, k) == Nth(anchor, f, every, k).day || LowestDay(anchor, f, every, k) == LowestDay(anchor, f, every, k - 1);
    }
  }

  lemma {:induction false} StepLands(prev: Date, f: Frequency, every: nat, anchorDay: int, i: int)
    requires IsDate(prev) && f != Weekly && prev.day <= anchorDay && MonthIndex(prev) + MonthsPer(f) * every == i
    ensures MonthIndex(Next(prev, f, every)) == i && Next(prev, f, every).day == MinDay(prev.day, MinDay(anchorDay, LastDay(i)))
  {
    NextIsMonths(prev, f, every);
    AddMonthsLands(prev, MonthsPer(f) * every);
  }

  /** Stepping visits the same months, but once a short month has clamped the day it stays clamped. */
  lemma {:induction false} SteppedLands(anchor: Date, f: Frequency, every: nat, k: nat)
    requires IsDate(anchor) && f != Weekly
    ensures MonthIndex(Stepped(anchor, f, every, k)) == MonthIndex(anchor) + MonthsPer(f) * every * k
    ensures Stepped(anchor, f, every, k).day == LowestDay(anchor, f, every, k) <= anchor.day
  {
    if k > 0 {
      SteppedLands(anchor, f, every, k - 1);
      SteppedNext(anchor, f, every, k);
    }
  }

  lemma {:induction false} SteppedNext(anchor: Date, f: Frequency, every: nat, k: nat)
    requires IsDate(anchor) && f != Weekly && k > 0
    requires MonthIndex(Stepped(anchor, f, every, k - 1)) == MonthIndex(anchor) + MonthsPer(f) * every * (k - 1)
    requires Stepped(anchor, f, every, k - 1).day == LowestDay(anchor, f, every, k - 1) <= anchor.day
    ensures MonthIndex(Stepped(anchor, f, every, k)) == MonthIndex(anchor) + MonthsPer(f) * every * k
    ensures Stepped(anchor, f, every, k).day == LowestDay(anchor, f, every, k) <= anchor.day
  {
    var s := MonthsPer(f) * every;
    StepGrows2(s, k - 1);
    LowestNext(anchor, f, every, k);
    StepLands(Stepped(anchor, f, every, k - 1), f, every, anchor.day, MonthIndex(anchor) + s * k);
  }

  lemma {:induction false} LowestNext(anchor: Date, f: Frequency, every: nat, k: nat)
    requires IsDate(anchor) && f != Weekly && k > 0
    ensures LowestDay(anchor, f, every, k)
      == MinDay(LowestDay(anchor, f, every, k - 1), MinDay(anchor.day, LastDay(MonthIndex(anchor) + MonthsPer(f) * every * k)))
  {
    NthLands(anchor, f, every, k);
  }

  lemma {:induction false} NextIsMonths(d: Date, f: Frequency, every: nat)
    requires IsDate(d) && f != Weekly
    ensures Next(d, f, every) == AddMonths(d, MonthsPer(f) * every)
  {}

  /** Counting from the anchor and stepping agree at run k exactly when no earlier run was clamped below run k's day. */
  lemma {:induction false} SteppingAgrees(anchor: Date, f: Frequency, every: nat, k: nat)
    requires IsDate(anchor) && f != Weekly
    ensures Stepped(anchor, f, every, k) == Nth(anchor, f, every, k) <==> forall j :: 0 <= j < k ==> Nth(anchor, f, every, k).day <= Nth(anchor, f, every, j).day
  {
    var a, b, low := Stepped(anchor, f, every, k), Nth(anchor, f, every, k), LowestDay(anchor, f, every, k);
    SteppedLands(anchor, f, every, k);
    LowestIsLowest(anchor, f, every, k);
    NthLands(anchor, f, every, k);
    SameMonthSameDay(a, b);
    assert a == b <==> low == b.day;
  }

  lemma {:induction false} SameMonthSameDay(a: Date, b: Date)
    requires IsDate(a) && IsDate(b) && MonthIndex(a) == MonthIndex(b)
    ensures a == b <==> a.day == b.day
  {}

  /** So on day 28 or earlier stepping never drifts. */
  lemma {:induction false} EarlyAnchorsNeverDrift(anchor: Date, f: Frequency, every: nat, k: nat)
    requires IsDate(anchor) && (f == Weekly || anchor.day <= 28)
    ensures Stepped(anchor, f, every, k) == Nth(anchor, f, every, k)
  {
    if f == Weekly {
      WeeksNeverDrift(anchor, every, k);
    } else {
      forall j | 0 <= j <= k
        ensures Nth(anchor, f, every, j).day == anchor.day
      {
        NthLands(anchor, f, every, j);
      }
      SteppingAgrees(anchor, f, every, k);
    }
  }

  lemma {:induction false} AddDaysTwice(d: Date, a: nat, b: nat)
    requires IsDate(d)
    ensures AddDays(AddDays(d, a), b) == AddDays(d, a + b)
  {
    if b > 0 { AddDaysTwice(d, a, b - 1); }
  }

  lemma {:induction false} WeeksNeverDrift(anchor: Date, every: nat, k: nat)
    requires IsDate(anchor)
    ensures Stepped(anchor, Weekly, every, k) == Nth(anchor, Weekly, every, k)
  {
    if k > 0 {
      WeeksNeverDrift(anchor, every, k - 1);
      StepGrows2(7 * every, k - 1);
      AddDaysTwice(anchor, 7 * every * (k - 1), 7 * every);
    }
  }

  /** On the 31st it does: after February, stepping stays on the 28th. */
  lemma {:induction false} LateAnchorsDrift()
    ensures var anchor := Date(2026, 1, 31);
            Nth(anchor, Monthly, 1, 2) == Date(2026, 3, 31) && Stepped(anchor, Monthly, 1, 2) == Date(2026, 3, 28)
  {
    var anchor := Date(2026, 1, 31);
    assert Stepped(anchor, Monthly, 1, 1) == Next(Stepped(anchor, Monthly, 1, 0), Monthly, 1) == Date(2026, 2, 28);
  }
}
