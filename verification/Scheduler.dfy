/** The worker (internal/modules/recurring/recurring.go). */
module Scheduler {
  import opened Wrappers
  import opened Calendar
  import opened RunDates
  import opened Sorting
  import opened Sequences

  const MAX_CATCH_UP: nat := 12

  datatype Schedule = Schedule(anchor: Date, freq: Frequency, every: nat, next: Date, end: Option<Date>, autoFinalize: bool, active: bool, runCount: nat)

  /** What happens while one period is run: the clone of the invoice, its finalizing, and the two writes after it. */
  datatype Attempt = ConvertFails | FinalizeFails | Created

  datatype Luck = Luck(attempt: Attempt, recordOk: bool, advanceOk: bool)

  /** A document cloned for a period; not whole when it was left behind as a draft because finalizing failed. */
  datatype Doc = Doc(schedule: int, period: nat, whole: bool)

  function RunDate(s: Schedule, k: nat): (d: Date)
    requires IsDate(s.anchor)
    ensures IsDate(d)
  {
    Nth(s.anchor, s.freq, s.every, k)
  }

  predicate NotAfter(a: Date, b: Date)
    requires IsDate(a) && IsDate(b)
  {
    !Earlier(b, a)
  }

  predicate Within(s: Schedule, d: Date)
    requires IsDate(d) && (s.end.Some? ==> IsDate(s.end.value))
  {
    s.end.Some? ==> NotAfter(d, s.end.value)
  }

  predicate ScheduleOk(s: Schedule) {
    IsDate(s.anchor) && 1 <= s.every <= 24 && (s.end.Some? ==> IsDate(s.end.value)) && s.next == RunDate(s, s.runCount)
  }

  /** Period k is due: its date has come and lies within the schedule's end. */
  predicate IsDue(s: Schedule, k: nat, today: Date)
    requires IsDate(s.anchor) && IsDate(today) && (s.end.Some? ==> IsDate(s.end.value))
  {
    NotAfter(RunDate(s, k), today) && Within(s, RunDate(s, k))
  }

  /** How many periods from k on are due. */
  function DueFrom(s: Schedule, k: nat, today: Date): (n: nat)
    requires IsDate(s.anchor) && s.every > 0 && IsDate(today) && (s.end.Some? ==> IsDate(s.end.value))
    ensures forall j :: j >= k ==> (IsDue(s, j, today) <==> j < k + n)
    decreases DayNumber(today) - DayNumber(RunDate(s, k))
  {
    LaterIsNotDue(s, k, today);
    if IsDue(s, k, today) then
      EarlierIsSmaller(today, RunDate(s, k));
      NthIncreases(s.anchor, s.freq, s.every, k);
      1 + DueFrom(s, k + 1, today)
    else 0
  }

  lemma {:induction false} DueInDays(s: Schedule, k: nat, today: Date)
    requires IsDate(s.anchor) && IsDate(today) && (s.end.Some? ==> IsDate(s.end.value))
    ensures IsDue(s, k, today) <==>
      DayNumber(RunDate(s, k)) <= DayNumber(today) && (s.end.Some? ==> DayNumber(RunDate(s, k)) <= DayNumber(s.end.value))
  {
    EarlierIsSmaller(today, RunDate(s, k));
    if s.end.Some? { EarlierIsSmaller(s.end.value, RunDate(s, k)); }
  }

  lemma {:induction false} LaterIsNotDue(s: Schedule, k: nat, today: Date)
    requires IsDate(s.anchor) && s.every > 0 && IsDate(today) && (s.end.Some? ==> IsDate(s.end.value))
    ensures !IsDue(s, k, today) ==> forall j :: j >= k ==> !IsDue(s, j, today)
  {
    forall j: nat | j >= k && IsDue(s, j, today)
      ensures IsDue(s, k, today)
    {
      NthOrdered(s.anchor, s.freq, s.every, k, j);
      EarlierIsSmaller(today, RunDate(s, k));
      EarlierIsSmaller(today, RunDate(s, j));
      if s.end.Some? {
        EarlierIsSmaller(s.end.value, RunDate(s, k));
        EarlierIsSmaller(s.end.value, RunDate(s, j));
      }
    }
  }

  function Effective(s: Schedule, a: Attempt): Attempt { if a == FinalizeFails && !s.autoFinalize then Created else a }

  predicate Fine(s: Schedule, l: Luck) { Effective(s, l.attempt) == Created && l.recordOk && l.advanceOk }

  /** A document was made but the database never heard of the period being done. */
  predicate Lost(s: Schedule, l: Luck) { Effective(s, l.attempt) == Created && !(l.recordOk && l.advanceOk) }

  function DocsOf(id: int, k: nat, a: Attempt): seq<Doc> {
    if a == ConvertFails then [] else [Doc(id, k, a == Created)]
  }

  /** The whole documents of n consecutive periods. */
  function Wholes(id: int, k: nat, n: nat): seq<Doc> { if n == 0 then [] else Wholes(id, k, n - 1) + [Doc(id, k + n - 1, true)] }

  /** The schedule after n more periods. */
  function Advanced(s: Schedule, n: nat): Schedule
    requires IsDate(s.anchor) && (s.end.Some? ==> IsDate(s.end.value))
  {
    if n == 0 then s
    else s.(runCount := s.runCount + n, next := RunDate(s, s.runCount + n), active := Within(s, RunDate(s, s.runCount + n)))
  }

  function Least(a: nat, b: nat): nat { if a < b then a else b }

  // ---- documents per period -----------------------------------------------------------------

  function WholeDocs(docs: seq<Doc>, id: int, k: nat): nat {
    if docs == [] then 0 else
    WholeDocs(docs[..|docs| - 1], id, k) + if docs[|docs| - 1] == Doc(id, k, true) then 1 else 0
  }

  lemma {:induction false} WholeDocsConcat(a: seq<Doc>, b: seq<Doc>, id: int, k: nat)
    ensures WholeDocs(a + b, id, k) == WholeDocs(a, id, k) + WholeDocs(b, id, k)
  {
    if b == [] {
      assert a + b == a;
    } else {
      WholeDocsConcat(a, b[..|b| - 1], id, k);
      assert (a + b)[..|a + b| - 1] == a + b[..|b| - 1];
    }
  }

  lemma {:induction false} WholeDocsOfWholes(id: int, from: nat, n: nat, q: int, k: nat)
    ensures WholeDocs(Wholes(id, from, n), q, k) == if q == id && from <= k < from + n then 1 else 0
  {
    if n > 0 {
      var w := Wholes(id, from, n);
      WholeDocsOfWholes(id, from, n - 1, q, k);
      assert w[..|w| - 1] == Wholes(id, from, n - 1);
    }
  }

  lemma {:induction false} WholesShape(id: int, k: nat, n: nat)
    ensures |Wholes(id, k, n)| == n && forall d :: d in Wholes(id, k, n) ==> d.schedule == id && d.whole && k <= d.period < k + n
  {
    if n > 0 { WholesShape(id, k, n - 1); }
  }

  lemma {:induction false} NoDocsYet(docs: seq<Doc>, id: int)
    requires forall d :: d in docs ==> d.schedule < id
    ensures forall k: nat :: WholeDocs(docs, id, k) == 0
  {
    if docs != [] {
      assert docs[|docs| - 1] in docs;
      NoDocsYet(docs[..|docs| - 1], id);
    }
  }

  lemma {:induction false} RunZero(s: Schedule)
    requires IsDate(s.anchor)
    ensures RunDate(s, 0) == s.anchor
  {
    assert AddMonths(s.anchor, 0) == s.anchor;
  }

  /** n periods done with their documents, and after them documents that count alike among the lost. */
  lemma {:induction false} BooksBalance(docs: seq<Doc>, lost: seq<Doc>, id: int, from: nat, n: nat, x: seq<Doc>, y: seq<Doc>, q: int, k: nat, run: nat)
    requires WholeDocs(docs, q, k) == (if k < run then 1 else 0) + WholeDocs(lost, q, k)
    requires WholeDocs(x, q, k) == WholeDocs(y, q, k) && (q == id ==> run == from)
    ensures WholeDocs(docs + Wholes(id, from, n) + x, q, k) == (if k < (if q == id then run + n else run) then 1 else 0) + WholeDocs(lost + y, q, k)
  {
    WholeDocsConcat(docs + Wholes(id, from, n), x, q, k);
    WholeDocsConcat(docs, Wholes(id, from, n), q, k);
    WholeDocsConcat(lost, y, q, k);
    WholeDocsOfWholes(id, from, n, q, k);
  }

  lemma {:induction false} OneDoc(d: Doc, q: int, k: nat)
    ensures WholeDocs([d], q, k) == if d == Doc(q, k, true) then 1 else 0
    ensures WholeDocs([], q, k) == 0
  {
    assert [d][..0] == [];
  }

  // ---- one catch-up, as a function of the books ---------------------------------------------

  /** What the worker writes: schedules, documents, and (for the proof) the documents whose period was not stored as done. */
  datatype Books = Books(schedules: map<int, Schedule>, documents: seq<Doc>, lost: seq<Doc>)

  predicate DatesOk(d: Schedule) { IsDate(d.anchor) && IsDate(d.next) && (d.end.Some? ==> IsDate(d.end.value)) }

  function NextRun(d: Schedule): (r: Schedule)
    requires DatesOk(d)
    ensures DatesOk(r)
  {
    d.(runCount := d.runCount + 1, next := Nth(d.anchor, d.freq, d.every, d.runCount + 1))
  }

  /** advance: the run date and count are stored, and a date past the end switches the schedule off. */
  function Stored(was: Schedule, d: Schedule): Schedule
    requires DatesOk(d)
  {
    was.(next := d.next, runCount := d.runCount, active := Within(d, d.next))
  }

  /** One period: the document, the record of the attempt, and the schedule moved on if nothing went wrong. */
  function Period(b: Books, id: int, d: Schedule, l: Luck): Books
    requires DatesOk(d) && id in b.schedules
  {
    Books(if Fine(d, l) then b.schedules[id := Stored(b.schedules[id], NextRun(d))] else b.schedules,
          b.documents + DocsOf(id, d.runCount, Effective(d, l.attempt)),
          b.lost + if Lost(d, l) then [Doc(id, d.runCount, true)] else [])
  }

  datatype Report = Report(books: Books, created: nat, err: bool)

  predicate Runs(d: Schedule, today: Date)
    requires DatesOk(d) && IsDate(today)
  {
    NotAfter(d.next, today) && Within(d, d.next)
  }

  /** The loop with `left` periods of its bound to go. */
  function CatchUpFrom(b: Books, id: int, d: Schedule, left: nat, created: nat, today: Date, luck: nat -> Luck): Report
    requires DatesOk(d) && IsDate(today) && id in b.schedules
    decreases left
  {
    var l := luck(d.runCount);
    if left == 0 || !Runs(d, today) then Report(b, created, false)
    else if Fine(d, l) then CatchUpFrom(Period(b, id, d, l), id, NextRun(d), left - 1, created + 1, today, luck)
    else Report(Period(b, id, d, l), created + (if l.recordOk && Lost(d, l) then 1 else 0), !l.recordOk || Lost(d, l))
  }

  lemma {:induction false} CatchUpGoesOn(b: Books, id: int, d: Schedule, left: nat, created: nat, today: Date, luck: nat -> Luck)
    requires DatesOk(d) && IsDate(today) && id in b.schedules && left > 0 && Runs(d, today)
    ensures var l := luck(d.runCount);
      CatchUpFrom(b, id, d, left, created, today, luck)
        == if Fine(d, l) then CatchUpFrom(Period(b, id, d, l), id, NextRun(d), left - 1, created + 1, today, luck)
           else Report(Period(b, id, d, l), created + (if l.recordOk && Lost(d, l) then 1 else 0), !l.recordOk || Lost(d, l))
  {}

  // ---- what it does -------------------------------------------------------------------------

  /** After n periods the next one is due and the bound not reached, so something must have gone wrong with it. */
  predicate Mishap(d: Schedule, left: nat, n: nat, today: Date)
    requires ScheduleOk(d) && IsDate(today)
  {
    n < left && IsDue(d, d.runCount + n, today)
  }

  /** Exactly n periods were done, all of them due, and then the bound, the calendar or a mishap stopped the loop. */
  ghost predicate StopsAfter(d: Schedule, left: nat, n: nat, today: Date, luck: nat -> Luck)
    requires ScheduleOk(d) && IsDate(today)
  {
    && n <= left
    && (forall k :: d.runCount <= k < d.runCount + n ==> IsDue(d, k, today) && Fine(d, luck(k)))
    && (Mishap(d, left, n, today) ==> !Fine(d, luck(d.runCount + n)))
  }

  /** The document a mishap leaves behind. */
  function Leftover(id: int, d: Schedule, left: nat, n: nat, today: Date, luck: nat -> Luck): seq<Doc>
    requires ScheduleOk(d) && IsDate(today)
  {
    if Mishap(d, left, n, today) then DocsOf(id, d.runCount + n, Effective(d, luck(d.runCount + n).attempt)) else []
  }

  function Unstored(id: int, d: Schedule, left: nat, n: nat, today: Date, luck: nat -> Luck): seq<Doc>
    requires ScheduleOk(d) && IsDate(today)
  {
    if Mishap(d, left, n, today) && Lost(d, luck(d.runCount + n)) then [Doc(id, d.runCount + n, true)] else []
  }

  lemma {:induction false} NextRunIsOk(d: Schedule, today: Date)
    requires ScheduleOk(d) && IsDate(today)
    ensures ScheduleOk(NextRun(d)) && (Runs(d, today) <==> IsDue(d, d.runCount, today))
    ensures forall k: nat :: IsDue(NextRun(d), k, today) == IsDue(d, k, today)
    ensures forall l :: Fine(NextRun(d), l) == Fine(d, l) && Lost(NextRun(d), l) == Lost(d, l) && Effective(NextRun(d), l.attempt) == Effective(d, l.attempt)
  {}

  lemma {:induction false} WholesFront(id: int, k: nat, n: nat)
    ensures Wholes(id, k, n + 1) == [Doc(id, k, true)] + Wholes(id, k + 1, n)
  {
    if n > 0 { WholesFront(id, k, n - 1); }
  }

  /** The number of periods done. */
  function PeriodsDone(d: Schedule, left: nat, today: Date, luck: nat -> Luck): nat
    requires DatesOk(d) && IsDate(today)
    decreases left
  {
    if left == 0 || !Runs(d, today) || !Fine(d, luck(d.runCount)) then 0 else 1 + PeriodsDone(NextRun(d), left - 1, today, luck)
  }

  lemma {:induction false} StopsWhereItShould(d: Schedule, left: nat, today: Date, luck: nat -> Luck)
    requires ScheduleOk(d) && IsDate(today)
    ensures StopsAfter(d, left, PeriodsDone(d, left, today, luck), today, luck)
    decreases left
  {
    NextRunIsOk(d, today);
    if left > 0 && Runs(d, today) && Fine(d, luck(d.runCount)) {
      StopsWhereItShould(NextRun(d), left - 1, today, luck);
    }
  }

  lemma {:induction false} MishapShifts(id: int, d: Schedule, left: nat, n: nat, today: Date, luck: nat -> Luck)
    requires ScheduleOk(d) && IsDate(today) && left > 0
    ensures ScheduleOk(NextRun(d))
    ensures Leftover(id, NextRun(d), left - 1, n, today, luck) == Leftover(id, d, left, n + 1, today, luck)
    ensures Unstored(id, NextRun(d), left - 1, n, today, luck) == Unstored(id, d, left, n + 1, today, luck)
  {
    NextRunIsOk(d, today);
  }

  /** The documents of n periods and of what stopped the run. */
  function DocumentsDone(id: int, d: Schedule, left: nat, n: nat, today: Date, luck: nat -> Luck): seq<Doc>
    requires ScheduleOk(d) && IsDate(today)
  {
    Wholes(id, d.runCount, n) + Leftover(id, d, left, n, today, luck)
  }

  lemma {:induction false} OneDocumentMore(id: int, d: Schedule, left: nat, n: nat, today: Date, luck: nat -> Luck)
    requires ScheduleOk(d) && IsDate(today) && left > 0
    ensures ScheduleOk(NextRun(d))
    ensures DocumentsDone(id, d, left, n + 1, today, luck) == [Doc(id, d.runCount, true)] + DocumentsDone(id, NextRun(d), left - 1, n, today, luck)
  {
    MishapShifts(id, d, left, n, today, luck);
    WholesFront(id, d.runCount, n);
    Assoc([Doc(id, d.runCount, true)], Wholes(id, d.runCount + 1, n), Leftover(id, d, left, n + 1, today, luck));
  }

  /** The documents afterwards: one whole document per period done, and what a mishap left. */
  lemma {:induction false} CatchUpDocuments(b: Books, id: int, d: Schedule, left: nat, created: nat, today: Date, luck: nat -> Luck)
    requires ScheduleOk(d) && IsDate(today) && id in b.schedules
    ensures CatchUpFrom(b, id, d, left, created, today, luck).books.documents == b.documents + DocumentsDone(id, d, left, PeriodsDone(d, left, today, luck), today, luck)
    decreases left
  {
    NextRunIsOk(d, today);
    var l := luck(d.runCount);
    if left > 0 && Runs(d, today) && Fine(d, l) {
      CatchUpDocuments(Period(b, id, d, l), id, NextRun(d), left - 1, created + 1, today, luck);
      OneDocumentMore(id, d, left, PeriodsDone(NextRun(d), left - 1, today, luck), today, luck);
      Assoc(b.documents, [Doc(id, d.runCount, true)], DocumentsDone(id, NextRun(d), left - 1, PeriodsDone(NextRun(d), left - 1, today, luck), today, luck));
    }
  }

  lemma {:induction false} CatchUpLost(b: Books, id: int, d: Schedule, left: nat, created: nat, today: Date, luck: nat -> Luck)
    requires ScheduleOk(d) && IsDate(today) && id in b.schedules
    ensures CatchUpFrom(b, id, d, left, created, today, luck).books.lost
         == b.lost + Unstored(id, d, left, PeriodsDone(d, left, today, luck), today, luck)
    decreases left
  {
    NextRunIsOk(d, today);
    var l := luck(d.runCount);
    if left > 0 && Runs(d, today) && Fine(d, l) {
      CatchUpLost(Period(b, id, d, l), id, NextRun(d), left - 1, created + 1, today, luck);
      MishapShifts(id, d, left, PeriodsDone(NextRun(d), left - 1, today, luck), today, luck);
    }
  }

  /** What a mishap leaves: nothing, a whole document that was not stored, or a draft. */
  lemma {:induction false} WhatAMishapLeaves(id: int, d: Schedule, left: nat, n: nat, today: Date, luck: nat -> Luck)
    requires ScheduleOk(d) && IsDate(today) && StopsAfter(d, left, n, today, luck)
    ensures var x, y := Leftover(id, d, left, n, today, luck), Unstored(id, d, left, n, today, luck);
      (x == y == []) || (x == y == [Doc(id, d.runCount + n, true)]) || (x == [Doc(id, d.runCount + n, false)] && y == [])
  {}

  lemma {:induction false} CatchUpCounts(b: Books, id: int, d: Schedule, left: nat, created: nat, today: Date, luck: nat -> Luck)
    requires ScheduleOk(d) && IsDate(today) && id in b.schedules
    ensures var r, n := CatchUpFrom(b, id, d, left, created, today, luck), PeriodsDone(d, left, today, luck);
      n <= r.created - created <= n + 1 && (!r.err ==> r.created == created + n && r.books.lost == b.lost)
    decreases left
  {
    NextRunIsOk(d, today);
    var l := luck(d.runCount);
    if left > 0 && Runs(d, today) && Fine(d, l) {
      CatchUpCounts(Period(b, id, d, l), id, NextRun(d), left - 1, created + 1, today, luck);
    }
  }

  lemma {:induction false} AdvancedOnce(s: Schedule, d: Schedule, n: nat)
    requires ScheduleOk(d) && s.(active := true) == d.(active := true)
    ensures var s' := Stored(s, NextRun(d)); Advanced(s', n) == Advanced(s, n + 1) && s'.(active := true) == NextRun(d).(active := true)
  {}

  lemma {:induction false} CatchUpSchedule(b: Books, id: int, d: Schedule, left: nat, created: nat, today: Date, luck: nat -> Luck)
    requires ScheduleOk(d) && IsDate(today) && id in b.schedules
    requires b.schedules[id].(active := true) == d.(active := true)
    ensures var r, n := CatchUpFrom(b, id, d, left, created, today, luck), PeriodsDone(d, left, today, luck);
      r.books.schedules == b.schedules[id := Advanced(b.schedules[id], n)]
    decreases left
  {
    NextRunIsOk(d, today);
    var l := luck(d.runCount);
    if left > 0 && Runs(d, today) && Fine(d, l) {
      AdvancedOnce(b.schedules[id], d, PeriodsDone(NextRun(d), left - 1, today, luck));
      CatchUpSchedule(Period(b, id, d, l), id, NextRun(d), left - 1, created + 1, today, luck);
    }
  }

  /** With nothing going wrong, one run does min(12, periods due) periods. */
  lemma {:induction false} AllDuePeriodsUpToTheBound(d: Schedule, today: Date, luck: nat -> Luck)
    requires ScheduleOk(d) && IsDate(today) && forall k :: Fine(d, luck(k))
    ensures var due := DueFrom(d, d.runCount, today); PeriodsDone(d, MAX_CATCH_UP, today, luck) == if due < 12 then due else 12
  {
    StopsWhereItShould(d, MAX_CATCH_UP, today, luck);
    var n, due := PeriodsDone(d, MAX_CATCH_UP, today, luck), DueFrom(d, d.runCount, today);
    assert n > 0 ==> IsDue(d, d.runCount + n - 1, today);
    assert n < MAX_CATCH_UP ==> !IsDue(d, d.runCount + n, today);
    assert due > 0 ==> IsDue(d, d.runCount + due - 1, today);
    assert !IsDue(d, d.runCount + due, today);
  }

  /** Nothing is skipped between runs: what one run leaves undone is exactly what is still due afterwards. */
  lemma {:induction false} WhatIsLeftStaysDue(d: Schedule, n: nat, today: Date)
    requires ScheduleOk(d) && IsDate(today) && n <= DueFrom(d, d.runCount, today)
    ensures DueFrom(Advanced(d, n), d.runCount + n, today) == DueFrom(d, d.runCount, today) - n
  {
    var e := Advanced(d, n);
    var a, m := DueFrom(d, d.runCount, today), DueFrom(e, d.runCount + n, today);
    assert forall k: nat :: IsDue(e, k, today) == IsDue(d, k, today);
    assert !IsDue(d, d.runCount + a, today) && !IsDue(e, d.runCount + n + m, today);
    assert a > 0 ==> IsDue(d, d.runCount + a - 1, today);
    assert m > 0 ==> IsDue(e, d.runCount + n + m - 1, today);
  }

  /** The consistency of the books: schedules are well formed, and every period done has its one whole
      document, with one more for each time a document was made and the period not stored as done. */
  ghost predicate BooksOk(b: Books, nextId: nat) {
    && (forall id :: id in b.schedules ==> ScheduleOk(b.schedules[id]) && 0 <= id < nextId)
    && (forall d :: d in b.documents || d in b.lost ==> d.schedule < nextId)
    && (forall id, k: nat :: id in b.schedules ==>
          WholeDocs(b.documents, id, k) == (if k < b.schedules[id].runCount then 1 else 0) + WholeDocs(b.lost, id, k))
  }

  lemma {:induction false} DocsKept(docs: seq<Doc>, lost: seq<Doc>, id: int, from: nat, n: nat, x: seq<Doc>, y: seq<Doc>, q: int, k: nat, run: nat)
    requires WholeDocs(docs, q, k) == (if k < run then 1 else 0) + WholeDocs(lost, q, k) && (q == id ==> run == from)
    requires (x == y == []) || (x == y == [Doc(id, from + n, true)]) || (x == [Doc(id, from + n, false)] && y == [])
    ensures WholeDocs(docs + (Wholes(id, from, n) + x), q, k) == (if k < (if q == id then run + n else run) then 1 else 0) + WholeDocs(lost + y, q, k)
  {
    OneDoc(Doc(id, from + n, true), q, k);
    OneDoc(Doc(id, from + n, false), q, k);
    BooksBalance(docs, lost, id, from, n, x, y, q, k, run);
    Assoc(docs, Wholes(id, from, n), x);
  }

  lemma {:induction false} CountsKept(b: Books, b': Books, id: int, s: Schedule, n: nat, x: seq<Doc>, y: seq<Doc>, nextId: nat)
    requires BooksOk(b, nextId) && id in b.schedules && s == b.schedules[id]
    requires b' == Books(b.schedules[id := Advanced(s, n)], b.documents + (Wholes(id, s.runCount, n) + x), b.lost + y)
    requires (x == y == []) || (x == y == [Doc(id, s.runCount + n, true)]) || (x == [Doc(id, s.runCount + n, false)] && y == [])
    ensures forall q, k: nat :: q in b'.schedules ==>
      WholeDocs(b'.documents, q, k) == (if k < b'.schedules[q].runCount then 1 else 0) + WholeDocs(b'.lost, q, k)
  {
    forall q, k: nat | q in b'.schedules
      ensures WholeDocs(b'.documents, q, k) == (if k < b'.schedules[q].runCount then 1 else 0) + WholeDocs(b'.lost, q, k)
    {
      DocsKept(b.documents, b.lost, id, s.runCount, n, x, y, q, k, b.schedules[q].runCount);
    }
  }

  lemma {:induction false} BooksKept(b: Books, b': Books, id: int, s: Schedule, n: nat, x: seq<Doc>, y: seq<Doc>, nextId: nat)
    requires BooksOk(b, nextId) && id in b.schedules && s == b.schedules[id]
    requires b' == Books(b.schedules[id := Advanced(s, n)], b.documents + (Wholes(id, s.runCount, n) + x), b.lost + y)
    requires (x == y == []) || (x == y == [Doc(id, s.runCount + n, true)]) || (x == [Doc(id, s.runCount + n, false)] && y == [])
    ensures BooksOk(b', nextId)
  {
    WholesShape(id, s.runCount, n);
    CountsKept(b, b', id, s, n, x, y, nextId);
  }

  /** How many whole documents there are. */
  function Finished(docs: seq<Doc>): nat {
    if docs == [] then 0 else Finished(docs[..|docs| - 1]) + if docs[|docs| - 1].whole then 1 else 0
  }

  lemma {:induction false} FinishedConcat(a: seq<Doc>, b: seq<Doc>)
    ensures Finished(a + b) == Finished(a) + Finished(b)
  {
    if b == [] {
      assert a + b == a;
    } else {
      FinishedConcat(a, b[..|b| - 1]);
      assert (a + b)[..|a + b| - 1] == a + b[..|b| - 1];
    }
  }

  lemma {:induction false} FinishedOfWholes(id: int, k: nat, n: nat)
    ensures Finished(Wholes(id, k, n)) == n
  {
    if n > 0 {
      FinishedOfWholes(id, k, n - 1);
      FinishedConcat(Wholes(id, k, n - 1), [Doc(id, k + n - 1, true)]);
      OneFinished(Doc(id, k + n - 1, true));
    }
  }

  lemma {:induction false} OneFinished(d: Doc)
    ensures Finished([d]) == if d.whole then 1 else 0
  {
    assert [d][..0] == [];
  }

  /** What one catch-up adds to the whole documents: its periods, and one that was not stored. */
  lemma {:induction false} FinishedAfter(docs: seq<Doc>, id: int, k: nat, n: nat, x: seq<Doc>, y: seq<Doc>)
    requires (x == y == []) || (x == y == [Doc(id, k + n, true)]) || (x == [Doc(id, k + n, false)] && y == [])
    ensures Finished(docs + (Wholes(id, k, n) + x)) == Finished(docs) + n + |y|
  {
    FinishedConcat(docs, Wholes(id, k, n) + x);
    FinishedConcat(Wholes(id, k, n), x);
    FinishedOfWholes(id, k, n);
    OneFinished(Doc(id, k + n, true));
    OneFinished(Doc(id, k + n, false));
  }

  function OnceMore(s: Schedule, today: Date, luck: nat -> Luck): Schedule
    requires ScheduleOk(s) && IsDate(today)
  {
    Advanced(s, PeriodsDone(s, MAX_CATCH_UP, today, luck))
  }

  /** What one catch-up did: n periods that were due, their documents, and the schedule moved on by n. */
  ghost predicate CaughtUp(b: Books, id: int, r: Report, today: Date, luck: nat -> Luck)
    requires id in b.schedules && ScheduleOk(b.schedules[id]) && IsDate(today)
  {
    var s := b.schedules[id];
    var n := PeriodsDone(s, MAX_CATCH_UP, today, luck);
    && StopsAfter(s, MAX_CATCH_UP, n, today, luck)
    && r.books.schedules == b.schedules[id := Advanced(s, n)]
    && r.books.documents == b.documents + (Wholes(id, s.runCount, n) + Leftover(id, s, MAX_CATCH_UP, n, today, luck))
    && r.books.lost == b.lost + Unstored(id, s, MAX_CATCH_UP, n, today, luck)
    && n <= r.created <= n + 1
    && (!r.err ==> r.books.lost == b.lost && r.created == Finished(r.books.documents) - Finished(b.documents))
  }

  lemma {:induction false} FinishedDocuments(docs: seq<Doc>, id: int, s: Schedule, n: nat, today: Date, luck: nat -> Luck)
    requires ScheduleOk(s) && IsDate(today) && StopsAfter(s, MAX_CATCH_UP, n, today, luck)
    ensures Finished(docs + (Wholes(id, s.runCount, n) + Leftover(id, s, MAX_CATCH_UP, n, today, luck)))
         == Finished(docs) + n + |Unstored(id, s, MAX_CATCH_UP, n, today, luck)|
  {
    WhatAMishapLeaves(id, s, MAX_CATCH_UP, n, today, luck);
    FinishedAfter(docs, id, s.runCount, n, Leftover(id, s, MAX_CATCH_UP, n, today, luck), Unstored(id, s, MAX_CATCH_UP, n, today, luck));
  }

  lemma {:induction false} WhatCatchUpDoes(b: Books, id: int, today: Date, luck: nat -> Luck)
    requires id in b.schedules && ScheduleOk(b.schedules[id]) && IsDate(today)
    ensures CaughtUp(b, id, CatchUpFrom(b, id, b.schedules[id], MAX_CATCH_UP, 0, today, luck), today, luck)
  {
    var s := b.schedules[id];
    StopsWhereItShould(s, MAX_CATCH_UP, today, luck);
    CatchUpDocuments(b, id, s, MAX_CATCH_UP, 0, today, luck);
    CatchUpLost(b, id, s, MAX_CATCH_UP, 0, today, luck);
    CatchUpCounts(b, id, s, MAX_CATCH_UP, 0, today, luck);
    CatchUpSchedule(b, id, s, MAX_CATCH_UP, 0, today, luck);
    FinishedDocuments(b.documents, id, s, PeriodsDone(s, MAX_CATCH_UP, today, luck), today, luck);
  }

  /** The catch-up keeps the books: every period done has its one whole document, and one more for each time it was not stored as done. */
  lemma {:induction false} CatchUpKeepsBooks(b: Books, id: int, nextId: nat, r: Report, today: Date, luck: nat -> Luck)
    requires BooksOk(b, nextId) && id in b.schedules && IsDate(today) && CaughtUp(b, id, r, today, luck)
    ensures BooksOk(r.books, nextId)
  {
    var s := b.schedules[id];
    var n := PeriodsDone(s, MAX_CATCH_UP, today, luck);
    WhatAMishapLeaves(id, s, MAX_CATCH_UP, n, today, luck);
    BooksKept(b, r.books, id, s, n, Leftover(id, s, MAX_CATCH_UP, n, today, luck), Unstored(id, s, MAX_CATCH_UP, n, today, luck), nextId);
  }

  lemma {:induction false} CaughtUpExtends(b: Books, id: int, r: Report, today: Date, luck: nat -> Luck)
    requires id in b.schedules && ScheduleOk(b.schedules[id]) && IsDate(today) && CaughtUp(b, id, r, today, luck)
    ensures r.books.schedules == b.schedules[id := OnceMore(b.schedules[id], today, luck)]
    ensures b.documents <= r.books.documents && b.lost <= r.books.lost
    ensures !r.err ==> r.books.lost == b.lost && r.created == Finished(r.books.documents) - Finished(b.documents)
  {}

  // ---- the run over all schedules -----------------------------------------------------------

  datatype Item = Item(id: int, next: Date)

  predicate Picked(s: Schedule, currentDate: Date) { s.active && !Earlier(currentDate, s.next) }

  function Ids(items: seq<Item>): seq<int> { seq(|items|, i requires 0 <= i < |items| => items[i].id) }

  predicate SoonerFirst(a: Item, b: Item) { !Earlier(b.next, a.next) }

  lemma {:induction false} DistinctIds(items: seq<Item>, r: seq<Item>)
    requires Distinct(Ids(items)) && Distinct(r) && forall x :: x in r ==> x in items
    ensures Distinct(Ids(r))
  {
    forall i, j | 0 <= i < j < |r|
      ensures Ids(r)[i] != Ids(r)[j]
    {
      assert r[i] in items && r[j] in items && r[i] != r[j];
      var a, b :| 0 <= a < |items| && 0 <= b < |items| && items[a] == r[i] && items[b] == r[j];
      assert Ids(items)[a] != Ids(items)[b];
    }
  }

  lemma {:induction false} DistinctItems(items: seq<Item>)
    requires Distinct(Ids(items))
    ensures Distinct(items)
  {
    forall i, j | 0 <= i < j < |items|
      ensures items[i] != items[j]
    {
      assert Ids(items)[i] != Ids(items)[j];
    }
  }

  lemma {:induction false} SortItems(items: seq<Item>)
    requires Distinct(Ids(items))
    ensures var r := SortBy(items, SoonerFirst);
      Distinct(Ids(r)) && Sorted(r, SoonerFirst) && forall id :: id in Ids(r) <==> id in Ids(items)
  {
    var r := SortBy(items, SoonerFirst);
    SortSorts(items, SoonerFirst);
    SameMembers(items, SoonerFirst);
    DistinctItems(items);
    SortKeepsDistinct(items, SoonerFirst);
    DistinctIds(items, r);
    SameIds(items, r);
    SameIds(r, items);
  }

  lemma {:induction false} SameIds(a: seq<Item>, b: seq<Item>)
    requires forall x :: x in a ==> x in b
    ensures forall id :: id in Ids(a) ==> id in Ids(b)
  {
    forall id | id in Ids(a)
      ensures id in Ids(b)
    {
      var i :| 0 <= i < |a| && a[i].id == id;
      assert a[i] in b;
      var j :| 0 <= j < |b| && b[j] == a[i];
      assert Ids(b)[j] == id;
    }
  }

  lemma {:induction false} IdsOfMore(items: seq<Item>, x: Item)
    ensures Ids(items + [x]) == Ids(items) + [x.id]
  {}

  lemma {:induction false} IdsOfPrefix(items: seq<Item>, j: nat)
    requires j < |items| && Distinct(Ids(items))
    ensures Ids(items[..j + 1]) == Ids(items[..j]) + [items[j].id]
    ensures items[j].id in Ids(items) && items[j].id !in Ids(items[..j])
    ensures forall id :: id in Ids(items[..j]) ==> id in Ids(items)
  {
    assert Ids(items)[j] == items[j].id;
    assert forall i :: 0 <= i < j ==> Ids(items[..j])[i] == Ids(items)[i];
  }

  /** The schedules after the ones in `done` were each caught up once. */
  ghost function AfterRun(all: map<int, Schedule>, done: set<int>, today: Date, luck: int -> nat -> Luck): map<int, Schedule>
    requires IsDate(today) && forall id :: id in all ==> ScheduleOk(all[id])
  {
    map id | id in all :: if id in done then OnceMore(all[id], today, luck(id)) else all[id]
  }

  lemma {:induction false} RunsNothing(all: map<int, Schedule>, today: Date, luck: int -> nat -> Luck)
    requires IsDate(today) && forall id :: id in all ==> ScheduleOk(all[id])
    ensures AfterRun(all, {}, today, luck) == all
  {}

  lemma {:induction false} RunsOneMore(all: map<int, Schedule>, now: map<int, Schedule>, done: set<int>, id: int, today: Date, luck: int -> nat -> Luck)
    requires IsDate(today) && forall q :: q in all ==> ScheduleOk(all[q])
    requires now == AfterRun(all, done, today, luck) && id !in done && id in all
    ensures now[id] == all[id]
    ensures now[id := OnceMore(all[id], today, luck(id))] == AfterRun(all, done + {id}, today, luck)
  {}

  function AllDue(s: Schedule, today: Date): Schedule
    requires ScheduleOk(s) && IsDate(today)
  {
    var due := DueFrom(s, s.runCount, today);
    Advanced(s, if due < 12 then due else 12)
  }

  lemma {:induction false} OneDoesWhatIsDue(s: Schedule, today: Date, luck: nat -> Luck)
    requires ScheduleOk(s) && IsDate(today) && forall k :: Fine(s, luck(k))
    ensures OnceMore(s, today, luck) == AllDue(s, today)
  {
    AllDuePeriodsUpToTheBound(s, today, luck);
  }

  /** With nothing going wrong, one run creates exactly min(12, periods due) invoices of every schedule it picked. */
  lemma {:induction false} ARunDoesWhatIsDue(all: map<int, Schedule>, done: set<int>, today: Date, luck: int -> nat -> Luck, id: int)
    requires IsDate(today) && forall q :: q in all ==> ScheduleOk(all[q])
    requires id in all && forall k :: Fine(all[id], luck(id)(k))
    ensures AfterRun(all, done, today, luck)[id] == if id in done then AllDue(all[id], today) else all[id]
  {
    OneDoesWhatIsDue(all[id], today, luck(id));
  }

  /** Then its next date is the run of the new count, and it stays active as long as that is within its end. */
  lemma {:induction false} WhereARunLeavesIt(s: Schedule, today: Date)
    requires ScheduleOk(s) && IsDate(today) && DueFrom(s, s.runCount, today) > 0
    ensures var due, s' := DueFrom(s, s.runCount, today), AllDue(s, today);
      && s'.runCount == s.runCount + (if due < 12 then due else 12) && s'.next == Nth(s.anchor, s.freq, s.every, s'.runCount)
      && (s'.active <==> (s.end.Some? ==> DayNumber(s'.next) <= DayNumber(s.end.value)))
      && s' == s.(runCount := s'.runCount, next := s'.next, active := s'.active)
  {
    if s.end.Some? { EarlierIsSmaller(s.end.value, AllDue(s, today).next); }
  }

  /** An attempt that cannot clone the invoice leaves nothing, one that cannot finalize it leaves a draft, and the third a whole document. */
  lemma {:induction false} WhatAnAttemptLeaves(id: int, k: nat)
    ensures DocsOf(id, k, ConvertFails) == [] && DocsOf(id, k, FinalizeFails) == [Doc(id, k, false)] && DocsOf(id, k, Created) == [Doc(id, k, true)]
  {}

  /** A period goes well when the clone is made, finalized if that is asked for, and both writes succeed. */
  lemma {:induction false} FineExactly(s: Schedule, l: Luck)
    ensures Fine(s, l) <==> (l.attempt == Created || (l.attempt == FinalizeFails && !s.autoFinalize)) && l.recordOk && l.advanceOk
  {}

  // ---- how many weekly periods are due ------------------------------------------------------

  /** The last day that counts for a schedule. */
  function LastDayFor(s: Schedule, today: Date): int
    requires IsDate(today) && (s.end.Some? ==> IsDate(s.end.value))
  {
    if s.end.Some? && DayNumber(s.end.value) < DayNumber(today) then DayNumber(s.end.value) else DayNumber(today)
  }

  /** A weekly schedule has come due once on its anchor and once more for every full rhythm of 7 * every days since. */
  lemma {:induction false} WeeksDue(s: Schedule, k: nat, today: Date)
    requires ScheduleOk(s) && s.freq == Weekly && IsDate(today)
    ensures var days := LastDayFor(s, today) - DayNumber(s.anchor);
      var count := if days < 0 then 0 else days / (7 * s.every) + 1;
      DueFrom(s, k, today) == if count < k then 0 else count - k
  {
    var days := LastDayFor(s, today) - DayNumber(s.anchor);
    var count := if days < 0 then 0 else days / (7 * s.every) + 1;
    var n := DueFrom(s, k, today);
    WeekIsDue(s, k + n, today);
    assert !IsDue(s, k + n, today);
    if n > 0 {
      WeekIsDue(s, k + n - 1, today);
      assert IsDue(s, k + n - 1, today);
    }
  }

  lemma {:induction false} WeekIsDue(s: Schedule, j: nat, today: Date)
    requires ScheduleOk(s) && s.freq == Weekly && IsDate(today)
    ensures var days := LastDayFor(s, today) - DayNumber(s.anchor);
      IsDue(s, j, today) <==> days >= 0 && j <= days / (7 * s.every)
  {
    DueInDays(s, j, today);
    WeeksLand(s.anchor, s.every, j);
    var days := LastDayFor(s, today) - DayNumber(s.anchor);
    FullSteps(days, 7 * s.every, j);
  }

  lemma {:induction false} FullSteps(days: int, step: nat, j: nat)
    requires step > 0
    ensures step * j <= days <==> days >= 0 && j <= days / step
  {
    if days >= 0 {
      var q := days / step;
      assert step * q <= days < step * q + step;
      if j <= q { Multiply(step, j, q); } else { Multiply(step, q + 1, j); assert step * (q + 1) == step * q + step; }
    } else {
      Multiply(step, 0, j);
    }
  }

  lemma {:induction false} Multiply(step: nat, a: nat, b: nat)
    requires a <= b
    ensures step * a <= step * b
  {}

  // ---- the service --------------------------------------------------------------------------

  class Service {
    var schedules: map<int, Schedule>
    var documents: seq<Doc>
    var nextId: nat
    ghost var lost: seq<Doc>           // documents whose period was not stored as done

    ghost predicate Valid()
      reads this
    {
      BooksOk(Abs(), nextId)
    }

    ghost function Abs(): Books
      reads this
    {
      Books(schedules, documents, lost)
    }

    constructor ()
      ensures Valid() && schedules == map[] && documents == [] && lost == []
    {
      schedules, documents, nextId, lost := map[], [], 0, [];
    }

    /** Create: refuses a bad rhythm, a first run in the past, an end before it, a bad address, or an invoice that is not finalized. */
    method Create(freq: Frequency, every: int, first: Date, end: Option<Date>, autoFinalize: bool, emailTo: string, sourceIsFinalInvoice: bool, today: Date)
      returns (id: Option<int>)
      requires Valid() && IsDate(first) && IsDate(today) && (end.Some? ==> IsDate(end.value))
      modifies this
      ensures Valid() && documents == old(documents) && lost == old(lost)
      ensures id.Some? <==> 1 <= every <= 24 && !Earlier(first, today) && (end.Some? ==> !Earlier(end.value, first)) && (emailTo == "" || '@' in emailTo) && sourceIsFinalInvoice
      ensures id.Some? ==> id.value !in old(schedules) && schedules == old(schedules)[id.value := Schedule(first, freq, every, first, end, autoFinalize, true, 0)]
      ensures id.None? ==> schedules == old(schedules)
    {
      if every < 1 || every > 24 || Earlier(first, today) || (end.Some? && Earlier(end.value, first)) || (emailTo != "" && '@' !in emailTo) || !sourceIsFinalInvoice {
        return None;
      }
      id := Some(nextId);
      var s := Schedule(first, freq, every, first, end, autoFinalize, true, 0);
      RunZero(s);
      NoDocsYet(documents, nextId);
      NoDocsYet(lost, nextId);
      schedules := schedules[nextId := s];
      nextId := nextId + 1;
    }

    method SetActive(id: int, active: bool) returns (ok: bool)
      requires Valid()
      modifies this`schedules
      ensures Valid() && (ok <==> id in old(schedules))
      ensures schedules == if ok then old(schedules)[id := old(schedules)[id].(active := active)] else old(schedules)
    {
      ok := id in schedules;
      if ok {
        schedules := schedules[id := schedules[id].(active := active)];
      }
    }

    /** Delete: invoices already created stay. */
    method Delete(id: int) returns (ok: bool)
      requires Valid()
      modifies this`schedules
      ensures Valid() && (ok <==> id in old(schedules)) && schedules == old(schedules) - {id}
    {
      ok := id in schedules;
      schedules := schedules - {id};
    }

    /** One period: clone the invoice, record the attempt, and move the stored run date on. */
    method RunPeriod(id: int, d: Schedule, l: Luck) returns (done: bool, counted: bool, err: bool, d': Schedule)
      requires id in schedules && DatesOk(d)
      modifies this`schedules, this`documents, this`lost
      ensures Abs() == Period(old(Abs()), id, d, l)
      ensures done <==> Fine(d, l)
      ensures done ==> d' == NextRun(d)
      ensures counted <==> l.recordOk && Effective(d, l.attempt) == Created
      ensures err <==> !l.recordOk || Lost(d, l)
    {
      d' := d;
      var a := Effective(d, l.attempt);
      documents := documents + DocsOf(id, d.runCount, a);
      if a == Created && !(l.recordOk && l.advanceOk) {
        lost := lost + [Doc(id, d.runCount, true)];
      }
      if !l.recordOk {
        return false, false, true, d;
      }
      if a != Created {
        return false, false, false, d;
      }
      d' := d.(runCount := d.runCount + 1);
      d' := d'.(next := Nth(d.anchor, d.freq, d.every, d'.runCount));
      if !l.advanceOk {
        return false, true, true, d';
      }
      var active := d'.end.None? || !Earlier(d'.end.value, d'.next);
      schedules := schedules[id := schedules[id].(next := d'.next, runCount := d'.runCount, active := active)];
      return true, true, false, d';
    }

    /** The catch-up loop for one schedule. */
    method CatchUp(id: int, today: Date, luck: nat -> Luck) returns (created: nat, err: bool)
      requires id in schedules && ScheduleOk(schedules[id]) && IsDate(today)
      modifies this`schedules, this`documents, this`lost
      ensures Report(Abs(), created, err) == CatchUpFrom(old(Abs()), id, old(schedules[id]), MAX_CATCH_UP, 0, today, luck)
    {
      ghost var goal := CatchUpFrom(Abs(), id, schedules[id], MAX_CATCH_UP, 0, today, luck);
      var d := schedules[id];
      created, err := 0, false;
      var i := 0;
      while i < MAX_CATCH_UP && !Earlier(today, d.next)
        invariant id in schedules && DatesOk(d) && i <= MAX_CATCH_UP && !err
        invariant CatchUpFrom(Abs(), id, d, MAX_CATCH_UP - i, created, today, luck) == goal
      {
        if d.end.Some? && Earlier(d.end.value, d.next) {
          break;
        }
        CatchUpGoesOn(Abs(), id, d, MAX_CATCH_UP - i, created, today, luck);
        var done, counted, failed, d' := RunPeriod(id, d, luck(d.runCount));
        created := created + if counted then 1 else 0;
        if !done {
          return created, failed;
        }
        d, i := d', i + 1;
      }
    }

    /** One schedule caught up; the books stay consistent. */
    method RunItem(id: int, today: Date, luck: nat -> Luck) returns (created: nat, err: bool)
      requires Valid() && id in schedules && IsDate(today)
      modifies this`schedules, this`documents, this`lost
      ensures Valid()
      ensures CaughtUp(old(Abs()), id, Report(Abs(), created, err), today, luck)
    {
      WhatCatchUpDoes(Abs(), id, today, luck);
      CatchUpKeepsBooks(Abs(), id, nextId, CatchUpFrom(Abs(), id, schedules[id], MAX_CATCH_UP, 0, today, luck), today, luck);
      created, err := CatchUp(id, today, luck);
    }

    /** The schedules that are active and whose run date has come, by the database's date, in the order of their run dates. */
    method Selected(currentDate: Date) returns (items: seq<Item>)
      requires Valid()
      ensures Distinct(Ids(items)) && forall x :: x in items ==> x.id in schedules && x.next == schedules[x.id].next
      ensures forall i, j :: 0 <= i < j < |items| ==> !Earlier(items[j].next, items[i].next)
      ensures forall id :: id in Ids(items) <==> id in schedules && schedules[id].active && !Earlier(currentDate, schedules[id].next)
    {
      items := [];
      for id := 0 to nextId
        invariant Distinct(Ids(items)) && forall x :: x in items ==> x.id in schedules && x.next == schedules[x.id].next
        invariant forall q :: q in Ids(items) <==> q in schedules && q < id && Picked(schedules[q], currentDate)
      {
        if id in schedules && Picked(schedules[id], currentDate) {
          IdsOfMore(items, Item(id, schedules[id].next));
          items := items + [Item(id, schedules[id].next)];
        }
      }
      SortItems(items);
      SameMembers(items, SoonerFirst);
      items := SortBy(items, SoonerFirst);
    }

    /** RunOnce: every selected schedule is caught up in turn; an error of the database stops the run. */
    method RunOnce(currentDate: Date, today: Date, luck: int -> nat -> Luck) returns (created: nat, err: bool, ghost done: set<int>)
      requires Valid() && IsDate(today)
      modifies this`schedules, this`documents, this`lost
      ensures Valid()
      ensures forall id :: id in done ==> id in old(schedules) && old(schedules)[id].active && !Earlier(currentDate, old(schedules)[id].next)
      ensures !err ==> forall id :: id in old(schedules) && old(schedules)[id].active && !Earlier(currentDate, old(schedules)[id].next) ==> id in done
      ensures schedules == AfterRun(old(schedules), done, today, luck)
      ensures old(documents) <= documents && old(lost) <= lost
      ensures !err ==> lost == old(lost) && created == Finished(documents) - Finished(old(documents))
    {
      var items := Selected(currentDate);
      created, err, done := RunItems(items, today, luck);
    }

    /** The loop over the selected schedules. */
    method RunItems(items: seq<Item>, today: Date, luck: int -> nat -> Luck) returns (created: nat, err: bool, ghost done: set<int>)
      requires Valid() && IsDate(today) && Distinct(Ids(items)) && forall id :: id in Ids(items) ==> id in schedules
      modifies this`schedules, this`documents, this`lost
      ensures Valid()
      ensures (forall id :: id in done ==> id in Ids(items)) && (!err ==> forall id :: id in Ids(items) ==> id in done)
      ensures schedules == AfterRun(old(schedules), done, today, luck)
      ensures old(documents) <= documents && old(lost) <= lost
      ensures !err ==> lost == old(lost) && created == Finished(documents) - Finished(old(documents))
    {
      created, err, done := 0, false, {};
      RunsNothing(schedules, today, luck);
      for j := 0 to |items|
        invariant Valid() && (forall id :: id in done <==> id in Ids(items[..j]))
        invariant schedules == AfterRun(old(schedules), done, today, luck)
        invariant old(documents) <= documents && lost == old(lost)
        invariant created == Finished(documents) - Finished(old(documents))
      {
        IdsOfPrefix(items, j);
        var id := items[j].id;
        ghost var before := Abs();
        var n, failed := RunItem(id, today, luck(id));
        CaughtUpExtends(before, id, Report(Abs(), n, failed), today, luck(id));
        RunsOneMore(old(schedules), before.schedules, done, id, today, luck);
        done := done + {id};
        created := created + n;
        if failed {
          return created, true, done;
        }
      }
      WholePrefix(items);
    }
  }
}
