/** Laws of applying a batch (internal/modules/datasync/datasync.go). */
module SyncBatch {
  import opened SyncStore

  function Total(n: Counts): nat { n.applied + n.stale + n.conflicts }

  // ---- every change is counted once ---------------------------------------------------------

  lemma {:induction false} PassOneCounts(s: Store, cs: seq<Change>, w: Writer)
    ensures var p := PassOne(s, cs, w); Total(p.counts) + |p.waiting| == |cs|
  {
    if cs != [] { PassOneCounts(s, cs[..|cs| - 1], w); }
  }

  lemma {:induction false} PassTwoCounts(s: Store, n: Counts, cs: seq<Change>, w: Writer)
    ensures Total(PassTwo(s, n, cs, w).counts) == Total(n) + |cs|
  {
    if cs != [] { PassTwoCounts(s, n, cs[..|cs| - 1], w); }
  }

  lemma {:induction false} EveryChangeCountedOnce(s: Store, cs: seq<Change>, w: Writer)
    ensures Total(Batch(s, cs, w).counts) == |cs|
  {
    PassOneCounts(s, cs, w);
    var p := PassOne(s, cs, w);
    PassTwoCounts(p.store, p.counts, p.waiting, w);
  }

  // ---- a refused change leaves no trace -----------------------------------------------------

  function More(n: Counts, conflicts: nat): Counts { n.(conflicts := n.conflicts + conflicts) }

  function Extend(p: Pass, c: Change, w: Writer): Pass {
    var o := Decide(p.store.rows, c);
    if o == Retry then p.(waiting := p.waiting + [c]) else Pass(Step(p.store, c, w), Count(p.counts, o), p.waiting)
  }

  lemma {:induction false} PassOneLast(s: Store, front: seq<Change>, c: Change, w: Writer)
    ensures PassOne(s, front + [c], w) == Extend(PassOne(s, front, w), c, w)
  {
    assert (front + [c])[..|front|] == front;
  }

  function ExtendTwo(p: Pass, c: Change, w: Writer): Pass {
    Pass(Step(p.store, c, w), Count(p.counts, Decide(p.store.rows, c)), [])
  }

  lemma {:induction false} PassTwoLast(s: Store, n: Counts, front: seq<Change>, c: Change, w: Writer)
    ensures PassTwo(s, n, front + [c], w) == ExtendTwo(PassTwo(s, n, front, w), c, w)
  {
    assert (front + [c])[..|front|] == front;
  }

  /** Two passes that differ only in conflicts counted and in who waits stay that way. */
  lemma {:induction false} ExtendBoth(without: Pass, with: Pass, k: nat, head: seq<Change>, mid: seq<Change>, t: seq<Change>, d: Change, w: Writer) returns (tail: seq<Change>)
    requires without.waiting == head + t
    requires with == Pass(without.store, More(without.counts, k), head + mid + t)
    ensures Extend(without, d, w).waiting == head + tail
    ensures Extend(with, d, w) == Pass(Extend(without, d, w).store, More(Extend(without, d, w).counts, k), head + mid + tail)
  {
    tail := if Decide(without.store.rows, d) == Retry then t + [d] else t;
    assert head + mid + t + [d] == head + mid + (t + [d]) && head + t + [d] == head + (t + [d]);
  }

  /** After a refusal at c, pass one goes on as if c had not been there, except that c may be waiting. */
  lemma {:induction false} PassOneSkips(s: Store, a: seq<Change>, c: Change, b: seq<Change>, w: Writer) returns (tail: seq<Change>)
    requires Decide(PassOne(s, a, w).store.rows, c) in {Conflict, Retry}
    ensures var retry := Decide(PassOne(s, a, w).store.rows, c) == Retry;
            var without, head := PassOne(s, a + b, w), PassOne(s, a, w).waiting;
            && without.waiting == head + tail
            && PassOne(s, a + [c] + b, w) == Pass(without.store, More(without.counts, if retry then 0 else 1), head + (if retry then [c] else []) + tail)
  {
    var here := PassOne(s, a, w);
    var retry := Decide(here.store.rows, c) == Retry;
    if b == [] {
      assert a + [c] + b == a + [c] && a + b == a;
      PassOneLast(s, a, c, w);
      tail := [];
    } else {
      var front, d := b[..|b| - 1], b[|b| - 1];
      var t := PassOneSkips(s, a, c, front, w);
      assert a + [c] + b == (a + [c] + front) + [d] && a + b == (a + front) + [d];
      PassOneLast(s, a + [c] + front, d, w);
      PassOneLast(s, a + front, d, w);
      tail := ExtendBoth(PassOne(s, a + front, w), PassOne(s, a + [c] + front, w), if retry then 0 else 1, here.waiting, if retry then [c] else [], t, d, w);
    }
  }

  lemma {:induction false} CountMore(p: Pass, d: Change, w: Writer)
    ensures ExtendTwo(p.(counts := More(p.counts, 1)), d, w) == (var q := ExtendTwo(p, d, w); q.(counts := More(q.counts, 1)))
  {}

  lemma {:induction false} PassTwoSkips(s: Store, n: Counts, a: seq<Change>, c: Change, b: seq<Change>, w: Writer)
    requires Decide(PassTwo(s, n, a, w).store.rows, c) in {Conflict, Retry}
    ensures PassTwo(s, n, a + [c] + b, w) == (var without := PassTwo(s, n, a + b, w); without.(counts := More(without.counts, 1)))
  {
    if b == [] {
      assert a + [c] + b == a + [c] && a + b == a;
      PassTwoLast(s, n, a, c, w);
    } else {
      PassTwoSkips(s, n, a, c, b[..|b| - 1], w);
      PassTwoSkipsNext(s, n, a, c, b, w);
    }
  }

  lemma {:induction false} PassTwoSkipsNext(s: Store, n: Counts, a: seq<Change>, c: Change, b: seq<Change>, w: Writer)
    requires b != []
    requires PassTwo(s, n, a + [c] + b[..|b| - 1], w) == (var without := PassTwo(s, n, a + b[..|b| - 1], w); without.(counts := More(without.counts, 1)))
    ensures PassTwo(s, n, a + [c] + b, w) == (var without := PassTwo(s, n, a + b, w); without.(counts := More(without.counts, 1)))
  {
    var front, d := b[..|b| - 1], b[|b| - 1];
    assert a + [c] + b == (a + [c] + front) + [d] && a + b == (a + front) + [d];
    PassTwoLast(s, n, a + [c] + front, d, w);
    PassTwoLast(s, n, a + front, d, w);
    CountMore(PassTwo(s, n, a + front, w), d, w);
  }

  lemma {:induction false} PassTwoMore(s: Store, n: Counts, k: nat, cs: seq<Change>, w: Writer)
    ensures PassTwo(s, More(n, k), cs, w) == (var p := PassTwo(s, n, cs, w); p.(counts := More(p.counts, k)))
  {
    if cs != [] { PassTwoMore(s, n, k, cs[..|cs| - 1], w); }
  }

  /** Change c, standing between a and b, ends up counted as a conflict. */
  predicate EndsInConflict(s: Store, a: seq<Change>, c: Change, b: seq<Change>, w: Writer) {
    var o := Decide(PassOne(s, a, w).store.rows, c);
    var p := PassOne(s, a + b, w);
    o == Conflict || (o == Retry && Decide(PassTwo(p.store, p.counts, PassOne(s, a, w).waiting, w).store.rows, c) in {Conflict, Retry})
  }

  /** A batch with a change that ends in conflict does to rows, log and counts what it would do without
      that change, but for the one conflict counted: one bad row cannot poison the batch. */
  lemma {:induction false} ConflictLeavesNoTrace(s: Store, a: seq<Change>, c: Change, b: seq<Change>, w: Writer)
    requires EndsInConflict(s, a, c, b, w)
    ensures var with, without := Batch(s, a + [c] + b, w), Batch(s, a + b, w);
            with.store == without.store && with.counts == More(without.counts, 1)
  {
    var tail := PassOneSkips(s, a, c, b, w);
    var with, without, head := PassOne(s, a + [c] + b, w), PassOne(s, a + b, w), PassOne(s, a, w).waiting;
    if Decide(PassOne(s, a, w).store.rows, c) == Conflict {
      assert with.waiting == without.waiting;
      PassTwoMore(without.store, without.counts, 1, without.waiting, w);
    } else {
      PassTwoSkips(without.store, without.counts, head, c, tail, w);
    }
  }

  // ---- applying a batch again ---------------------------------------------------------------

  predicate AllUpserts(cs: seq<Change>) { forall c :: c in cs ==> c.op.Upsert? }

  /** A stored version at least as new as the change: applying the change again is stale. */
  predicate Covers(rows: Rows, c: Change) {
    c.op.Upsert? && ValidTable(c.key.table) && c.op.row.sound && c.key in rows && Rank(c.key, c.op.row) <= Rank(c.key, rows[c.key])
  }

  /** Rows only get newer. */
  ghost predicate Grows(rows: Rows, rows': Rows) {
    forall k :: k in rows ==> k in rows' && Rank(k, rows[k]) <= Rank(k, rows'[k])
  }

  lemma {:induction false} CoversGrows(rows: Rows, rows': Rows)
    requires Grows(rows, rows')
    ensures forall c :: Covers(rows, c) ==> Covers(rows', c)
  {}

  lemma {:induction false} StepGrows(s: Store, c: Change, w: Writer)
    requires c.op.Upsert?
    ensures Grows(s.rows, Step(s, c, w).rows)
    ensures Decide(s.rows, c) != Conflict && Decide(s.rows, c) != Retry ==> Covers(Step(s, c, w).rows, c)
  {}

  lemma {:induction false} PassOneCovers(s: Store, cs: seq<Change>, w: Writer)
    requires AllUpserts(cs)
    ensures var p := PassOne(s, cs, w);
            && Grows(s.rows, p.store.rows) && AllUpserts(p.waiting)
            && (p.counts.conflicts == 0 ==> forall c :: c in cs ==> Covers(p.store.rows, c) || c in p.waiting)
  {
    if cs != [] {
      var front, c := cs[..|cs| - 1], cs[|cs| - 1];
      PassOneCovers(s, front, w);
      var before := PassOne(s, front, w).store;
      StepGrows(before, c, w);
      CoversGrows(before.rows, Step(before, c, w).rows);
      assert forall d :: d in cs <==> d in front || d == c;
    }
  }

  lemma {:induction false} PassTwoCovers(s: Store, n: Counts, cs: seq<Change>, w: Writer)
    requires AllUpserts(cs)
    ensures var p := PassTwo(s, n, cs, w);
            && Grows(s.rows, p.store.rows) && n.conflicts <= p.counts.conflicts
            && (p.counts.conflicts == 0 ==> forall c :: c in cs ==> Covers(p.store.rows, c))
  {
    if cs != [] {
      var front, c := cs[..|cs| - 1], cs[|cs| - 1];
      PassTwoCovers(s, n, front, w);
      assert cs == front + [c];
      PassTwoLast(s, n, front, c, w);
      var before := PassTwo(s, n, front, w).store;
      StepGrows(before, c, w);
      CoversGrows(before.rows, Step(before, c, w).rows);
      assert forall d :: d in cs <==> d in front || d == c;
    }
  }

  lemma {:induction false} CoveredBatchIsStale(s: Store, cs: seq<Change>, w: Writer)
    requires forall c :: c in cs ==> Covers(s.rows, c)
    ensures PassOne(s, cs, w) == Pass(s, Counts(0, |cs|, 0), [])
  {
    if cs != [] {
      var c := cs[|cs| - 1];
      CoveredBatchIsStale(s, cs[..|cs| - 1], w);
      assert c in cs && Covers(s.rows, c);
      assert Decide(s.rows, c) == Stale && Step(s, c, w) == s;
    }
  }

  /** Re-sending a batch of upserts that went through without conflicts changes nothing and logs nothing:
      every change is stale the second time.  A restart before the cursor is saved is harmless. */
  lemma {:induction false} ReapplyingChangesNothing(s: Store, cs: seq<Change>, w: Writer, w': Writer)
    requires AllUpserts(cs) && Batch(s, cs, w).counts.conflicts == 0
    ensures Batch(Batch(s, cs, w).store, cs, w') == Pass(Batch(s, cs, w).store, Counts(0, |cs|, 0), [])
  {
    var p := PassOne(s, cs, w);
    PassOneCovers(s, cs, w);
    PassTwoCovers(p.store, p.counts, p.waiting, w);
    CoveredBatchIsStale(Batch(s, cs, w).store, cs, w');
  }

  function Upserts(cs: seq<Change>): nat { if cs == [] then 0 else Upserts(cs[..|cs| - 1]) + if cs[|cs| - 1].op.Upsert? then 1 else 0 }

  lemma {:induction false} UpsertsMore(cs: seq<Change>, c: Change)
    ensures Upserts(cs + [c]) == Upserts(cs) + if c.op.Upsert? then 1 else 0
  {
    assert (cs + [c])[..|cs|] == cs;
  }

  lemma {:induction false} AllAreUpserts(cs: seq<Change>)
    ensures Upserts(cs) <= |cs| && (Upserts(cs) == |cs| ==> AllUpserts(cs))
  {
    if cs != [] { AllAreUpserts(cs[..|cs| - 1]); }
  }

  /** Only upserts are ever stale. */
  lemma {:induction false} StaleOne(s: Store, cs: seq<Change>, w: Writer)
    ensures var p := PassOne(s, cs, w); p.counts.stale + Upserts(p.waiting) <= Upserts(cs)
  {
    if cs != [] {
      StaleOne(s, cs[..|cs| - 1], w);
      UpsertsMore(PassOne(s, cs[..|cs| - 1], w).waiting, cs[|cs| - 1]);
    }
  }

  lemma {:induction false} StaleTwo(s: Store, n: Counts, cs: seq<Change>, w: Writer)
    ensures PassTwo(s, n, cs, w).counts.stale <= n.stale + Upserts(cs)
  {
    if cs != [] { StaleTwo(s, n, cs[..|cs| - 1], w); }
  }

  /** A batch that went through without conflicts changes nothing the second time exactly when it holds only upserts. */
  lemma {:induction false} IdempotentExactly(s: Store, cs: seq<Change>, w: Writer, w': Writer)
    requires Batch(s, cs, w).counts.conflicts == 0
    ensures Batch(Batch(s, cs, w).store, cs, w') == Pass(Batch(s, cs, w).store, Counts(0, |cs|, 0), []) <==> AllUpserts(cs)
  {
    if AllUpserts(cs) {
      ReapplyingChangesNothing(s, cs, w, w');
    } else {
      var t := Batch(s, cs, w).store;
      var p := PassOne(t, cs, w');
      StaleOne(t, cs, w');
      StaleTwo(p.store, p.counts, p.waiting, w');
      AllAreUpserts(cs);
    }
  }

  /** With a delete in the batch that is not so: insert a row, delete it, and the insert is applied again. */
  lemma {:induction false} DeletesAreReplayed()
    ensures var k := Key("brands", 1);
            var cs := [Change(k, Upsert(Row(1, "a", {}, {}, true))), Change(k, Delete)];
            var s := Store(map[], [], 1);
            Batch(s, cs, Local).counts.conflicts == 0 && Batch(Batch(s, cs, Local).store, cs, Local).counts.applied == 2
  {
    var k := Key("brands", 1);
    var r, s := Row(1, "a", {}, {}, true), Store(map[], [], 1);
    TablesOfThree();
    InsertAndDelete(s, k, r);
    InsertAndDelete(Batch(s, [Change(k, Upsert(r)), Change(k, Delete)], Local).store, k, r);
  }

  lemma {:induction false} InsertAndDelete(s: Store, k: Key, r: Row)
    requires s.rows == map[] && ValidTable(k.table) && r.sound && r.parents == {} && r.claims == {}
    ensures var b := Batch(s, [Change(k, Upsert(r)), Change(k, Delete)], Local); b.counts == Counts(2, 0, 0) && b.store.rows == map[]
  {
    var up, del := Change(k, Upsert(r)), Change(k, Delete);
    assert [up, del] == [up] + [del] && [up] == [] + [up];
    PassOneLast(s, [], up, Local);
    assert Decide(s.rows, up) == Applied;
    PassOneLast(s, [up], del, Local);
    assert Decide(s.rows[k := r], del) == Applied;
  }

  // ---- parents ------------------------------------------------------------------------------

  /** Nothing in the batch or in the database claims the same unique value for two rows. */
  ghost predicate NoClash(rows: Rows, cs: seq<Change>) {
    && (forall j, q :: 0 <= j < |cs| && q in rows && cs[j].op.Upsert? && q != cs[j].key ==> cs[j].op.row.claims * rows[q].claims == {})
    && (forall i, j :: 0 <= i < |cs| && 0 <= j < |cs| && cs[i].op.Upsert? && cs[j].op.Upsert? && cs[i].key != cs[j].key ==>
          cs[i].op.row.claims * cs[j].op.row.claims == {})
  }

  predicate WellFormed(cs: seq<Change>) { forall c :: c in cs ==> c.op.Upsert? && ValidTable(c.key.table) && c.op.row.sound }

  /** Rows come from the database as it was or from the batch, and nothing else. */
  ghost predicate FromBatch(rows: Rows, cs: seq<Change>, rows': Rows) {
    forall k :: k in rows' ==> (k in rows && rows'[k] == rows[k]) || exists i :: 0 <= i < |cs| && cs[i].key == k && cs[i].op == Upsert(rows'[k])
  }

  lemma {:induction false} NoClashInBatch(rows: Rows, cs: seq<Change>, rows': Rows, c: Change)
    requires NoClash(rows, cs) && FromBatch(rows, cs, rows') && c in cs && c.op.Upsert?
    ensures !Clashes(rows', c.key, c.op.row)
  {
    var j :| 0 <= j < |cs| && cs[j] == c;
    forall q | q in rows' && q != c.key
      ensures rows'[q].claims * c.op.row.claims == {}
    {
      if !(q in rows && rows'[q] == rows[q]) {
        var i :| 0 <= i < |cs| && cs[i].key == q && cs[i].op == Upsert(rows'[q]);
        assert cs[i].op.row.claims * cs[j].op.row.claims == {};
      }
    }
  }

  lemma {:induction false} FromBatchStep(rows: Rows, cs: seq<Change>, s: Store, c: Change, w: Writer)
    requires FromBatch(rows, cs, s.rows) && c in cs && c.op.Upsert?
    ensures FromBatch(rows, cs, Step(s, c, w).rows)
  {
    var j :| 0 <= j < |cs| && cs[j] == c;
    assert forall k :: k in Step(s, c, w).rows ==> (k in s.rows && Step(s, c, w).rows[k] == s.rows[k]) || (k == c.key && cs[j].op == Upsert(Step(s, c, w).rows[k]));
  }

  /** Pass one after the changes seen: it has refused none, and each is settled or waits for a parent. */
  ghost predicate SettlesOrWaits(rows: Rows, all: seq<Change>, seen: seq<Change>, p: Pass) {
    && FromBatch(rows, all, p.store.rows) && Grows(rows, p.store.rows) && p.counts.conflicts == 0
    && (forall c :: c in p.waiting ==> c in seen)
    && (forall c :: c in seen ==> Covers(p.store.rows, c) || c in p.waiting)
  }

  lemma {:induction false} GrowsTwice(a: Rows, b: Rows, c: Rows)
    requires Grows(a, b) && Grows(b, c)
    ensures Grows(a, c)
  {}

  lemma {:induction false} NotRefused(rows: Rows, c: Change)
    requires c.op.Upsert? && ValidTable(c.key.table) && c.op.row.sound && !Clashes(rows, c.key, c.op.row)
    ensures Decide(rows, c) != Conflict && (Decide(rows, c) == Retry ==> !ParentsPresent(rows, c.key, c.op.row))
  {}

  lemma {:induction false} OneMoreSettlesOrWaits(rows: Rows, all: seq<Change>, seen: seq<Change>, p: Pass, c: Change, w: Writer)
    requires WellFormed(all) && NoClash(rows, all) && c in all && SettlesOrWaits(rows, all, seen, p)
    ensures SettlesOrWaits(rows, all, seen + [c], Extend(p, c, w))
  {
    NoClashInBatch(rows, all, p.store.rows, c);
    NotRefused(p.store.rows, c);
    StepGrows(p.store, c, w);
    GrowsTwice(rows, p.store.rows, Step(p.store, c, w).rows);
    CoversGrows(p.store.rows, Step(p.store, c, w).rows);
    FromBatchStep(rows, all, p.store, c, w);
  }

  lemma {:induction false} PassOneNext(s: Store, cs: seq<Change>, n: nat, w: Writer)
    requires n < |cs|
    ensures cs[..n + 1] == cs[..n] + [cs[n]] && PassOne(s, cs[..n + 1], w) == Extend(PassOne(s, cs[..n], w), cs[n], w)
  {
    assert cs[..n + 1] == cs[..n] + [cs[n]];
    PassOneLast(s, cs[..n], cs[n], w);
  }

  lemma {:induction false} PassTwoNext(s: Store, n: Counts, cs: seq<Change>, i: nat, w: Writer)
    requires i < |cs|
    ensures PassTwo(s, n, cs[..i + 1], w) == ExtendTwo(PassTwo(s, n, cs[..i], w), cs[i], w)
  {
    assert cs[..i + 1] == cs[..i] + [cs[i]];
    PassTwoLast(s, n, cs[..i], cs[i], w);
  }

  /** In a well-formed batch without clashes, pass one refuses nothing: a change is settled or waits for a parent. */
  lemma {:induction false} PassOneSettlesOrWaits(s: Store, all: seq<Change>, n: nat, w: Writer)
    requires n <= |all| && WellFormed(all) && NoClash(s.rows, all)
    ensures SettlesOrWaits(s.rows, all, all[..n], PassOne(s, all[..n], w))
  {
    if n > 0 {
      PassOneSettlesOrWaits(s, all, n - 1, w);
      PassOneNext(s, all, n - 1, w);
      OneMoreSettlesOrWaits(s.rows, all, all[..n - 1], PassOne(s, all[..n - 1], w), all[n - 1], w);
    }
  }

  lemma {:induction false} PassTwoKeeps(s: Store, rows0: Rows, all: seq<Change>, counts: Counts, waiting: seq<Change>, w: Writer)
    requires AllUpserts(all) && FromBatch(rows0, all, s.rows) && forall c :: c in waiting ==> c in all
    ensures var p := PassTwo(s, counts, waiting, w);
            FromBatch(rows0, all, p.store.rows) && Grows(s.rows, p.store.rows)
  {
    if waiting != [] {
      var front, c := waiting[..|waiting| - 1], waiting[|waiting| - 1];
      assert c in waiting && c in all;
      PassTwoKeeps(s, rows0, all, counts, front, w);
      var before := PassTwo(s, counts, front, w).store;
      StepGrows(before, c, w);
      FromBatchStep(rows0, all, before, c, w);
      GrowsTwice(s.rows, before.rows, Step(before, c, w).rows);
    }
  }

  function Parents(c: Change): set<Key> { if c.op.Upsert? then c.op.row.parents else {} }

  /** The parent p of a waiting change is there by the time its turn comes again: it was in the database,
      or a change for it was settled in pass one, or is settled earlier in the second pass. */
  predicate ParentInTime(s: Store, cs: seq<Change>, j: nat, w: Writer, p: Key)
    requires j < |PassOne(s, cs, w).waiting|
  {
    var one := PassOne(s, cs, w);
    || p == one.waiting[j].key || p in s.rows
    || (exists d :: d in cs && d.key == p && d !in one.waiting)
    || (exists i :: 0 <= i < j && one.waiting[i].key == p && Decide(PassTwo(one.store, one.counts, one.waiting[..i], w).store.rows, one.waiting[i]) in {Applied, Stale})
  }

  lemma {:induction false} SettledNow(s: Store, n: Counts, cs: seq<Change>, i: nat, w: Writer)
    requires i < |cs| && cs[i].op.Upsert?
    requires Decide(PassTwo(s, n, cs[..i], w).store.rows, cs[i]) in {Applied, Stale}
    ensures cs[i].key in PassTwo(s, n, cs[..i + 1], w).store.rows
  {
    PassTwoNext(s, n, cs, i, w);
    StepGrows(PassTwo(s, n, cs[..i], w).store, cs[i], w);
  }

  lemma {:induction false} KeyStays(s: Store, n: Counts, a: seq<Change>, b: seq<Change>, k: Key, w: Writer)
    requires AllUpserts(b) && k in PassTwo(s, n, a, w).store.rows
    ensures k in PassTwo(s, n, a + b, w).store.rows
  {
    if b == [] {
      assert a + b == a;
    } else {
      var front, c := b[..|b| - 1], b[|b| - 1];
      assert c in b && a + b == a + front + [c];
      KeyStays(s, n, a, front, k, w);
      PassTwoLast(s, n, a + front, c, w);
      KeyStaysOnce(PassTwo(s, n, a + front, w).store, c, w, k);
    }
  }

  lemma {:induction false} KeyStaysOnce(s: Store, c: Change, w: Writer, k: Key)
    requires k in s.rows && c.op.Upsert?
    ensures k in Step(s, c, w).rows
  {}

  lemma {:induction false} WaitingIsFromBatch(s: Store, cs: seq<Change>, w: Writer)
    requires WellFormed(cs) && NoClash(s.rows, cs)
    ensures SettlesOrWaits(s.rows, cs, cs, PassOne(s, cs, w)) && AllUpserts(PassOne(s, cs, w).waiting)
  {
    assert cs[..|cs|] == cs;
    PassOneSettlesOrWaits(s, cs, |cs|, w);
  }

  lemma {:induction false} EarlierSettles(s: Store, n: Counts, cs: seq<Change>, i: nat, j: nat, w: Writer)
    requires i < j <= |cs| && AllUpserts(cs) && cs[i].op.Upsert?
    requires Decide(PassTwo(s, n, cs[..i], w).store.rows, cs[i]) in {Applied, Stale}
    ensures cs[i].key in PassTwo(s, n, cs[..j], w).store.rows
  {
    SettledNow(s, n, cs, i, w);
    assert cs[..i + 1] + cs[i + 1..j] == cs[..j];
    KeyStays(s, n, cs[..i + 1], cs[i + 1..j], cs[i].key, w);
  }

  lemma {:induction false} ParentArrived(s: Store, cs: seq<Change>, j: nat, w: Writer, p: Key)
    requires WellFormed(cs) && NoClash(s.rows, cs) && j < |PassOne(s, cs, w).waiting|
    requires ParentInTime(s, cs, j, w, p) && p != PassOne(s, cs, w).waiting[j].key
    ensures var one := PassOne(s, cs, w); p in PassTwo(one.store, one.counts, one.waiting[..j], w).store.rows
  {
    var one := PassOne(s, cs, w);
    WaitingIsFromBatch(s, cs, w);
    if p in one.store.rows {
      assert [] + one.waiting[..j] == one.waiting[..j];
      KeyStays(one.store, one.counts, [], one.waiting[..j], p, w);
    } else {
      var i :| 0 <= i < j && one.waiting[i].key == p && Decide(PassTwo(one.store, one.counts, one.waiting[..i], w).store.rows, one.waiting[i]) in {Applied, Stale};
      assert one.waiting[i] in one.waiting;
      EarlierSettles(one.store, one.counts, one.waiting, i, j, w);
    }
  }

  lemma {:induction false} SettledWithParents(rows: Rows, cs: seq<Change>, rows': Rows, c: Change)
    requires WellFormed(cs) && NoClash(rows, cs) && FromBatch(rows, cs, rows') && c in cs && ParentsPresent(rows', c.key, c.op.row)
    ensures Decide(rows', c) in {Applied, Stale}
  {
    NoClashInBatch(rows, cs, rows', c);
    NotRefused(rows', c);
  }

  /** Such a change is never refused in the second pass, so never counted as a conflict. */
  lemma {:induction false} ParentInTimeMeansNoConflict(s: Store, cs: seq<Change>, j: nat, w: Writer)
    requires WellFormed(cs) && NoClash(s.rows, cs)
    requires j < |PassOne(s, cs, w).waiting|
    requires forall p :: p in Parents(PassOne(s, cs, w).waiting[j]) ==> ParentInTime(s, cs, j, w, p)
    ensures var one := PassOne(s, cs, w);
            Decide(PassTwo(one.store, one.counts, one.waiting[..j], w).store.rows, one.waiting[j]) in {Applied, Stale}
  {
    var one := PassOne(s, cs, w);
    var c := one.waiting[j];
    WaitingIsFromBatch(s, cs, w);
    PassTwoKeeps(one.store, s.rows, cs, one.counts, one.waiting[..j], w);
    assert c in one.waiting;
    forall p | p in Parents(c) && p != c.key
      ensures p in PassTwo(one.store, one.counts, one.waiting[..j], w).store.rows
    {
      ParentArrived(s, cs, j, w, p);
    }
    SettledWithParents(s.rows, cs, PassTwo(one.store, one.counts, one.waiting[..j], w).store.rows, c);
  }

  // ---- how deep a batch may be out of order -------------------------------------------------

  /** A change that can be applied to the database as it is. */
  predicate IsRoot(rows: Rows, c: Change) { c.op.Upsert? && ParentsPresent(rows, c.key, c.op.row) }

  lemma {:induction false} PresentStaysPresent(rows: Rows, rows': Rows, c: Change)
    requires c.op.Upsert? && Grows(rows, rows') && ParentsPresent(rows, c.key, c.op.row)
    ensures ParentsPresent(rows', c.key, c.op.row)
  {}

  lemma {:induction false} RootsDoNotWait(s: Store, all: seq<Change>, n: nat, w: Writer)
    requires n <= |all| && WellFormed(all) && NoClash(s.rows, all)
    ensures forall c :: c in PassOne(s, all[..n], w).waiting ==> !IsRoot(s.rows, c)
  {
    if n > 0 {
      RootsDoNotWait(s, all, n - 1, w);
      PassOneSettlesOrWaits(s, all, n - 1, w);
      PassOneNext(s, all, n - 1, w);
      var p, c := PassOne(s, all[..n - 1], w), all[n - 1];
      NoClashInBatch(s.rows, all, p.store.rows, c);
      NotRefused(p.store.rows, c);
      if IsRoot(s.rows, c) {
        PresentStaysPresent(s.rows, p.store.rows, c);
      }
    }
  }

  /** Two levels in any order: when every missing parent is itself a root of the batch, one retry is enough. */
  lemma {:induction false} TwoLevelsNeverConflict(s: Store, cs: seq<Change>, w: Writer)
    requires WellFormed(cs) && NoClash(s.rows, cs)
    requires forall c, p :: c in cs && p in c.op.row.parents ==> p in s.rows || p == c.key || exists d :: d in cs && d.key == p && IsRoot(s.rows, d)
    ensures Batch(s, cs, w).counts.conflicts == 0
  {
    var one := PassOne(s, cs, w);
    assert cs[..|cs|] == cs;
    PassOneSettlesOrWaits(s, cs, |cs|, w);
    RootsDoNotWait(s, cs, |cs|, w);
    assert forall j :: 0 <= j < |one.waiting| ==> one.waiting[j] in one.waiting;
    NoConflictsInPassTwo(s, cs, |one.waiting|, w);
    assert one.waiting[..|one.waiting|] == one.waiting;
  }

  lemma {:induction false} NoConflictsInPassTwo(s: Store, cs: seq<Change>, n: nat, w: Writer)
    requires WellFormed(cs) && NoClash(s.rows, cs) && n <= |PassOne(s, cs, w).waiting|
    requires PassOne(s, cs, w).counts.conflicts == 0
    requires forall c, p :: c in cs && p in c.op.row.parents ==> p in s.rows || p == c.key || exists d :: d in cs && d.key == p && IsRoot(s.rows, d)
    requires forall c :: c in PassOne(s, cs, w).waiting ==> !IsRoot(s.rows, c) && c in cs
    ensures var one := PassOne(s, cs, w); PassTwo(one.store, one.counts, one.waiting[..n], w).counts.conflicts == 0
  {
    var one := PassOne(s, cs, w);
    if n > 0 {
      NoConflictsInPassTwo(s, cs, n - 1, w);
      assert one.waiting[..n][..n - 1] == one.waiting[..n - 1];
      var c := one.waiting[n - 1];
      assert c in one.waiting;
      ParentInTimeMeansNoConflict(s, cs, n - 1, w);
    }
  }

  // Three levels: a brand, a product of it, and a variant of that.
  function Grandchild(): Change { Change(Key("product_variants", 3), Upsert(Row(1, "v", {Key("products", 2)}, {}, true))) }

  function Child(): Change { Change(Key("products", 2), Upsert(Row(1, "p", {Key("brands", 1)}, {}, true))) }

  function Root(): Change { Change(Key("brands", 1), Upsert(Row(1, "b", {}, {}, true))) }

  /** Three levels, children before parents, are too deep: the grandchild is counted as a conflict. */
  lemma {:induction false} ThreeLevelsCanConflict()
    ensures Batch(Store(map[], [], 1), [Grandchild(), Child(), Root()], Local).counts == Counts(2, 0, 1)
  {
    var b, p, v := Root(), Child(), Grandchild();
    var one := Step(Store(map[], [], 1), b, Local);
    ThreeLevelsPassOne();
    ThreeDecisions(b.key, p.key, v.key, b.op.row, p.op.row, v.op.row);
    assert [v, p] == [v] + [p] && [v] == [] + [v];
    PassTwoLast(one, Counts(1, 0, 0), [], v, Local); PassTwoLast(one, Counts(1, 0, 0), [v], p, Local);
  }

  lemma {:induction false} ThreeLevelsPassOne()
    ensures var b, p, v, s := Root(), Child(), Grandchild(), Store(map[], [], 1);
      PassOne(s, [v, p, b], Local) == Pass(Step(s, b, Local), Counts(1, 0, 0), [v, p])
  {
    var b, p, v := Root(), Child(), Grandchild();
    var s := Store(map[], [], 1);
    ThreeDecisions(b.key, p.key, v.key, b.op.row, p.op.row, v.op.row);
    assert [v, p, b] == [v, p] + [b] && [v, p] == [v] + [p] && [v] == [] + [v];
    PassOneLast(s, [], v, Local); PassOneLast(s, [v], p, Local); PassOneLast(s, [v, p], b, Local);
  }

  /** The changes stand on at most n levels: a parent that is missing from the database has a change of its own, on a lower level. */
  predicate Levels(rows: Rows, cs: seq<Change>, level: map<Key, nat>, n: nat)
    requires AllUpserts(cs)
  {
    forall c :: c in cs ==> c.key in level && 1 <= level[c.key] <= n && forall p :: p in c.op.row.parents ==>
      p in rows || p == c.key || (p in level && level[p] < level[c.key] && exists d :: d in cs && d.key == p)
  }

  ghost predicate HasLevels(rows: Rows, cs: seq<Change>, n: nat)
    requires AllUpserts(cs)
  {
    exists level :: Levels(rows, cs, level, n)
  }

  /** No batch of n levels conflicts, in whatever order its changes come. */
  ghost predicate AnyOrderWorks(n: nat) {
    forall s: Store, cs, w :: WellFormed(cs) && NoClash(s.rows, cs) && HasLevels(s.rows, cs, n) ==> Batch(s, cs, w).counts.conflicts == 0
  }

  lemma {:induction false} LowestIsRoot(rows: Rows, cs: seq<Change>, level: map<Key, nat>, n: nat, d: Change)
    requires AllUpserts(cs) && Levels(rows, cs, level, n) && d in cs && level[d.key] <= 1
    ensures IsRoot(rows, d)
  {
    assert forall e :: e in cs ==> 1 <= level[e.key];
  }

  lemma {:induction false} TwoLevelsHaveRoots(rows: Rows, cs: seq<Change>, level: map<Key, nat>)
    requires AllUpserts(cs) && Levels(rows, cs, level, 2)
    ensures forall c, p :: c in cs && p in c.op.row.parents ==> p in rows || p == c.key || exists d :: d in cs && d.key == p && IsRoot(rows, d)
  {
    forall c, p | c in cs && p in c.op.row.parents && p !in rows && p != c.key
      ensures exists d :: d in cs && d.key == p && IsRoot(rows, d)
    {
      var d :| d in cs && d.key == p;
      LowestIsRoot(rows, cs, level, 2, d);
    }
  }

  /** How deep a batch may be in any order: one retry pass settles exactly two levels. */
  lemma {:induction false} OneRetryIsTwoLevels(n: nat)
    ensures AnyOrderWorks(n) <==> n <= 2
  {
    if n <= 2 {
      forall s: Store, cs, w | WellFormed(cs) && NoClash(s.rows, cs) && HasLevels(s.rows, cs, n)
        ensures Batch(s, cs, w).counts.conflicts == 0
      {
        var level :| Levels(s.rows, cs, level, n);
        assert Levels(s.rows, cs, level, 2);
        TwoLevelsHaveRoots(s.rows, cs, level);
        TwoLevelsNeverConflict(s, cs, w);
      }
    } else {
      ThreeLevels(n);
    }
  }

  lemma {:induction false} FamilyIsFine(cs: seq<Change>)
    requires cs == [Grandchild(), Child(), Root()]
    ensures WellFormed(cs) && NoClash(map[], cs)
  {
    TablesOfThree();
    assert forall i :: 0 <= i < 3 ==> cs[i].op.Upsert? && cs[i].op.row.claims == {};
  }

  lemma {:induction false} FamilyLevels(cs: seq<Change>, level: map<Key, nat>, n: nat)
    requires n >= 3 && cs == [Grandchild(), Child(), Root()] && AllUpserts(cs)
    requires level == map[Root().key := 1, Child().key := 2, Grandchild().key := 3]
    ensures Levels(map[], cs, level, n)
  {
    assert cs[1] in cs && cs[2] in cs;
    assert Child().key == Key("products", 2) && Root().key == Key("brands", 1);
  }

  lemma {:induction false} OneFailureIsEnough(s: Store, cs: seq<Change>, w: Writer, level: map<Key, nat>, n: nat)
    requires WellFormed(cs) && NoClash(s.rows, cs) && Levels(s.rows, cs, level, n) && Batch(s, cs, w).counts.conflicts > 0
    ensures !AnyOrderWorks(n)
  {
    assert HasLevels(s.rows, cs, n);
  }

  lemma {:induction false} ThreeLevels(n: nat)
    requires n >= 3
    ensures !AnyOrderWorks(n)
  {
    var cs := [Grandchild(), Child(), Root()];
    FamilyIsFine(cs);
    var level := map[Root().key := 1, Child().key := 2, Grandchild().key := 3];
    FamilyLevels(cs, level, n);
    ThreeLevelsCanConflict();
    OneFailureIsEnough(Store(map[], [], 1), cs, Local, level, n);
  }

  lemma {:induction false} ThreeDecisions(kb: Key, kp: Key, kv: Key, rb: Row, rp: Row, rv: Row)
    requires kb == Key("brands", 1) && kp == Key("products", 2) && kv == Key("product_variants", 3)
    requires rb == Row(1, "b", {}, {}, true) && rp == Row(1, "p", {kb}, {}, true) && rv == Row(1, "v", {kp}, {}, true)
    ensures Decide(map[], Change(kv, Upsert(rv))) == Retry && Decide(map[], Change(kp, Upsert(rp))) == Retry && Decide(map[], Change(kb, Upsert(rb))) == Applied
    ensures Decide(map[kb := rb], Change(kv, Upsert(rv))) == Retry && Decide(map[kb := rb], Change(kp, Upsert(rp))) == Applied
    ensures After(map[], Change(kb, Upsert(rb))) == map[kb := rb]
  {
    TablesOfThree();
    assert kp in rv.parents && kb in rp.parents;
  }

  lemma {:induction false} TablesOfThree()
    ensures ValidTable("brands") && ValidTable("products") && ValidTable("product_variants")
  {
    TenTables();
  }

  /** Ten tables are synced. */
  lemma {:induction false} TenTables()
    ensures ValidTable("units_of_measure") && ValidTable("categories") && ValidTable("brands") && ValidTable("parties") && ValidTable("products")
    ensures ValidTable("unit_conversions") && ValidTable("product_variants") && ValidTable("product_barcodes")
    ensures ValidTable("party_addresses") && ValidTable("party_tax_registrations")
    ensures |TABLES| == 10
  {
    assert TABLES[0] in TABLES && TABLES[1] in TABLES && TABLES[2] in TABLES && TABLES[3] in TABLES && TABLES[4] in TABLES;
    assert TABLES[5] in TABLES && TABLES[6] in TABLES && TABLES[7] in TABLES && TABLES[8] in TABLES && TABLES[9] in TABLES;
  }

  // ---- a parent in a later batch ------------------------------------------------------------

  /** No change brings the row p, or the row k without p as its parent. */
  predicate BringsNeither(c: Change, k: Key, p: Key) { c.key != p && (c.key == k ==> p in Parents(c) || !c.op.Upsert?) }

  lemma {:induction false} StepLacks(s: Store, c: Change, k: Key, p: Key, w: Writer)
    requires k !in s.rows && p !in s.rows && p != k && BringsNeither(c, k, p)
    ensures k !in Step(s, c, w).rows && p !in Step(s, c, w).rows
  {}

  lemma {:induction false} PassOneLacks(s: Store, cs: seq<Change>, k: Key, p: Key, w: Writer)
    requires k !in s.rows && p !in s.rows && p != k && forall c :: c in cs ==> BringsNeither(c, k, p)
    ensures var one := PassOne(s, cs, w); k !in one.store.rows && p !in one.store.rows && forall c :: c in one.waiting ==> c in cs
  {
    if cs != [] {
      PassOneLacks(s, cs[..|cs| - 1], k, p, w);
      StepLacks(PassOne(s, cs[..|cs| - 1], w).store, cs[|cs| - 1], k, p, w);
    }
  }

  lemma {:induction false} PassTwoLacks(s: Store, n: Counts, cs: seq<Change>, k: Key, p: Key, w: Writer)
    requires k !in s.rows && p !in s.rows && p != k && forall c :: c in cs ==> BringsNeither(c, k, p)
    ensures k !in PassTwo(s, n, cs, w).store.rows
    ensures p !in PassTwo(s, n, cs, w).store.rows
  {
    if cs != [] {
      PassTwoLacks(s, n, cs[..|cs| - 1], k, p, w);
      StepLacks(PassTwo(s, n, cs[..|cs| - 1], w).store, cs[|cs| - 1], k, p, w);
    }
  }

  lemma {:induction false} BatchLacks(s: Store, cs: seq<Change>, k: Key, p: Key, w: Writer)
    requires k !in s.rows && p !in s.rows && p != k && forall c :: c in cs ==> BringsNeither(c, k, p)
    ensures k !in Batch(s, cs, w).store.rows
  {
    PassOneLacks(s, cs, k, p, w);
    var one := PassOne(s, cs, w);
    PassTwoLacks(one.store, one.counts, one.waiting, k, p, w);
  }

  lemma {:induction false} PassOneWithout(s: Store, cs: seq<Change>, k: Key, w: Writer)
    requires k !in s.rows && forall c :: c in cs ==> c.key != k
    ensures var one := PassOne(s, cs, w); k !in one.store.rows && forall c :: c in one.waiting ==> c in cs
  {
    if cs != [] { PassOneWithout(s, cs[..|cs| - 1], k, w); }
  }

  lemma {:induction false} PassTwoWithout(s: Store, n: Counts, cs: seq<Change>, k: Key, w: Writer)
    requires k !in s.rows && forall c :: c in cs ==> c.key != k
    ensures k !in PassTwo(s, n, cs, w).store.rows
  {
    if cs != [] { PassTwoWithout(s, n, cs[..|cs| - 1], k, w); }
  }

  /** A row whose parent comes only in a later batch is lost, whatever else the two batches hold. */
  lemma {:induction false} LostBetweenBatches(s: Store, a: seq<Change>, b: seq<Change>, k: Key, p: Key, w: Writer)
    requires k !in s.rows && p !in s.rows && p != k
    requires (forall c :: c in a ==> BringsNeither(c, k, p)) && forall c :: c in b ==> c.key != k
    ensures k !in Batch(Batch(s, a, w).store, b, w).store.rows
  {
    BatchLacks(s, a, k, p, w);
    var t := Batch(s, a, w).store;
    PassOneWithout(t, b, k, w);
    var one := PassOne(t, b, w);
    PassTwoWithout(one.store, one.counts, one.waiting, k, w);
  }

  /** A batch without conflicts leaves all its changes covered. */
  lemma {:induction false} BatchCovers(s: Store, cs: seq<Change>, w: Writer)
    requires AllUpserts(cs) && Batch(s, cs, w).counts.conflicts == 0
    ensures forall c :: c in cs ==> Covers(Batch(s, cs, w).store.rows, c)
  {
    PassOneCovers(s, cs, w);
    var one := PassOne(s, cs, w);
    PassTwoCovers(one.store, one.counts, one.waiting, w);
    CoversGrows(one.store.rows, Batch(s, cs, w).store.rows);
  }

  // ---- the last write wins ------------------------------------------------------------------

  /** The tables that keep no time of writing. */
  predicate Unstamped(table: string) { table == "unit_conversions" || table == "product_barcodes" || table == "party_tax_registrations" }

  /** The database would take the row as it is: its values are free and its parents there. */
  predicate Fits(rows: Rows, k: Key, r: Row) {
    && ValidTable(k.table) && r.sound && (forall p :: p in r.parents ==> p in rows || p == k)
    && forall q :: q in rows && q != k ==> rows[q].claims * r.claims == {}
  }

  lemma {:induction false} BatchOfOne(s: Store, c: Change, w: Writer)
    requires Decide(s.rows, c) != Retry
    ensures Batch(s, [c], w).store == Step(s, c, w)
  {
    assert [] + [c] == [c];
    PassOneLast(s, [], c, w);
  }

  /** A stored row is replaced exactly by a version written later. */
  lemma {:induction false} NewerWins(s: Store, k: Key, r: Row, w: Writer)
    requires k in s.rows && !Unstamped(k.table) && Fits(s.rows, k, r)
    ensures Batch(s, [Change(k, Upsert(r))], w).store.rows == if r.updatedAt > s.rows[k].updatedAt then s.rows[k := r] else s.rows
  {
    BatchOfOne(s, Change(k, Upsert(r)), w);
  }

  /** A row not there yet is written. */
  lemma {:induction false} NewRowArrives(s: Store, k: Key, r: Row, w: Writer)
    requires k !in s.rows && Fits(s.rows, k, r)
    ensures Batch(s, [Change(k, Upsert(r))], w).store.rows == s.rows[k := r]
  {
    BatchOfOne(s, Change(k, Upsert(r)), w);
  }

  /** A delete takes out its row and nothing else, whenever it was written, unless another row refers to it. */
  lemma {:induction false} DeleteTakesOut(s: Store, k: Key, w: Writer)
    requires ValidTable(k.table)
    ensures Batch(s, [Change(k, Delete)], w).store.rows
      == if k in s.rows && exists q :: q in s.rows && q != k && k in s.rows[q].parents then s.rows else s.rows - {k}
  {
    var c := Change(k, Delete);
    if Decide(s.rows, c) == Retry {
      RetriedOnce(s, c, w);
    } else {
      BatchOfOne(s, c, w);
    }
  }

  lemma {:induction false} RetriedOnce(s: Store, c: Change, w: Writer)
    requires Decide(s.rows, c) == Retry
    ensures Batch(s, [c], w).store == s
  {
    assert [] + [c] == [c];
    PassOneLast(s, [], c, w);
    PassTwoLast(s, Counts(0, 0, 0), [], c, w);
  }

  lemma {:induction false} PassOneFrom(s: Store, all: seq<Change>, cs: seq<Change>, w: Writer)
    requires AllUpserts(all) && forall c :: c in cs ==> c in all
    ensures var p := PassOne(s, cs, w); FromBatch(s.rows, all, p.store.rows) && forall c :: c in p.waiting ==> c in all
  {
    if cs != [] {
      PassOneFrom(s, all, cs[..|cs| - 1], w);
      FromBatchStep(s.rows, all, PassOne(s, cs[..|cs| - 1], w).store, cs[|cs| - 1], w);
    }
  }

  lemma {:induction false} BatchFrom(s: Store, cs: seq<Change>, w: Writer)
    requires AllUpserts(cs)
    ensures FromBatch(s.rows, cs, Batch(s, cs, w).store.rows) && Grows(s.rows, Batch(s, cs, w).store.rows)
  {
    PassOneFrom(s, cs, cs, w);
    PassOneCovers(s, cs, w);
    var one := PassOne(s, cs, w);
    PassTwoKeeps(one.store, s.rows, cs, one.counts, one.waiting, w);
    GrowsTwice(s.rows, one.store.rows, Batch(s, cs, w).store.rows);
  }

  /** After a batch without conflicts every row that keeps its time of writing is the latest of those stored and sent. */
  lemma {:induction false} LatestIsKept(s: Store, cs: seq<Change>, w: Writer, k: Key)
    requires AllUpserts(cs) && Batch(s, cs, w).counts.conflicts == 0 && !Unstamped(k.table)
    ensures var rows := Batch(s, cs, w).store.rows;
      && (k in rows <==> k in s.rows || exists c :: c in cs && c.key == k)
      && (k in rows ==>
            && (k in s.rows ==> s.rows[k].updatedAt <= rows[k].updatedAt)
            && (forall c :: c in cs && c.key == k ==> c.op.row.updatedAt <= rows[k].updatedAt)
            && ((k in s.rows && rows[k] == s.rows[k]) || exists c :: c in cs && c.key == k && c.op.row == rows[k]))
  {
    BatchFrom(s, cs, w);
    BatchCovers(s, cs, w);
    var rows := Batch(s, cs, w).store.rows;
    if k in rows && !(k in s.rows && rows[k] == s.rows[k]) {
      var i :| 0 <= i < |cs| && cs[i].key == k && cs[i].op == Upsert(rows[k]);
      assert cs[i] in cs;
    }
  }

  /** Where no time of writing is kept, a row once written never changes. */
  lemma {:induction false} UnstampedStays(s: Store, cs: seq<Change>, w: Writer, k: Key)
    requires AllUpserts(cs) && Unstamped(k.table) && k in s.rows
    ensures var rows := Batch(s, cs, w).store.rows; k in rows && rows[k] == s.rows[k]
  {
    var one := PassOne(s, cs, w);
    PassOneFrom(s, cs, cs, w);
    UnstampedInPassOne(s, cs, w, k);
    UnstampedInPassTwo(one.store, one.counts, one.waiting, w, k);
  }

  lemma {:induction false} UnstampedInStep(s: Store, c: Change, w: Writer, k: Key)
    requires c.op.Upsert? && Unstamped(k.table) && k in s.rows
    ensures k in Step(s, c, w).rows && Step(s, c, w).rows[k] == s.rows[k]
  {}

  lemma {:induction false} UnstampedInPassOne(s: Store, cs: seq<Change>, w: Writer, k: Key)
    requires AllUpserts(cs) && Unstamped(k.table) && k in s.rows
    ensures var rows := PassOne(s, cs, w).store.rows; k in rows && rows[k] == s.rows[k]
  {
    if cs != [] {
      UnstampedInPassOne(s, cs[..|cs| - 1], w, k);
      UnstampedInStep(PassOne(s, cs[..|cs| - 1], w).store, cs[|cs| - 1], w, k);
    }
  }

  lemma {:induction false} UnstampedInPassTwo(s: Store, n: Counts, cs: seq<Change>, w: Writer, k: Key)
    requires (forall c :: c in cs ==> c.op.Upsert?) && Unstamped(k.table) && k in s.rows
    ensures var rows := PassTwo(s, n, cs, w).store.rows; k in rows && rows[k] == s.rows[k]
  {
    if cs != [] {
      UnstampedInPassTwo(s, n, cs[..|cs| - 1], w, k);
      UnstampedInStep(PassTwo(s, n, cs[..|cs| - 1], w).store, cs[|cs| - 1], w, k);
    }
  }

  // ---- what the constraints promise ---------------------------------------------------------

  /** Every row is sound, no two claim one unique value, and every row referred to is there. */
  ghost predicate Integrity(rows: Rows) {
    && (forall k :: k in rows ==> ValidTable(k.table) && rows[k].sound)
    && (forall k, q :: k in rows && q in rows && k != q ==> rows[k].claims * rows[q].claims == {})
    && (forall k, p :: k in rows && p in rows[k].parents ==> p in rows)
  }

  lemma {:induction false} StepKeepsIntegrity(s: Store, c: Change, w: Writer)
    requires Integrity(s.rows)
    ensures Integrity(Step(s, c, w).rows)
  {
    var rows := Step(s, c, w).rows;
    forall k, q | k in rows && q in rows && k != q
      ensures rows[k].claims * rows[q].claims == {}
    {}
  }

  lemma {:induction false} PassOneKeepsIntegrity(s: Store, cs: seq<Change>, w: Writer)
    requires Integrity(s.rows)
    ensures Integrity(PassOne(s, cs, w).store.rows)
  {
    if cs != [] {
      PassOneKeepsIntegrity(s, cs[..|cs| - 1], w);
      StepKeepsIntegrity(PassOne(s, cs[..|cs| - 1], w).store, cs[|cs| - 1], w);
    }
  }

  lemma {:induction false} PassTwoKeepsIntegrity(s: Store, n: Counts, cs: seq<Change>, w: Writer)
    requires Integrity(s.rows)
    ensures Integrity(PassTwo(s, n, cs, w).store.rows)
  {
    if cs != [] {
      PassTwoKeepsIntegrity(s, n, cs[..|cs| - 1], w);
      StepKeepsIntegrity(PassTwo(s, n, cs[..|cs| - 1], w).store, cs[|cs| - 1], w);
    }
  }

  /** Whatever a batch holds, deletes and malformed changes too, no constraint of the database is broken. */
  lemma {:induction false} BatchKeepsIntegrity(s: Store, cs: seq<Change>, w: Writer)
    requires Integrity(s.rows)
    ensures Integrity(Batch(s, cs, w).store.rows)
  {
    PassOneKeepsIntegrity(s, cs, w);
    var one := PassOne(s, cs, w);
    PassTwoKeepsIntegrity(one.store, one.counts, one.waiting, w);
  }
}
