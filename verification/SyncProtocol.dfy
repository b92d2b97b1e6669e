/** The whole replication: one server and any number of devices. */
module SyncProtocol {
  // Every interleaving of edits, pushed batches, pulled pages, relinks and restarts before a cursor is saved
  // (internal/modules/datasync/client.go:237-311, internal/modules/datasync/datasync.go).
  //
  // Cursors count log lines already examined; SyncClient relates them to sequence numbers.

  import opened Wrappers
  import opened SyncStore
  import opened SyncBatch

  /** Every version ever written, by row and rank.  Two writers never give one row the same rank with
      different contents, and never claim one unique value for two rows: that is the assumption on the world. */
  type History = map<(Key, nat), Row>

  /** A linked install.  The high marks are the furthest any round has got, saved or not: a round that
      restarts, or runs beside another, starts from a cursor at or below them. */
  datatype Install = Install(id: string, store: Store, pushed: nat, pulled: nat, pushedHigh: nat, pulledHigh: nat)

  datatype World = World(server: Store, installs: map<string, Install>, history: History)

  // ---- the invariant ------------------------------------------------------------------------

  ghost predicate HistoryOk(h: History) {
    && (forall k, n :: (k, n) in h ==> ValidTable(k.table) && h[(k, n)].sound && Rank(k, h[(k, n)]) == n)
    && (forall k, n, q, m :: (k, n) in h && (q, m) in h && k != q ==> h[(k, n)].claims * h[(q, m)].claims == {})
  }

  predicate Known(h: History, k: Key, r: Row) { (k, Rank(k, r)) in h && h[(k, Rank(k, r))] == r }

  ghost predicate RowsOk(rows: Rows, h: History) { forall k :: k in rows ==> Known(h, k, rows[k]) }

  ghost predicate LogOk(log: seq<Entry>, h: History) {
    forall i :: 0 <= i < |log| ==> log[i].change.op.Upsert? && Known(h, log[i].change.key, log[i].change.op.row)
  }

  /** The row k is mentioned before position i. */
  ghost predicate Mentioned(log: seq<Entry>, i: int, k: Key) { exists j :: 0 <= j < i && j < |log| && log[j].change.key == k }

  /** A log tells of a row's parents before it tells of the row, unless they were there all along. */
  ghost predicate ParentsFirst(log: seq<Entry>, base: Rows) {
    forall i, p :: 0 <= i < |log| && p in Parents(log[i].change) ==> p == log[i].change.key || p in base || Mentioned(log, i, p)
  }

  function Version(rows: Rows, k: Key): Change
    requires k in rows
  {
    Change(k, Upsert(rows[k]))
  }

  ghost predicate InLog(log: seq<Entry>, c: Change) { exists i :: 0 <= i < |log| && log[i].change == c }

  ghost predicate ServerInv(s: Store, h: History) {
    && RowsOk(s.rows, h) && LogOk(s.log, h) && ParentsFirst(s.log, map[])
    && (forall k :: k in s.rows ==> InLog(s.log, Version(s.rows, k)))
    && (forall i :: 0 <= i < |s.log| ==> Covers(s.rows, s.log[i].change))
  }

  /** An install's rows and log are known, its own, and in an order the server can follow. */
  ghost predicate Sound(store: Store, h: History, base: Rows) {
    && RowsOk(store.rows, h) && LogOk(store.log, h) && ParentsFirst(store.log, base)
    && forall i :: 0 <= i < |store.log| ==> store.log[i].origin == None && Covers(store.rows, store.log[i].change)
  }

  predicate CursorsOk(s: Store, d: Install) { d.pushed <= d.pushedHigh <= |d.store.log| && d.pulled <= d.pulledHigh <= |s.log| }

  /** Every version the install holds is known to the server, or in its log. */
  ghost predicate KnownOrLogged(base: Rows, store: Store) {
    forall k :: k in store.rows ==> Covers(base, Version(store.rows, k)) || InLog(store.log, Version(store.rows, k))
  }

  /** What was pushed has reached the server. */
  predicate PushedCovered(base: Rows, log: seq<Entry>, hi: nat) { forall i :: 0 <= i < hi && i < |log| ==> Covers(base, log[i].change) }

  /** What was pulled, or was its own, is covered by the install's rows. */
  predicate PulledCovered(rows: Rows, log: seq<Entry>, hi: nat, id: string) {
    forall i :: 0 <= i < |log| && (i < hi || log[i].origin == Some(id)) ==> Covers(rows, log[i].change)
  }

  ghost predicate InstallInv(s: Store, h: History, d: Install) {
    && Sound(d.store, h, s.rows) && CursorsOk(s, d) && KnownOrLogged(s.rows, d.store)
    && PushedCovered(s.rows, d.store.log, d.pushedHigh) && PulledCovered(d.store.rows, s.log, d.pulledHigh, d.id)
  }

  ghost predicate DistinctIds(installs: map<string, Install>) {
    forall a, b :: a in installs && b in installs && a != b ==> installs[a].id != installs[b].id
  }

  ghost predicate Inv(w: World) {
    && HistoryOk(w.history) && ServerInv(w.server, w.history) && DistinctIds(w.installs)
    && forall n :: n in w.installs ==> InstallInv(w.server, w.history, w.installs[n])
  }

  // ---- one write ----------------------------------------------------------------------------

  lemma {:induction false} KnownNeverClashes(rows: Rows, h: History, k: Key, r: Row)
    requires HistoryOk(h) && RowsOk(rows, h) && Known(h, k, r)
    ensures !Clashes(rows, k, r)
  {
    forall q | q in rows && q != k
      ensures rows[q].claims * r.claims == {}
    {
      assert Known(h, q, rows[q]);
    }
  }

  /** A known change whose parents are present is applied or stale, and afterwards covered. */
  lemma {:induction false} KnownChangeSettles(s: Store, h: History, c: Change, w: Writer)
    requires HistoryOk(h) && RowsOk(s.rows, h) && c.op.Upsert? && Known(h, c.key, c.op.row)
    requires ParentsPresent(s.rows, c.key, c.op.row)
    ensures Decide(s.rows, c) == Applied || Decide(s.rows, c) == Stale
    ensures var s' := Step(s, c, w); RowsOk(s'.rows, h) && Grows(s.rows, s'.rows) && Covers(s'.rows, c)
    ensures forall k :: k in Step(s, c, w).rows ==> (k in s.rows && Step(s, c, w).rows[k] == s.rows[k]) || (Decide(s.rows, c) == Applied && Version(Step(s, c, w).rows, k) == c)
  {
    KnownNeverClashes(s.rows, h, c.key, c.op.row);
    StepGrows(s, c, w);
  }

  lemma {:induction false} WrittenParentsFirst(store: Store, c: Change, e: Entry, base: Rows)
    requires ParentsFirst(store.log, base) && KnownOrLogged(base, store) && e.change == c && c.op.Upsert?
    requires ParentsPresent(store.rows, c.key, c.op.row)
    ensures ParentsFirst(store.log + [e], base)
  {
    var log, log' := store.log, store.log + [e];
    assert log'[|log|] == e && forall j :: 0 <= j < |log| ==> log'[j] == log[j];
    forall i, p | 0 <= i < |log'| && p in Parents(log'[i].change)
      ensures p == log'[i].change.key || p in base || Mentioned(log', i, p)
    {
      if i < |log| {
        assert p == log[i].change.key || p in base || Mentioned(log, i, p);
      } else if p != c.key {
        assert Covers(base, Version(store.rows, p)) || InLog(log, Version(store.rows, p));
      }
    }
  }

  lemma {:induction false} WrittenIsKnown(store: Store, c: Change, e: Entry, base: Rows)
    requires KnownOrLogged(base, store) && e.change == c && c.op.Upsert?
    ensures KnownOrLogged(base, Store(store.rows[c.key := c.op.row], store.log + [e], store.nextSeq + 1))
  {
    var rows, log := store.rows[c.key := c.op.row], store.log + [e];
    assert log[|store.log|].change == c && forall j :: 0 <= j < |store.log| ==> log[j] == store.log[j];
    forall k | k in rows
      ensures Covers(base, Version(rows, k)) || InLog(log, Version(rows, k))
    {
      if k != c.key { assert Covers(base, Version(store.rows, k)) || InLog(store.log, Version(store.rows, k)); }
    }
  }

  lemma {:induction false} WrittenIsCovered(rows: Rows, log: seq<Entry>, h: History, c: Change, e: Entry)
    requires HistoryOk(h) && c.op.Upsert? && Known(h, c.key, c.op.row) && e.change == c && Grows(rows, rows[c.key := c.op.row])
    requires LogOk(log, h) && forall i :: 0 <= i < |log| ==> Covers(rows, log[i].change)
    ensures LogOk(log + [e], h) && forall i :: 0 <= i < |log + [e]| ==> Covers(rows[c.key := c.op.row], (log + [e])[i].change)
  {
    CoversGrows(rows, rows[c.key := c.op.row]);
    assert (log + [e])[|log|] == e && forall j :: 0 <= j < |log| ==> (log + [e])[j] == log[j];
    assert Covers(rows[c.key := c.op.row], c);
  }

  lemma {:induction false} ServerWrites(s: Store, h: History, c: Change, e: Entry)
    requires HistoryOk(h) && ServerInv(s, h) && c.op.Upsert? && Known(h, c.key, c.op.row) && e.change == c
    requires ParentsPresent(s.rows, c.key, c.op.row) && Grows(s.rows, s.rows[c.key := c.op.row])
    ensures ServerInv(Store(s.rows[c.key := c.op.row], s.log + [e], s.nextSeq + 1), h)
  {
    assert KnownOrLogged(map[], s);
    WrittenParentsFirst(s, c, e, map[]);
    WrittenIsKnown(s, c, e, map[]);
    WrittenIsCovered(s.rows, s.log, h, c, e);
  }

  /** The server keeps its invariant under a known change with its parents in place, logged or stale. */
  lemma {:induction false} ServerKeeps(s: Store, h: History, c: Change, w: Writer)
    requires HistoryOk(h) && ServerInv(s, h) && c.op.Upsert? && Known(h, c.key, c.op.row)
    requires ParentsPresent(s.rows, c.key, c.op.row) && w != Skip
    ensures ServerInv(Step(s, c, w), h)
  {
    KnownChangeSettles(s, h, c, w);
    if Decide(s.rows, c) == Applied {
      ServerWrites(s, h, c, Entry(s.nextSeq, c, OriginOf(w)));
    }
  }

  lemma {:induction false} ParentsStayFirst(log: seq<Entry>, base: Rows, base': Rows)
    requires ParentsFirst(log, base) && Grows(base, base')
    ensures ParentsFirst(log, base')
  {
    assert forall p :: p in base ==> p in base';
  }

  lemma {:induction false} StillPulled(rows: Rows, log: seq<Entry>, log': seq<Entry>, hi: nat, id: string)
    requires PulledCovered(rows, log, hi, id) && log <= log' && hi <= |log|
    requires forall i :: |log| <= i < |log'| && log'[i].origin == Some(id) ==> Covers(rows, log'[i].change)
    ensures PulledCovered(rows, log', hi, id)
  {}

  /** Another install is not disturbed when the server's rows grow and its log gets longer. */
  lemma {:induction false} InstallUndisturbed(s: Store, s': Store, h: History, d: Install)
    requires InstallInv(s, h, d) && Grows(s.rows, s'.rows) && s.log <= s'.log
    requires forall i :: |s.log| <= i < |s'.log| && s'.log[i].origin == Some(d.id) ==> Covers(d.store.rows, s'.log[i].change)
    ensures InstallInv(s', h, d)
  {
    CoversGrows(s.rows, s'.rows);
    ParentsStayFirst(d.store.log, s.rows, s'.rows);
    StillPulled(d.store.rows, s.log, s'.log, d.pulledHigh, d.id);
  }

  // ---- one log line pushed, one pulled ------------------------------------------------------

  function Max(a: nat, b: nat): nat { if a < b then b else a }

  function PushedTo(d: Install, n: nat): Install { d.(pushedHigh := Max(d.pushedHigh, n)) }

  function PulledTo(d: Install, store: Store, n: nat): Install { d.(store := store, pulledHigh := Max(d.pulledHigh, n)) }

  lemma {:induction false} PushedParentsPresent(s: Store, h: History, d: Install, i: nat)
    requires InstallInv(s, h, d) && i < |d.store.log| && i <= d.pushedHigh
    ensures ParentsPresent(s.rows, d.store.log[i].change.key, d.store.log[i].change.op.row)
  {
    var log := d.store.log;
    forall p | p in Parents(log[i].change)
      ensures p in s.rows || p == log[i].change.key
    {
      if Mentioned(log, i, p) {
        var j :| 0 <= j < i && j < |log| && log[j].change.key == p;
        assert Covers(s.rows, log[j].change);
      }
    }
  }

  /** Line i of the install's log reaches the server; no line before it may be missing there. */
  lemma {:induction false} PushLine(s: Store, h: History, d: Install, i: nat)
    requires HistoryOk(h) && ServerInv(s, h) && InstallInv(s, h, d) && i < |d.store.log| && i <= d.pushedHigh
    ensures var c := d.store.log[i].change;
      && (Decide(s.rows, c) == Applied || Decide(s.rows, c) == Stale)
      && ServerInv(Step(s, c, Device(d.id)), h)
      && InstallInv(Step(s, c, Device(d.id)), h, PushedTo(d, i + 1))
  {
    var c, w := d.store.log[i].change, Device(d.id);
    PushedParentsPresent(s, h, d, i);
    KnownChangeSettles(s, h, c, w);
    ServerKeeps(s, h, c, w);
    PushUndisturbed(s, h, d, c, w);
    CursorPastLine(Step(s, c, w), h, d, i);
  }

  lemma {:induction false} PushUndisturbed(s: Store, h: History, d: Install, c: Change, w: Writer)
    requires InstallInv(s, h, d) && Grows(s.rows, Step(s, c, w).rows) && Covers(d.store.rows, c)
    ensures InstallInv(Step(s, c, w), h, d)
  {
    var s' := Step(s, c, w);
    assert forall i :: |s.log| <= i < |s'.log| ==> s'.log[i].change == c;
    InstallUndisturbed(s, s', h, d);
  }

  lemma {:induction false} PushedFurther(base: Rows, log: seq<Entry>, hi: nat, i: nat)
    requires PushedCovered(base, log, hi) && i <= hi && i < |log| && Covers(base, log[i].change)
    ensures PushedCovered(base, log, Max(hi, i + 1))
  {}

  lemma {:induction false} CursorPastLine(s: Store, h: History, d: Install, i: nat)
    requires InstallInv(s, h, d) && i < |d.store.log| && i <= d.pushedHigh && Covers(s.rows, d.store.log[i].change)
    ensures InstallInv(s, h, PushedTo(d, i + 1))
  {
    PushedFurther(s.rows, d.store.log, d.pushedHigh, i);
  }

  lemma {:induction false} PulledParentsPresent(s: Store, h: History, d: Install, i: nat)
    requires ServerInv(s, h) && InstallInv(s, h, d) && i < |s.log| && i <= d.pulledHigh
    ensures ParentsPresent(d.store.rows, s.log[i].change.key, s.log[i].change.op.row)
  {
    var log := s.log;
    forall p | p in Parents(log[i].change)
      ensures p in d.store.rows || p == log[i].change.key
    {
      assert p == log[i].change.key || Mentioned(log, i, p);
      if Mentioned(log, i, p) {
        var j :| 0 <= j < i && j < |log| && log[j].change.key == p;
        assert Covers(d.store.rows, log[j].change);
      }
    }
  }

  lemma {:induction false} SoundAfterGrowth(store: Store, store': Store, h: History, base: Rows)
    requires Sound(store, h, base) && RowsOk(store'.rows, h) && Grows(store.rows, store'.rows) && store'.log == store.log
    ensures Sound(store', h, base)
  {
    CoversGrows(store.rows, store'.rows);
  }

  lemma {:induction false} KnownAfterPull(base: Rows, store: Store, store': Store, c: Change)
    requires KnownOrLogged(base, store) && Covers(base, c) && store'.log == store.log
    requires forall k :: k in store'.rows ==> (k in store.rows && store'.rows[k] == store.rows[k]) || Version(store'.rows, k) == c
    ensures KnownOrLogged(base, store')
  {
    forall k | k in store'.rows
      ensures Covers(base, Version(store'.rows, k)) || InLog(store'.log, Version(store'.rows, k))
    {
      if k in store.rows { assert Covers(base, Version(store.rows, k)) || InLog(store.log, Version(store.rows, k)); }
    }
  }

  lemma {:induction false} PulledFurther(rows: Rows, rows': Rows, log: seq<Entry>, hi: nat, id: string, i: nat)
    requires PulledCovered(rows, log, hi, id) && i <= hi && i < |log| && Grows(rows, rows') && Covers(rows', log[i].change)
    ensures PulledCovered(rows', log, Max(hi, i + 1), id)
  {
    CoversGrows(rows, rows');
  }

  /** The install after it applied line i without logging it. */
  lemma {:induction false} PulledLineKept(s: Store, h: History, d: Install, i: nat, next: Store)
    requires InstallInv(s, h, d) && i < |s.log| && i <= d.pulledHigh && Covers(s.rows, s.log[i].change)
    requires RowsOk(next.rows, h) && Grows(d.store.rows, next.rows) && Covers(next.rows, s.log[i].change) && next.log == d.store.log
    requires forall k :: k in next.rows ==> (k in d.store.rows && next.rows[k] == d.store.rows[k]) || Version(next.rows, k) == s.log[i].change
    ensures InstallInv(s, h, PulledTo(d, next, i + 1))
  {
    SoundAfterGrowth(d.store, next, h, s.rows);
    KnownAfterPull(s.rows, d.store, next, s.log[i].change);
    PulledFurther(d.store.rows, next.rows, s.log, d.pulledHigh, d.id, i);
  }

  /** Line i of the server's log reaches the install; what the install applies it does not log. */
  lemma {:induction false} PullLine(s: Store, h: History, d: Install, i: nat)
    requires HistoryOk(h) && ServerInv(s, h) && InstallInv(s, h, d) && i < |s.log| && i <= d.pulledHigh
    ensures var c := s.log[i].change;
      && (Decide(d.store.rows, c) == Applied || Decide(d.store.rows, c) == Stale)
      && (var next := if s.log[i].origin == Some(d.id) then d.store else Step(d.store, c, Skip);
          InstallInv(s, h, PulledTo(d, next, i + 1)))
  {
    var c := s.log[i].change;
    PulledParentsPresent(s, h, d, i);
    KnownChangeSettles(d.store, h, c, Skip);
    if s.log[i].origin == Some(d.id) {
      PulledFurther(d.store.rows, d.store.rows, s.log, d.pulledHigh, d.id, i);
    } else {
      PulledLineKept(s, h, d, i, Step(d.store, c, Skip));
    }
  }

  // ---- batches and pages --------------------------------------------------------------------

  /** The changes on lines lo..hi of a log that somebody asks for. */
  function Wanted(log: seq<Entry>, lo: nat, hi: nat, keep: Entry -> bool): seq<Change>
    requires hi <= |log|
    decreases hi
  {
    if hi <= lo then []
    else if keep(log[hi - 1]) then Wanted(log, lo, hi - 1, keep) + [log[hi - 1].change]
    else Wanted(log, lo, hi - 1, keep)
  }

  /** What an install pushes: the lines it wrote itself. */
  predicate Own(e: Entry) { e.origin == None }

  /** What the server hands an install: the lines somebody else wrote. */
  function Foreign(id: string): Entry -> bool { (e: Entry) => e.origin != Some(id) }

  /** Log lines from n on are all by the install id. */
  predicate WrittenBy(log: seq<Entry>, n: nat, id: string) { forall i :: n <= i < |log| ==> log[i].origin == Some(id) }

  predicate Settled(p: Pass) { p.waiting == [] && p.counts.conflicts == 0 }

  lemma {:induction false} SettledStep(s: Store, cs: seq<Change>, c: Change, w: Writer)
    requires Settled(PassOne(s, cs, w))
    requires var o := Decide(PassOne(s, cs, w).store.rows, c); o == Applied || o == Stale
    ensures Settled(PassOne(s, cs + [c], w)) && PassOne(s, cs + [c], w).store == Step(PassOne(s, cs, w).store, c, w)
  {
    PassOneLast(s, cs, c, w);
  }

  /** The server after a batch by the install id: newer rows, and only that install's lines added. */
  ghost predicate Extended(s: Store, s': Store, id: string) { Grows(s.rows, s'.rows) && s.log <= s'.log && WrittenBy(s'.log, |s.log|, id) }

  lemma {:induction false} ExtendedStep(s: Store, s': Store, id: string, c: Change)
    requires Extended(s, s', id) && c.op.Upsert?
    ensures Extended(s, Step(s', c, Device(id)), id)
  {
    StepGrows(s', c, Device(id));
  }

  /** The server after the lines up to n were pushed. */
  ghost predicate PushedSoFar(s: Store, h: History, d: Install, t: Store, n: nat) {
    Extended(s, t, d.id) && ServerInv(t, h) && InstallInv(t, h, PushedTo(d, n))
  }

  lemma {:induction false} PushNext(s: Store, t: Store, h: History, d: Install, n: nat)
    requires HistoryOk(h) && n < |d.store.log| && PushedSoFar(s, h, d, t, n)
    ensures var c := d.store.log[n].change;
      Own(d.store.log[n]) && Settles(t, c) && PushedSoFar(s, h, d, Step(t, c, Device(d.id)), n + 1)
  {
    PushLine(t, h, PushedTo(d, n), n);
    ExtendedStep(s, t, d.id, d.store.log[n].change);
    assert PushedTo(PushedTo(d, n), n + 1) == PushedTo(d, n + 1);
  }

  lemma {:induction false} PullNext(s: Store, t: Store, h: History, d: Install, n: nat)
    requires HistoryOk(h) && n < |s.log| && ServerInv(s, h) && InstallInv(s, h, PulledTo(d, t, n)) && t.log == d.store.log
    ensures var e := s.log[n];
      && (Decide(t.rows, e.change) == Applied || Decide(t.rows, e.change) == Stale)
      && (var t' := if e.origin == Some(d.id) then t else Step(t, e.change, Skip); t'.log == d.store.log && InstallInv(s, h, PulledTo(d, t', n + 1)))
  {
    PullLine(s, h, PulledTo(d, t, n), n);
    var t' := if s.log[n].origin == Some(d.id) then t else Step(t, s.log[n].change, Skip);
    assert PulledTo(PulledTo(d, t, n), t', n + 1) == PulledTo(d, t', n + 1);
  }

  predicate Settles(s: Store, c: Change) { Decide(s.rows, c) == Applied || Decide(s.rows, c) == Stale }

  /** Line-by-line induction over a batch, for any property of the store and the line reached. */
  lemma {:induction false} OverLines(s: Store, log: seq<Entry>, lo: nat, hi: nat, keep: Entry -> bool, w: Writer, holds: (Store, nat) -> bool)
    requires lo <= hi <= |log| && holds(s, lo)
    requires forall t, n :: lo <= n < hi && holds(t, n) && keep(log[n]) ==> Settles(t, log[n].change) && holds(Step(t, log[n].change, w), n + 1)
    requires forall t, n :: lo <= n < hi && holds(t, n) && !keep(log[n]) ==> holds(t, n + 1)
    ensures var p := PassOne(s, Wanted(log, lo, hi, keep), w); Settled(p) && holds(p.store, hi)
    decreases hi
  {
    if lo < hi {
      OverLines(s, log, lo, hi - 1, keep, w, holds);
      var cs := Wanted(log, lo, hi - 1, keep);
      assert holds(PassOne(s, cs, w).store, hi - 1);
      if keep(log[hi - 1]) {
        SettledStep(s, cs, log[hi - 1].change, w);
      }
    }
  }

  /** A pushed batch is settled in pass one: nothing waits, nothing conflicts. */
  lemma {:induction false} PushLines(s: Store, h: History, d: Install, lo: nat, hi: nat)
    requires HistoryOk(h) && ServerInv(s, h) && InstallInv(s, h, d) && lo <= d.pushedHigh && lo <= hi <= |d.store.log|
    ensures var p := PassOne(s, Wanted(d.store.log, lo, hi, Own), Device(d.id));
      Settled(p) && PushedSoFar(s, h, d, p.store, hi)
  {
    var holds := (t: Store, n: nat) => PushedSoFar(s, h, d, t, n);
    assert PushedTo(d, lo) == d;
    forall t: Store, n: nat | lo <= n < hi && holds(t, n)
      ensures Own(d.store.log[n]) && Settles(t, d.store.log[n].change) && holds(Step(t, d.store.log[n].change, Device(d.id)), n + 1)
    {
      PushNext(s, t, h, d, n);
    }
    OverLines(s, d.store.log, lo, hi, Own, Device(d.id), holds);
  }

  /** So is a pulled page, and the install logs none of it. */
  lemma {:induction false} PullLines(s: Store, h: History, d: Install, lo: nat, hi: nat)
    requires HistoryOk(h) && ServerInv(s, h) && InstallInv(s, h, d) && lo <= d.pulledHigh && lo <= hi <= |s.log|
    ensures var p := PassOne(d.store, Wanted(s.log, lo, hi, Foreign(d.id)), Skip);
      Settled(p) && p.store.log == d.store.log && InstallInv(s, h, PulledTo(d, p.store, hi))
  {
    var keep := Foreign(d.id);
    var holds := (t: Store, n: nat) => t.log == d.store.log && InstallInv(s, h, PulledTo(d, t, n));
    assert PulledTo(d, d.store, lo) == d;
    forall t: Store, n: nat | lo <= n < hi && holds(t, n) && keep(s.log[n])
      ensures Settles(t, s.log[n].change) && holds(Step(t, s.log[n].change, Skip), n + 1)
    {
      PullNext(s, t, h, d, n);
    }
    forall t: Store, n: nat | lo <= n < hi && holds(t, n) && !keep(s.log[n])
      ensures holds(t, n + 1)
    {
      PullNext(s, t, h, d, n);
    }
    OverLines(d.store, s.log, lo, hi, keep, Skip, holds);
  }

  // ---- edits --------------------------------------------------------------------------------

  /** A local edit the database accepts: a new row or a later version, its parents there, its values free. */
  ghost predicate CanEdit(rows: Rows, h: History, c: Change) {
    && c.op.Upsert? && ValidTable(c.key.table) && c.op.row.sound
    && ParentsPresent(rows, c.key, c.op.row)
    && (c.key in rows ==> Rank(c.key, rows[c.key]) < Rank(c.key, c.op.row))
    && (var v := (c.key, Rank(c.key, c.op.row)); v in h ==> h[v] == c.op.row)
    && (forall q, m :: (q, m) in h && q != c.key ==> h[(q, m)].claims * c.op.row.claims == {})
  }

  function Record(h: History, c: Change): History
    requires c.op.Upsert?
  {
    h[(c.key, Rank(c.key, c.op.row)) := c.op.row]
  }

  lemma {:induction false} RecordKeeps(rows: Rows, h: History, c: Change)
    requires HistoryOk(h) && CanEdit(rows, h, c)
    ensures HistoryOk(Record(h, c)) && Known(Record(h, c), c.key, c.op.row)
    ensures forall k, r :: Known(h, k, r) ==> Known(Record(h, c), k, r)
  {}

  lemma {:induction false} EditIsApplied(s: Store, h: History, c: Change)
    requires HistoryOk(h) && RowsOk(s.rows, h) && CanEdit(s.rows, h, c)
    ensures Decide(s.rows, c) == Applied
  {
    forall q | q in s.rows && q != c.key
      ensures s.rows[q].claims * c.op.row.claims == {}
    {
      assert Known(h, q, s.rows[q]);
    }
  }

  /** An edit on the server. */
  lemma {:induction false} ServerEdits(s: Store, h: History, c: Change)
    requires HistoryOk(h) && ServerInv(s, h) && CanEdit(s.rows, h, c)
    ensures HistoryOk(Record(h, c)) && ServerInv(Step(s, c, Local), Record(h, c))
    ensures Grows(s.rows, Step(s, c, Local).rows) && s.log <= Step(s, c, Local).log
    ensures forall i :: |s.log| <= i < |Step(s, c, Local).log| ==> Step(s, c, Local).log[i].origin == None
  {
    RecordKeeps(s.rows, h, c);
    assert ServerInv(s, Record(h, c));
    ServerKeeps(s, Record(h, c), c, Local);
    StepGrows(s, c, Local);
  }

  lemma {:induction false} EditedIsSound(store: Store, h: History, c: Change, e: Entry, base: Rows)
    requires HistoryOk(h) && Sound(store, h, base) && c.op.Upsert? && Known(h, c.key, c.op.row) && e.change == c && e.origin == None
    requires Grows(store.rows, store.rows[c.key := c.op.row]) && ParentsFirst(store.log + [e], base)
    ensures Sound(Store(store.rows[c.key := c.op.row], store.log + [e], store.nextSeq + 1), h, base)
  {
    WrittenIsCovered(store.rows, store.log, h, c, e);
  }

  lemma {:induction false} EditStep(s: Store, h: History, c: Change)
    requires HistoryOk(h) && RowsOk(s.rows, h) && CanEdit(s.rows, h, c)
    ensures Step(s, c, Local) == Store(s.rows[c.key := c.op.row], s.log + [Entry(s.nextSeq, c, None)], s.nextSeq + 1)
    ensures ParentsPresent(s.rows, c.key, c.op.row) && Grows(s.rows, s.rows[c.key := c.op.row])
  {
    EditIsApplied(s, h, c);
    StepGrows(s, c, Local);
  }

  lemma {:induction false} LongerHistory(s: Store, h: History, h': History, d: Install)
    requires InstallInv(s, h, d) && forall k, r :: Known(h, k, r) ==> Known(h', k, r)
    ensures InstallInv(s, h', d)
  {}

  lemma {:induction false} GrownIsPulled(rows: Rows, rows': Rows, log: seq<Entry>, hi: nat, id: string)
    requires PulledCovered(rows, log, hi, id) && Grows(rows, rows')
    ensures PulledCovered(rows', log, hi, id)
  {
    CoversGrows(rows, rows');
  }

  /** An edit on an install: its line is beyond the push cursor, and its parents are known to the server or on earlier lines. */
  lemma {:induction false} InstallEdits(s: Store, h: History, d: Install, c: Change)
    requires HistoryOk(h) && InstallInv(s, h, d) && CanEdit(d.store.rows, h, c)
    ensures InstallInv(s, Record(h, c), d.(store := Step(d.store, c, Local)))
  {
    var e := Entry(d.store.nextSeq, c, None);
    EditStep(d.store, h, c);
    RecordKeeps(d.store.rows, h, c);
    LongerHistory(s, h, Record(h, c), d);
    WrittenParentsFirst(d.store, c, e, s.rows);
    EditedIsSound(d.store, Record(h, c), c, e, s.rows);
    WrittenIsKnown(d.store, c, e, s.rows);
    GrownIsPulled(d.store.rows, d.store.rows[c.key := c.op.row], s.log, d.pulledHigh, d.id);
  }

  // ---- the transition system ----------------------------------------------------------------

  /** One transaction.  A batch or page starts at a cursor some round holds and is of any length; `saved` is false when the
      install restarts, or loses the answer, before the cursor is stored. */
  datatype Action =
    | ServerEdit(change: Change)
    | InstallEdit(name: string, change: Change)
    | Push(name: string, lo: nat, hi: nat, saved: bool)
    | Pull(name: string, lo: nat, hi: nat, saved: bool)
    | Relink(name: string, id: string)

  function AfterPush(d: Install, hi: nat, saved: bool): Install {
    var e := PushedTo(d, hi);
    if saved then e.(pushed := hi) else e
  }

  function AfterPull(d: Install, store: Store, hi: nat, saved: bool): Install {
    var e := PulledTo(d, store, hi);
    if saved then e.(pulled := hi) else e
  }

  ghost predicate Next(w: World, a: Action, w': World) {
    match a
    case ServerEdit(c) =>
      CanEdit(w.server.rows, w.history, c) && w' == World(Step(w.server, c, Local), w.installs, Record(w.history, c))
    case InstallEdit(n, c) =>
      n in w.installs && CanEdit(w.installs[n].store.rows, w.history, c)
      && w' == World(w.server, w.installs[n := w.installs[n].(store := Step(w.installs[n].store, c, Local))], Record(w.history, c))
    case Push(n, lo, hi, saved) =>
      n in w.installs && (var d := w.installs[n];
        lo <= d.pushedHigh && lo <= hi <= |d.store.log|
        && w' == World(Batch(w.server, Wanted(d.store.log, lo, hi, Own), Device(d.id)).store, w.installs[n := AfterPush(d, hi, saved)], w.history))
    case Pull(n, lo, hi, saved) =>
      n in w.installs && (var d := w.installs[n];
        lo <= d.pulledHigh && lo <= hi <= |w.server.log|
        && w' == World(w.server, w.installs[n := AfterPull(d, Batch(d.store, Wanted(w.server.log, lo, hi, Foreign(d.id)), Skip).store, hi, saved)], w.history))
    case Relink(n, id) =>
      n in w.installs && (forall m :: m in w.installs ==> w.installs[m].id != id) && (forall i :: 0 <= i < |w.server.log| ==> w.server.log[i].origin != Some(id))
      && w' == World(w.server, w.installs[n := w.installs[n].(id := id, pushed := 0, pulled := 0, pushedHigh := 0, pulledHigh := 0)], w.history)
  }

  /** A log as the migration seeds it: one line for every row there was, with no origin. */
  ghost predicate SeededLog(s: Store) {
    && (forall i :: 0 <= i < |s.log| ==> s.log[i].origin == None && s.log[i].change.key in s.rows && s.log[i].change == Version(s.rows, s.log[i].change.key))
    && (forall k :: k in s.rows ==> InLog(s.log, Version(s.rows, k)))
  }

  predicate AtStart(d: Install) { d.pushed == d.pulled == d.pushedHigh == d.pulledHigh == 0 }

  /** The start: everybody with the rows they had when sync was introduced, or none, and nothing exchanged. */
  ghost predicate Init(w: World) {
    && HistoryOk(w.history) && RowsOk(w.server.rows, w.history) && SeededLog(w.server) && DistinctIds(w.installs)
    && forall n :: n in w.installs ==> AtStart(w.installs[n]) && RowsOk(w.installs[n].store.rows, w.history) && SeededLog(w.installs[n].store)
  }

  lemma {:induction false} SeededLines(s: Store, h: History)
    requires HistoryOk(h) && RowsOk(s.rows, h) && SeededLog(s)
    ensures LogOk(s.log, h) && forall i :: 0 <= i < |s.log| ==> Covers(s.rows, s.log[i].change)
  {
    forall i | 0 <= i < |s.log|
      ensures s.log[i].change.op.Upsert? && Known(h, s.log[i].change.key, s.log[i].change.op.row) && Covers(s.rows, s.log[i].change)
    {
      var k := s.log[i].change.key;
      assert Known(h, k, s.rows[k]);
    }
  }

  lemma {:induction false} SeededServer(s: Store, h: History)
    requires HistoryOk(h) && RowsOk(s.rows, h) && SeededLog(s)
    ensures ServerInv(s, h) <==> ParentsFirst(s.log, map[])
  {
    SeededLines(s, h);
  }

  lemma {:induction false} SeededInstall(s: Store, h: History, d: Install)
    requires HistoryOk(h) && RowsOk(d.store.rows, h) && SeededLog(d.store) && AtStart(d)
    requires forall i :: 0 <= i < |s.log| ==> s.log[i].origin == None
    ensures InstallInv(s, h, d) <==> ParentsFirst(d.store.log, s.rows)
  {
    SeededLines(d.store, h);
  }

  /** A start is a world of the protocol exactly when every seeded log tells of parents before their children;
      which it does is up to the order the tables are read in. */
  lemma {:induction false} StartsWell(w: World)
    requires Init(w)
    ensures Inv(w) <==> ParentsFirst(w.server.log, map[]) && forall n :: n in w.installs ==> ParentsFirst(w.installs[n].store.log, w.server.rows)
  {
    SeededServer(w.server, w.history);
    forall n | n in w.installs
      ensures InstallInv(w.server, w.history, w.installs[n]) <==> ParentsFirst(w.installs[n].store.log, w.server.rows)
    {
      SeededInstall(w.server, w.history, w.installs[n]);
    }
  }

  ghost predicate IsRun(ws: seq<World>, steps: seq<Action>) {
    |ws| == |steps| + 1 && Inv(ws[0]) && forall i :: 0 <= i < |steps| ==> Next(ws[i], steps[i], ws[i + 1])
  }

  // ---- a seeded log that tells of a child first ---------------------------------------------

  lemma {:induction false} WantedAreLines(log: seq<Entry>, lo: nat, hi: nat, keep: Entry -> bool)
    requires hi <= |log|
    ensures forall c :: c in Wanted(log, lo, hi, keep) ==> exists i :: lo <= i < hi && log[i].change == c
    ensures forall i :: lo <= i < hi && keep(log[i]) ==> log[i].change in Wanted(log, lo, hi, keep)
    decreases hi
  {
    if lo < hi { WantedAreLines(log, lo, hi - 1, keep); }
  }

  lemma {:induction false} LinesAreWellFormed(rows: Rows, h: History, log: seq<Entry>, cs: seq<Change>)
    requires HistoryOk(h) && RowsOk(rows, h) && LogOk(log, h) && forall c :: c in cs ==> exists i :: 0 <= i < |log| && log[i].change == c
    ensures WellFormed(cs) && NoClash(rows, cs)
  {
    forall c | c in cs
      ensures c.op.Upsert? && ValidTable(c.key.table) && c.op.row.sound && Known(h, c.key, c.op.row)
    {
      var i :| 0 <= i < |log| && log[i].change == c;
    }
    forall j | 0 <= j < |cs|
      ensures Known(h, cs[j].key, cs[j].op.row)
    {
      assert cs[j] in cs;
    }
    forall q | q in rows
      ensures Known(h, q, rows[q])
    {}
  }

  /** Inside one batch the order of a log does not matter: two levels arrive all the same. */
  lemma {:induction false} OneBatchArrives(s: Store, h: History, log: seq<Entry>, hi: nat, w: Writer)
    requires HistoryOk(h) && RowsOk(s.rows, h) && LogOk(log, h) && hi <= |log| && forall i :: 0 <= i < hi ==> Own(log[i])
    requires forall i, p :: 0 <= i < hi && p in Parents(log[i].change) ==>
      p in s.rows || p == log[i].change.key || exists j :: 0 <= j < hi && log[j].change.key == p && IsRoot(s.rows, log[j].change)
    ensures var after := Batch(s, Wanted(log, 0, hi, Own), w);
      after.counts.conflicts == 0 && forall i :: 0 <= i < hi ==> Covers(after.store.rows, log[i].change)
  {
    var cs := Wanted(log, 0, hi, Own);
    WantedAreLines(log, 0, hi, Own);
    LinesAreWellFormed(s.rows, h, log, cs);
    forall c, p | c in cs && p in c.op.row.parents
      ensures p in s.rows || p == c.key || exists d :: d in cs && d.key == p && IsRoot(s.rows, d)
    {
      var i :| 0 <= i < hi && log[i].change == c;
      assert p in Parents(log[i].change);
    }
    TwoLevelsNeverConflict(s, cs, w);
    BatchCovers(s, cs, w);
  }

  /** Across two batches it does: a row told before its parent, in an earlier batch, never arrives, though the cursor has passed both. */
  lemma {:induction false} ChildBetweenBatchesIsLost(s: Store, log: seq<Entry>, lo: nat, mid: nat, hi: nat, i: nat, j: nat, w: Writer)
    requires lo <= i < mid <= j < hi <= |log| && log[j].change.key in Parents(log[i].change)
    requires log[i].change.key !in s.rows && log[j].change.key !in s.rows
    requires forall x, y :: lo <= x < y < hi ==> log[x].change.key != log[y].change.key
    ensures log[i].change.key !in Batch(Batch(s, Wanted(log, lo, mid, Own), w).store, Wanted(log, mid, hi, Own), w).store.rows
  {
    var k, p := log[i].change.key, log[j].change.key;
    WantedAreLines(log, lo, mid, Own);
    WantedAreLines(log, mid, hi, Own);
    assert forall x :: lo <= x < mid && x != i ==> log[x].change.key != k;
    LostBetweenBatches(s, Wanted(log, lo, mid, Own), Wanted(log, mid, hi, Own), k, p, w);
  }

  // ---- linking to another server ------------------------------------------------------------

  /** Link over an existing link keeps device id and cursors.  Towards a new, empty server that is sound exactly for an install
      that has exchanged nothing yet and whose log tells of every row, parents first. */
  lemma {:induction false} SwitchingExactly(s: Store, h: History, d: Install)
    requires HistoryOk(h) && InstallInv(s, h, d)
    ensures InstallInv(Store(map[], [], 1), h, d) <==>
      d.pushedHigh == 0 && d.pulledHigh == 0 && ParentsFirst(d.store.log, map[]) && forall k :: k in d.store.rows ==> InLog(d.store.log, Version(d.store.rows, k))
  {
    var e := Store(map[], [], 1);
    if d.pushedHigh > 0 {
      assert !Covers(e.rows, d.store.log[0].change);
    }
    forall k | k in d.store.rows
      ensures !Covers(e.rows, Version(d.store.rows, k))
    {}
  }

  lemma {:induction false} InstallsGrowHistory(s: Store, h: History, d: Install, rows: Rows, c: Change)
    requires HistoryOk(h) && CanEdit(rows, h, c) && InstallInv(s, h, d)
    ensures InstallInv(s, Record(h, c), d)
  {
    RecordKeeps(rows, h, c);
  }

  lemma {:induction false} ServerGrowsHistory(s: Store, h: History, rows: Rows, c: Change)
    requires HistoryOk(h) && CanEdit(rows, h, c) && ServerInv(s, h)
    ensures HistoryOk(Record(h, c)) && ServerInv(s, Record(h, c))
  {
    RecordKeeps(rows, h, c);
  }

  lemma {:induction false} ServerEditKeepsInv(w: World, c: Change, w': World)
    requires Inv(w) && Next(w, ServerEdit(c), w')
    ensures Inv(w')
  {
    ServerEdits(w.server, w.history, c);
    forall n | n in w.installs
      ensures InstallInv(w'.server, w'.history, w.installs[n])
    {
      InstallsGrowHistory(w.server, w.history, w.installs[n], w.server.rows, c);
      InstallUndisturbed(w.server, w'.server, w'.history, w.installs[n]);
    }
  }

  lemma {:induction false} InstallEditKeepsInv(w: World, name: string, c: Change, w': World)
    requires Inv(w) && Next(w, InstallEdit(name, c), w')
    ensures Inv(w')
  {
    var rows := w.installs[name].store.rows;
    ServerGrowsHistory(w.server, w.history, rows, c);
    InstallEdits(w.server, w.history, w.installs[name], c);
    forall n | n in w'.installs && n != name
      ensures InstallInv(w'.server, w'.history, w'.installs[n])
    {
      InstallsGrowHistory(w.server, w.history, w.installs[n], rows, c);
    }
  }

  /** Nothing of a pushed batch or a pulled page waits, so the second pass has nothing to do. */
  lemma {:induction false} SettledBatch(s: Store, cs: seq<Change>, w: Writer)
    requires Settled(PassOne(s, cs, w))
    ensures Batch(s, cs, w) == PassOne(s, cs, w)
  {}

  lemma {:induction false} PushKeepsInv(w: World, name: string, lo: nat, hi: nat, saved: bool, w': World)
    requires Inv(w) && Next(w, Push(name, lo, hi, saved), w')
    ensures Inv(w')
  {
    var d := w.installs[name];
    PushLines(w.server, w.history, d, lo, hi);
    SettledBatch(w.server, Wanted(d.store.log, lo, hi, Own), Device(d.id));
    SavedPush(w'.server, w.history, d, hi, saved);
    forall n | n in w'.installs && n != name
      ensures InstallInv(w'.server, w'.history, w'.installs[n])
    {
      InstallUndisturbed(w.server, w'.server, w.history, w.installs[n]);
    }
  }

  lemma {:induction false} SavedPush(s: Store, h: History, d: Install, hi: nat, saved: bool)
    requires InstallInv(s, h, PushedTo(d, hi))
    ensures InstallInv(s, h, AfterPush(d, hi, saved))
  {}

  lemma {:induction false} SavedPull(s: Store, h: History, d: Install, store: Store, hi: nat, saved: bool)
    requires InstallInv(s, h, PulledTo(d, store, hi))
    ensures InstallInv(s, h, AfterPull(d, store, hi, saved))
  {}

  lemma {:induction false} PullKeepsInv(w: World, name: string, lo: nat, hi: nat, saved: bool, w': World)
    requires Inv(w) && Next(w, Pull(name, lo, hi, saved), w')
    ensures Inv(w')
  {
    var d := w.installs[name];
    PullLines(w.server, w.history, d, lo, hi);
    var cs := Wanted(w.server.log, lo, hi, Foreign(d.id));
    SettledBatch(d.store, cs, Skip);
    SavedPull(w.server, w.history, d, Batch(d.store, cs, Skip).store, hi, saved);
  }

  lemma {:induction false} RelinkKeepsInv(w: World, name: string, id: string, w': World)
    requires Inv(w) && Next(w, Relink(name, id), w')
    ensures Inv(w')
  {}

  lemma {:induction false} NextKeepsInv(w: World, a: Action, w': World)
    requires Inv(w) && Next(w, a, w')
    ensures Inv(w')
  {
    match a
    case ServerEdit(c) => ServerEditKeepsInv(w, c, w');
    case InstallEdit(n, c) => InstallEditKeepsInv(w, n, c, w');
    case Push(n, lo, hi, saved) => PushKeepsInv(w, n, lo, hi, saved, w');
    case Pull(n, lo, hi, saved) => PullKeepsInv(w, n, lo, hi, saved, w');
    case Relink(n, id) => RelinkKeepsInv(w, n, id, w');
  }

  // ---- theorems -----------------------------------------------------------------------------

  /** The invariant holds all along every run. */
  lemma {:induction false} EveryRunKeepsInv(ws: seq<World>, steps: seq<Action>, i: nat)
    requires IsRun(ws, steps) && i < |ws|
    ensures Inv(ws[i])
  {
    if i > 0 {
      EveryRunKeepsInv(ws, steps, i - 1);
      NextKeepsInv(ws[i - 1], steps[i - 1], ws[i]);
    }
  }

  /** No batch and no page ever meets a conflict: parents always arrive before their children. */
  lemma {:induction false} NoConflictEver(w: World, a: Action, w': World)
    requires Inv(w) && Next(w, a, w')
    ensures a.Push? ==> Batch(w.server, Wanted(w.installs[a.name].store.log, a.lo, a.hi, Own), Device(w.installs[a.name].id)).counts.conflicts == 0
    ensures a.Pull? ==> Batch(w.installs[a.name].store, Wanted(w.server.log, a.lo, a.hi, Foreign(w.installs[a.name].id)), Skip).counts.conflicts == 0
  {
    if a.Push? {
      PushLines(w.server, w.history, w.installs[a.name], a.lo, a.hi);
    } else if a.Pull? {
      PullLines(w.server, w.history, w.installs[a.name], a.lo, a.hi);
    }
  }

  /** A version the server lacks is still in the install's log past the saved push cursor, to be pushed. */
  lemma {:induction false} UnpushedIsPastTheCursor(w: World, n: string, k: Key)
    requires Inv(w) && n in w.installs && k in w.installs[n].store.rows
    requires !Covers(w.server.rows, Version(w.installs[n].store.rows, k))
    ensures var d := w.installs[n];
      exists i :: d.pushed <= i < |d.store.log| && d.store.log[i].change == Version(d.store.rows, k) && Own(d.store.log[i])
  {
    var d := w.installs[n];
    assert InstallInv(w.server, w.history, d);
    assert InLog(d.store.log, Version(d.store.rows, k));
    var i :| 0 <= i < |d.store.log| && d.store.log[i].change == Version(d.store.rows, k);
  }

  /** A version the install lacks is in the server's log past the saved pull cursor, written by somebody else, to be pulled. */
  lemma {:induction false} UnpulledIsPastTheCursor(w: World, n: string, k: Key)
    requires Inv(w) && n in w.installs && k in w.server.rows
    requires !Covers(w.installs[n].store.rows, Version(w.server.rows, k))
    ensures var d := w.installs[n];
      exists i :: d.pulled <= i < |w.server.log| && w.server.log[i].change == Version(w.server.rows, k) && Foreign(d.id)(w.server.log[i])
  {
    var d := w.installs[n];
    assert InstallInv(w.server, w.history, d);
    assert InLog(w.server.log, Version(w.server.rows, k));
    var i :| 0 <= i < |w.server.log| && w.server.log[i].change == Version(w.server.rows, k);
    assert Foreign(d.id)(w.server.log[i]);
  }

  /** Nothing is waiting on either side. */
  predicate UpToDate(s: Store, d: Install) { d.pushed == |d.store.log| && d.pulled == |s.log| }

  /** Convergence: an install with nothing waiting holds exactly the rows of the server. */
  lemma {:induction false} UpToDateMeansSameRows(s: Store, h: History, d: Install)
    requires HistoryOk(h) && ServerInv(s, h) && InstallInv(s, h, d) && UpToDate(s, d)
    ensures d.store.rows == s.rows
  {
    var rows := d.store.rows;
    forall k | k in rows
      ensures k in s.rows && Rank(k, rows[k]) <= Rank(k, s.rows[k])
    {
      if InLog(d.store.log, Version(rows, k)) {
        var i :| 0 <= i < |d.store.log| && d.store.log[i].change == Version(rows, k);
        assert Covers(s.rows, d.store.log[i].change);
      }
    }
    forall k | k in s.rows
      ensures k in rows && rows[k] == s.rows[k]
    {
      assert InLog(s.log, Version(s.rows, k));
      var i :| 0 <= i < |s.log| && s.log[i].change == Version(s.rows, k);
      assert Covers(rows, s.log[i].change);
      assert Known(h, k, rows[k]) && Known(h, k, s.rows[k]);
    }
  }

  /** Over every run: once no install has anything waiting, all of them and the server hold the same rows. */
  lemma {:induction false} QuietWorldIsOne(ws: seq<World>, steps: seq<Action>)
    requires IsRun(ws, steps)
    requires var w := ws[|steps|]; forall n :: n in w.installs ==> UpToDate(w.server, w.installs[n])
    ensures var w := ws[|steps|]; forall n :: n in w.installs ==> w.installs[n].store.rows == w.server.rows
  {
    EveryRunKeepsInv(ws, steps, |steps|);
    var w := ws[|steps|];
    forall n | n in w.installs
      ensures w.installs[n].store.rows == w.server.rows
    {
      UpToDateMeansSameRows(w.server, w.history, w.installs[n]);
    }
  }

  /** The assumption on the clocks is needed: two versions with one stamp and different contents refuse each other for ever. */
  lemma {:induction false} EqualStampsNeverMeet(k: Key, mine: Row, theirs: Row)
    requires ValidTable(k.table) && mine.sound && theirs.sound && (mine.updatedAt == theirs.updatedAt || Unstamped(k.table))
    ensures Decide(map[k := mine], Change(k, Upsert(theirs))) == Stale && Decide(map[k := theirs], Change(k, Upsert(mine))) == Stale
  {}
}
