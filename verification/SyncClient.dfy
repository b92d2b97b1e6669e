/** The two programs that talk: the server's feed and a device's round. */
module SyncClient {
  // The database that applies changes under savepoints, the feed the server hands out page by page, and the
  // round of pushes and pulls an install runs (internal/modules/datasync/datasync.go:134-350,
  // internal/modules/datasync/client.go:237-321).

  import opened Wrappers
  import opened SyncStore
  import opened SyncBatch
  import opened SyncProtocol

  // ---- positions in a log -------------------------------------------------------------------

  /** Sequence numbers grow along the log and are all drawn already. */
  ghost predicate SeqOk(s: Store) {
    && (forall i, j :: 0 <= i < j < |s.log| ==> s.log[i].seqNo < s.log[j].seqNo)
    && (forall i :: 0 <= i < |s.log| ==> s.log[i].seqNo < s.nextSeq)
  }

  ghost predicate Ascending(log: seq<Entry>) { forall i, j :: 0 <= i < j < |log| ==> log[i].seqNo < log[j].seqNo }

  /** How many lines a cursor has behind it. */
  function Pos(log: seq<Entry>, cursor: int): (n: nat)
    ensures n <= |log|
  {
    if log == [] then 0
    else if log[|log| - 1].seqNo <= cursor then |log|
    else Pos(log[..|log| - 1], cursor)
  }

  /** WHERE seq > cursor: exactly the lines from that position on. */
  lemma {:induction false} PosSplits(log: seq<Entry>, cursor: int)
    requires Ascending(log)
    ensures forall i :: 0 <= i < |log| ==> (log[i].seqNo <= cursor <==> i < Pos(log, cursor))
  {
    if log != [] && log[|log| - 1].seqNo > cursor {
      PosSplits(log[..|log| - 1], cursor);
    }
  }

  lemma {:induction false} PosOfLine(log: seq<Entry>, i: nat)
    requires Ascending(log) && i < |log|
    ensures Pos(log, log[i].seqNo) == i + 1
  {
    var p := Pos(log, log[i].seqNo);
    PosSplits(log, log[i].seqNo);
    assert i < p;
    assert i + 1 < |log| ==> log[i + 1].seqNo > log[i].seqNo;
  }

  /** Lines appended later do not move a cursor that stands on a line. */
  lemma {:induction false} PosStable(log: seq<Entry>, log': seq<Entry>, cursor: int)
    requires Ascending(log') && log <= log' && (forall i :: |log| <= i < |log'| ==> log'[i].seqNo > cursor)
    ensures Pos(log', cursor) == Pos(log, cursor)
  {
    assert forall i :: 0 <= i < |log| ==> log[i] == log'[i];
    PosSplits(log, cursor);
    PosSplits(log', cursor);
    var p, q := Pos(log, cursor), Pos(log', cursor);
    assert p < |log| ==> log[p].seqNo > cursor;
    assert p < |log'| ==> log'[p].seqNo > cursor;
    assert p > 0 ==> log[p - 1].seqNo <= cursor && log'[p - 1].seqNo <= cursor;
  }

  lemma {:induction false} StepSeqOk(s: Store, c: Change, w: Writer)
    requires SeqOk(s)
    ensures SeqOk(Step(s, c, w))
  {}

  lemma {:induction false} PassOneSeqOk(s: Store, cs: seq<Change>, w: Writer)
    requires SeqOk(s)
    ensures SeqOk(PassOne(s, cs, w).store)
  {
    if cs != [] {
      PassOneSeqOk(s, cs[..|cs| - 1], w);
      StepSeqOk(PassOne(s, cs[..|cs| - 1], w).store, cs[|cs| - 1], w);
    }
  }

  // ---- the database -------------------------------------------------------------------------

  datatype Sql = RowsAffected(n: nat) | ForeignKeyViolation | OtherViolation | BadInput

  class Database {
    var rows: Rows
    var log: seq<Entry>
    var nextSeq: int
    var writer: Writer

    constructor (store: Store)
      ensures Abs() == store && writer == Local
    {
      rows, log, nextSeq, writer := store.rows, store.log, store.nextSeq, Local;
    }

    function Abs(): Store
      reads this
    {
      Store(rows, log, nextSeq)
    }

    /** The trigger on every synced table. */
    method Capture(c: Change)
      modifies this`log, this`nextSeq
      ensures if writer == Skip then Abs() == old(Abs()) else log == old(log) + [Entry(old(nextSeq), c, OriginOf(writer))] && nextSeq == old(nextSeq) + 1
    {
      if writer != Skip {
        log := log + [Entry(nextSeq, c, OriginOf(writer))];
        nextSeq := nextSeq + 1;
      }
    }

    /** One statement, checked the way the database does: the row itself first, its id, the other unique
        values, and the references last, when the row is already written. */
    method ApplyIn(c: Change) returns (r: Sql)
      requires ValidTable(c.key.table) && (c.op.Upsert? || c.op.NotAnObject? || c.op.Delete?)
      modifies this`rows, this`log, this`nextSeq
      ensures var o := Decide(old(rows), c);
        && (r.RowsAffected? ==> Abs() == Step(old(Abs()), c, writer) && (o == Applied || (o == Stale && r.n == 0 && c.op.Upsert?)))
        && (r.ForeignKeyViolation? ==> o == Retry)
        && (r.OtherViolation? || r.BadInput? ==> o == Conflict)
        && (r.RowsAffected? && c.op.Upsert? ==> (r.n == 0 <==> o == Stale))
    {
      match c.op {
        case Delete =>
          var present := c.key in rows;
          rows := rows - {c.key};
          assert forall q :: q in old(rows) && q != c.key ==> q in rows && rows[q] == old(rows)[q];
          if present {
            Capture(c);
          }
          if present && exists q :: q in rows && c.key in rows[q].parents {
            return ForeignKeyViolation;
          }
          r := RowsAffected(if present then 1 else 0);
        case Upsert(row) =>
          if !row.sound {
            return OtherViolation;
          }
          if c.key in rows && !(Rank(c.key, rows[c.key]) < Rank(c.key, row)) {
            return RowsAffected(0);
          }
          if exists q :: q in rows && q != c.key && rows[q].claims * row.claims != {} {
            return OtherViolation;
          }
          rows := rows[c.key := row];
          Capture(c);
          if exists p :: p in row.parents && p !in rows {
            return ForeignKeyViolation;
          }
          r := RowsAffected(1);
        case _ =>
          r := BadInput;
      }
    }

    /** The statement inside its savepoint: whatever it wrote before failing is rolled back. */
    method ApplyOne(c: Change) returns (o: Outcome)
      modifies this`rows, this`log, this`nextSeq
      ensures o == Decide(old(rows), c)
      ensures Abs() == if o == Retry || o == Conflict then old(Abs()) else Step(old(Abs()), c, writer)
    {
      if !ValidTable(c.key.table) || c.op.Other? {
        return Conflict;
      }
      var savedRows, savedLog, savedSeq := rows, log, nextSeq;
      var r := ApplyIn(c);
      match r {
        case RowsAffected(n) =>
          o := if c.op.Upsert? && n == 0 then Stale else Applied;
        case ForeignKeyViolation =>
          rows, log, nextSeq := savedRows, savedLog, savedSeq;
          o := Retry;
        case _ =>
          rows, log, nextSeq := savedRows, savedLog, savedSeq;
          o := Conflict;
      }
    }

    /** applyBatch: in order, then the ones that waited for a parent once more. */
    method ApplyBatch(cs: seq<Change>) returns (res: Counts)
      modifies this`rows, this`log, this`nextSeq
      ensures var b := Batch(old(Abs()), cs, writer); Abs() == b.store && res == b.counts
    {
      ghost var s := Abs();
      res := Counts(0, 0, 0);
      var retry: seq<Change> := [];
      for i := 0 to |cs|
        invariant writer == old(writer)
        invariant PassOne(s, cs[..i], writer) == Pass(Abs(), res, retry)
      {
        assert cs[..i + 1][..i] == cs[..i];
        var o := ApplyOne(cs[i]);
        if o == Retry {
          retry := retry + [cs[i]];
        } else {
          res := Count(res, o);
        }
      }
      assert cs[..|cs|] == cs;
      ghost var t, n := Abs(), res;
      for i := 0 to |retry|
        invariant writer == old(writer)
        invariant PassTwo(t, n, retry[..i], writer) == Pass(Abs(), res, [])
      {
        assert retry[..i + 1][..i] == retry[..i];
        var o := ApplyOne(retry[i]);
        res := Count(res, o);
      }
      assert retry[..|retry|] == retry;
    }

    /** A page is applied with sync_skip on. */
    method ApplyUnlogged(cs: seq<Change>) returns (res: Counts)
      requires writer == Local
      modifies this
      ensures var b := Batch(old(Abs()), cs, Skip); Abs() == b.store && res == b.counts && writer == Local
    {
      writer := Skip;
      res := ApplyBatch(cs);
      writer := Local;
    }
  }

  // ---- the feed -----------------------------------------------------------------------------

  datatype Page = Page(changes: seq<Change>, cursor: int, more: bool)

  function Limit(limit: int): (n: nat)
    ensures n > 0
  {
    if limit <= 0 || limit > 500 then 500 else limit
  }

  /** A page may be asked for with 1 to 500 lines; anything else means 500. */
  lemma {:induction false} PageSize(limit: int)
    ensures Limit(limit) == if 1 <= limit <= 500 then limit else 500
  {}

  function Min(a: nat, b: nat): nat { if a < b then a else b }

  /** Pull: at most `limit` lines after the cursor are examined; the asking install's own are left out, and
      the cursor moves to the last line examined even when every one of them was its own. */
  method PullPage(log: seq<Entry>, id: string, after: int, limit: int) returns (p: Page)
    requires Ascending(log)
    ensures var lo, hi := Pos(log, after), Min(Pos(log, after) + Limit(limit), |log|);
      && p.changes == Wanted(log, lo, hi, Foreign(id))
      && p.cursor == (if lo < hi then log[hi - 1].seqNo else after) && Pos(log, p.cursor) == hi
      && (p.more <==> hi < |log|)
  {
    var lo := Pos(log, after);
    var rows := log[lo..Min(lo + Limit(limit) + 1, |log|)];
    p := Page([], after, false);
    var n := 0;
    while n < |rows|
      invariant n <= |rows| && n <= Limit(limit) && !p.more
      invariant p.changes == Wanted(log, lo, lo + n, Foreign(id))
      invariant p.cursor == if n > 0 then log[lo + n - 1].seqNo else after
    {
      if n == Limit(limit) {
        p := p.(more := true);
        break;
      }
      var e := rows[n];
      n := n + 1;
      p := p.(cursor := e.seqNo);
      if e.origin != Some(id) {
        p := p.(changes := p.changes + [e.change]);
      }
    }
    if n > 0 {
      PosOfLine(log, lo + n - 1);
    }
  }

  /** The pages an install fetches one after the other. */
  function Pages(log: seq<Entry>, id: string, after: int, limit: int): seq<Change>
    requires Ascending(log)
    decreases |log| - Pos(log, after)
  {
    var lo, hi := Pos(log, after), Min(Pos(log, after) + Limit(limit), |log|);
    if hi < |log| then
      PosOfLine(log, hi - 1);
      Wanted(log, lo, hi, Foreign(id)) + Pages(log, id, log[hi - 1].seqNo, limit)
    else Wanted(log, lo, hi, Foreign(id))
  }

  lemma {:induction false} WantedSplits(log: seq<Entry>, lo: nat, mid: nat, hi: nat, keep: Entry -> bool)
    requires lo <= mid <= hi <= |log|
    ensures Wanted(log, lo, hi, keep) == Wanted(log, lo, mid, keep) + Wanted(log, mid, hi, keep)
    decreases hi
  {
    if mid < hi {
      WantedSplits(log, lo, mid, hi - 1, keep);
    }
  }

  /** Whatever the page size, the pages deliver every later line of the others exactly once and in order. */
  lemma {:induction false} PagesDeliverEverything(log: seq<Entry>, id: string, after: int, limit: int)
    requires Ascending(log)
    ensures Pages(log, id, after, limit) == Wanted(log, Pos(log, after), |log|, Foreign(id))
    decreases |log| - Pos(log, after)
  {
    var lo, hi := Pos(log, after), Min(Pos(log, after) + Limit(limit), |log|);
    if hi < |log| {
      PosOfLine(log, hi - 1);
      PagesDeliverEverything(log, id, log[hi - 1].seqNo, limit);
      WantedSplits(log, lo, hi, |log|, Foreign(id));
    }
  }

  // ---- the install's round ------------------------------------------------------------------

  /** The next batch to push: up to 500 lines of its own after the cursor, and the last one's number. */
  method SelectOwn(log: seq<Entry>, after: int) returns (batch: seq<Change>, top: int)
    requires Ascending(log)
    ensures Pos(log, after) <= Pos(log, top) && |batch| <= 500
    ensures batch == Wanted(log, Pos(log, after), Pos(log, top), Own)
    ensures batch == [] ==> top == after && Wanted(log, Pos(log, after), |log|, Own) == []
    ensures batch != [] ==> Pos(log, after) < Pos(log, top) && exists i :: 0 <= i < |log| && top == log[i].seqNo
  {
    var lo := Pos(log, after);
    batch, top := [], after;
    var i := lo;
    while i < |log| && |batch| < 500
      invariant lo <= i <= |log| && |batch| <= 500
      invariant lo <= Pos(log, top) <= i
      invariant batch == Wanted(log, lo, i, Own) == Wanted(log, lo, Pos(log, top), Own)
      invariant batch == [] ==> top == after
      invariant batch != [] ==> lo < Pos(log, top) && exists i :: 0 <= i < |log| && top == log[i].seqNo
    {
      if log[i].origin == None {
        batch, top := batch + [log[i].change], log[i].seqNo;
        PosOfLine(log, i);
      }
      i := i + 1;
    }
  }

  lemma {:induction false} NothingOwnLeft(log: seq<Entry>, lo: nat, hi: nat)
    requires lo <= hi <= |log| && Wanted(log, lo, hi, Own) == [] && forall i :: 0 <= i < |log| ==> log[i].origin == None
    ensures lo == hi
  {}

  predicate IsBlank(s: string) { forall c :: c in s ==> c in " \t\n\r" }

  predicate GoodId(id: string) { !IsBlank(id) && |id| <= 64 }

  /** A device id is refused when it is empty, blank, or longer than 64 characters. */
  lemma {:induction false} GoodIdExactly(id: string)
    ensures GoodId(id) <==> 1 <= |id| <= 64 && exists i :: 0 <= i < |id| && id[i] != ' ' && id[i] != '\t' && id[i] != '\n' && id[i] != '\r'
  {
    if IsBlank(id) {
      forall i | 0 <= i < |id|
        ensures id[i] == ' ' || id[i] == '\t' || id[i] == '\n' || id[i] == '\r'
      {
        assert id[i] in " \t\n\r";
      }
    } else {
      var c :| c in id && c !in " \t\n\r";
      var i :| 0 <= i < |id| && id[i] == c;
      assert forall k :: 0 <= k < 4 ==> " \t\n\r"[k] in " \t\n\r";
      assert " \t\n\r"[0] == ' ' && " \t\n\r"[1] == '\t' && " \t\n\r"[2] == '\n' && " \t\n\r"[3] == '\r';
    }
  }

  /** Push on the server: the batch is applied and logged with the install as its origin. */
  method PushRequest(server: Database, id: string, cs: seq<Change>) returns (r: Option<Counts>)
    requires server.writer == Local
    modifies server
    ensures server.writer == Local
    ensures if !GoodId(id) || |cs| > 1000 then r == None && server.Abs() == old(server.Abs())
            else var b := Batch(old(server.Abs()), cs, Device(id)); r == Some(b.counts) && server.Abs() == b.store
  {
    if !GoodId(id) || |cs| > 1000 {
      return None;
    }
    server.writer := Device(id);
    var n := server.ApplyBatch(cs);
    server.writer := Local;
    r := Some(n);
  }

  /** What can go wrong around one request: it never arrives, its answer is lost, or the install stops before saving its cursor. */
  datatype Fault = Fine | Unreachable | AnswerLost | CrashBeforeSave

  /** The stored link of an install. */
  class Link {
    const deviceId: string
    var lastPushed: int
    var lastPulled: int
    ghost var pushedHigh: nat
    ghost var pulledHigh: nat

    constructor (id: string)
      ensures deviceId == id && lastPushed == lastPulled == 0 && pushedHigh == pulledHigh == 0
    {
      deviceId, lastPushed, lastPulled, pushedHigh, pulledHigh := id, 0, 0, 0, 0;
    }
  }

  ghost function InstallOf(server: Database, device: Database, link: Link): Install
    reads server, device, link
  {
    Install(link.deviceId, device.Abs(), Pos(device.log, link.lastPushed), Pos(server.log, link.lastPulled), link.pushedHigh, link.pulledHigh)
  }

  /** The server and the install, as values, are a world the protocol can reach. */
  ghost predicate PairOk(s: Store, d: Install, h: History) {
    SeqOk(s) && SeqOk(d.store) && HistoryOk(h) && ServerInv(s, h) && InstallInv(s, h, d)
  }

  /** A property of the pair that no batch and no page destroys, and what it makes of them. */
  ghost predicate KeptByRounds(inv: (Store, Install) -> bool) {
    && (forall s, d, hi: nat {:trigger inv(s, d), PushedTo(d, hi)} :: inv(s, d) && d.pushed <= hi <= |d.store.log| ==>
          var b := Batch(s, Wanted(d.store.log, d.pushed, hi, Own), Device(d.id));
          && b.counts.conflicts == 0 && SeqOk(b.store) && s.nextSeq <= b.store.nextSeq && Extended(s, b.store, d.id)
          && (forall i :: |s.log| <= i < |b.store.log| ==> b.store.log[i].seqNo >= s.nextSeq)
          && inv(b.store, PushedTo(d, hi)) && inv(b.store, AfterPush(d, hi, true)))
    && (forall s, d, hi: nat {:trigger inv(s, d), PulledTo(d, d.store, hi)} :: inv(s, d) && d.pulled <= hi <= |s.log| ==>
          var b := Batch(d.store, Wanted(s.log, d.pulled, hi, Foreign(d.id)), Skip);
          && b.counts.conflicts == 0 && b.store.log == d.store.log && b.store.nextSeq == d.store.nextSeq
          && inv(s, PulledTo(d, b.store, hi)) && inv(s, AfterPull(d, b.store, hi, true)))
    && (forall s, d :: inv(s, d) ==> SeqOk(s) && SeqOk(d.store) && (forall i :: 0 <= i < |d.store.log| ==> d.store.log[i].origin == None))
    && (forall s, d :: inv(s, d) && UpToDate(s, d) ==> d.store.rows == s.rows)
  }

  ghost predicate Linked(server: Database, device: Database, link: Link, inv: (Store, Install) -> bool)
    reads server, device, link
  {
    && server != device && server.writer == Local && device.writer == Local && GoodId(link.deviceId)
    && link.lastPushed < device.nextSeq && link.lastPulled < server.nextSeq
    && KeptByRounds(inv) && inv(server.Abs(), InstallOf(server, device, link))
    && SeqOk(server.Abs()) && SeqOk(device.Abs())
  }

  lemma {:induction false} ExtendedTransitive(a: Store, b: Store, c: Store, id: string)
    requires Extended(a, b, id) && Extended(b, c, id)
    ensures Extended(a, c, id)
  {
    assert forall i :: 0 <= i < |b.log| ==> c.log[i] == b.log[i];
  }

  /** What one pushed batch does to the pair, whether or not the answer arrives and the cursor is saved. */
  lemma {:induction false} BatchPushed(s: Store, h: History, d: Install, hi: nat)
    requires PairOk(s, d, h) && d.pushed <= hi <= |d.store.log|
    ensures var b := Batch(s, Wanted(d.store.log, d.pushed, hi, Own), Device(d.id));
      && b.counts.conflicts == 0 && s.nextSeq <= b.store.nextSeq && Extended(s, b.store, d.id)
      && (forall i :: |s.log| <= i < |b.store.log| ==> b.store.log[i].seqNo >= s.nextSeq)
      && PairOk(b.store, PushedTo(d, hi), h) && PairOk(b.store, AfterPush(d, hi, true), h)
  {
    var cs := Wanted(d.store.log, d.pushed, hi, Own);
    PushLines(s, h, d, d.pushed, hi);
    SettledBatch(s, cs, Device(d.id));
    PassOneSeqOk(s, cs, Device(d.id));
    PassOneNumbers(s, cs, Device(d.id));
    SavedPush(Batch(s, cs, Device(d.id)).store, h, d, hi, true);
  }

  lemma {:induction false} PassOneNumbers(s: Store, cs: seq<Change>, w: Writer)
    ensures var t := PassOne(s, cs, w).store;
      s.nextSeq <= t.nextSeq && |s.log| <= |t.log| && forall i :: |s.log| <= i < |t.log| ==> t.log[i].seqNo >= s.nextSeq
  {
    if cs != [] { PassOneNumbers(s, cs[..|cs| - 1], w); }
  }

  lemma {:induction false} PagePulled(s: Store, h: History, d: Install, hi: nat)
    requires PairOk(s, d, h) && d.pulled <= hi <= |s.log|
    ensures var b := Batch(d.store, Wanted(s.log, d.pulled, hi, Foreign(d.id)), Skip);
      && b.counts.conflicts == 0 && b.store.log == d.store.log && b.store.nextSeq == d.store.nextSeq
      && PairOk(s, PulledTo(d, b.store, hi), h) && PairOk(s, AfterPull(d, b.store, hi, true), h)
  {
    var cs := Wanted(s.log, d.pulled, hi, Foreign(d.id));
    PullLines(s, h, d, d.pulled, hi);
    SettledBatch(d.store, cs, Skip);
    PassOneSeqOk(d.store, cs, Skip);
    SkipDrawsNothing(d.store, cs);
    SavedPull(s, h, d, Batch(d.store, cs, Skip).store, hi, true);
  }

  lemma {:induction false} SkipDrawsNothing(s: Store, cs: seq<Change>)
    ensures PassOne(s, cs, Skip).store.nextSeq == s.nextSeq
  {
    if cs != [] { SkipDrawsNothing(s, cs[..|cs| - 1]); }
  }

  lemma {:induction false} PassOneOfNothing(s: Store, w: Writer)
    ensures Batch(s, [], w) == Pass(s, Counts(0, 0, 0), [])
  {}

  /** One request of the push loop. */
  method PushOnce(server: Database, device: Database, link: Link, batch: seq<Change>, top: int, fault: Fault, ghost inv: (Store, Install) -> bool) returns (ok: bool, res: Counts)
    requires Linked(server, device, link, inv) && fault != Unreachable
    requires var lo, hi := Pos(device.log, link.lastPushed), Pos(device.log, top);
      lo <= hi && |batch| <= 500 && batch == Wanted(device.log, lo, hi, Own) && top < device.nextSeq
    modifies server, link`lastPushed, link`pushedHigh
    ensures Linked(server, device, link, inv) && Extended(old(server.Abs()), server.Abs(), link.deviceId)
    ensures res.conflicts == 0
    ensures ok <==> fault == Fine
    ensures ok ==> link.lastPushed == top
  {
    ghost var s, d, hi := server.Abs(), InstallOf(server, device, link), Pos(device.log, top);
    ghost var reached := PushedTo(d, hi);
    var answer := PushRequest(server, link.deviceId, batch);
    res := answer.value;
    assert Ascending(server.log);
    PosStable(s.log, server.log, link.lastPulled);
    link.pushedHigh := Max(link.pushedHigh, hi);
    if fault == Fine {
      link.lastPushed := top;
      assert InstallOf(server, device, link) == AfterPush(d, hi, true);
    } else {
      assert InstallOf(server, device, link) == PushedTo(d, hi);
    }
    ok := fault == Fine;
  }

  /** The push half of a round.  `net` says what goes wrong around each request. */
  method PushAll(server: Database, device: Database, link: Link, net: nat -> Fault, ghost inv: (Store, Install) -> bool) returns (ok: bool, pushed: nat, conflicts: nat)
    requires Linked(server, device, link, inv)
    modifies server, link
    ensures Linked(server, device, link, inv) && Extended(old(server.Abs()), server.Abs(), link.deviceId)
    ensures conflicts == 0
    ensures (forall n :: net(n) == Fine) ==> ok
    ensures ok ==> Pos(device.log, link.lastPushed) == |device.log|
  {
    ok, pushed, conflicts := true, 0, 0;
    var request := 0;
    while true
      invariant Linked(server, device, link, inv) && Extended(old(server.Abs()), server.Abs(), link.deviceId)
      invariant conflicts == 0
      decreases |device.log| - Pos(device.log, link.lastPushed)
    {
      var batch, top := SelectOwn(device.log, link.lastPushed);
      if batch == [] {
        NothingOwnLeft(device.log, Pos(device.log, link.lastPushed), |device.log|);
        return;
      }
      var fault := net(request);
      request := request + 1;
      if fault == Unreachable {
        return false, pushed, conflicts;
      }
      ghost var before := server.Abs();
      var done, res := PushOnce(server, device, link, batch, top, fault, inv);
      ExtendedTransitive(old(server.Abs()), before, server.Abs(), link.deviceId);
      if !done {
        return false, pushed, conflicts;
      }
      pushed, conflicts := pushed + res.applied, conflicts + res.conflicts;
    }
  }

  /** A page, unless it is empty. */
  method ApplyPage(device: Database, changes: seq<Change>) returns (res: Counts)
    requires device.writer == Local
    modifies device
    ensures var b := Batch(old(device.Abs()), changes, Skip); device.Abs() == b.store && res == b.counts && device.writer == Local
  {
    res := Counts(0, 0, 0);
    if |changes| > 0 {
      res := device.ApplyUnlogged(changes);
    } else {
      PassOneOfNothing(device.Abs(), Skip);
    }
  }

  /** The next page, fetched and applied, before the cursor is saved. */
  method TakePage(server: Database, device: Database, link: Link, ghost inv: (Store, Install) -> bool) returns (cursor: int, more: bool, res: Counts)
    requires Linked(server, device, link, inv)
    modifies device
    ensures device.log == old(device.log) && device.nextSeq == old(device.nextSeq) && device.writer == Local && res.conflicts == 0
    ensures var lo, hi := Pos(server.log, link.lastPulled), Pos(server.log, cursor);
      && lo <= hi <= |server.log| && cursor < server.nextSeq && (if more then lo < hi else hi == |server.log|)
      && inv(server.Abs(), PulledTo(old(InstallOf(server, device, link)), device.Abs(), hi))
      && inv(server.Abs(), AfterPull(old(InstallOf(server, device, link)), device.Abs(), hi, true))
  {
    var page := PullPage(server.log, link.deviceId, link.lastPulled, 500);
    ghost var d, hi := InstallOf(server, device, link), Pos(server.log, page.cursor);
    ghost var reached := PulledTo(d, d.store, hi);
    cursor, more := page.cursor, page.more;
    res := ApplyPage(device, page.changes);
  }

  /** The cursor on the link, unless the device stops before. */
  method SavePull(server: Database, device: Database, link: Link, cursor: int, saved: bool, ghost d: Install)
    requires server != device
    requires d.id == link.deviceId && d.pulledHigh == link.pulledHigh && d.pulled == Pos(server.log, link.lastPulled)
    requires d.pushed == Pos(device.log, link.lastPushed) && d.pushedHigh == link.pushedHigh
    modifies link`lastPulled, link`pulledHigh
    ensures link.lastPulled == if saved then cursor else old(link.lastPulled)
    ensures var hi := Pos(server.log, cursor); InstallOf(server, device, link) == if saved then AfterPull(d, device.Abs(), hi, true) else PulledTo(d, device.Abs(), hi)
  {
    link.pulledHigh := Max(link.pulledHigh, Pos(server.log, cursor));
    if saved {
      link.lastPulled := cursor;
    }
  }

  /** One page of the pull loop, applied with logging off. */
  method PullOnce(server: Database, device: Database, link: Link, fault: Fault, ghost inv: (Store, Install) -> bool) returns (ok: bool, more: bool, res: Counts)
    requires Linked(server, device, link, inv) && (fault == Fine || fault == CrashBeforeSave)
    modifies device, link`lastPulled, link`pulledHigh
    ensures Linked(server, device, link, inv) && device.log == old(device.log)
    ensures res.conflicts == 0
    ensures ok <==> fault == Fine
    ensures ok ==> var lo, hi := Pos(server.log, old(link.lastPulled)), Pos(server.log, link.lastPulled);
                   if more then lo < hi else hi == |server.log|
  {
    ghost var d := InstallOf(server, device, link);
    var cursor;
    cursor, more, res := TakePage(server, device, link, inv);
    SavePull(server, device, link, cursor, fault == Fine, d);
    ok := fault == Fine;
  }

  /** The pull half. */
  method PullAll(server: Database, device: Database, link: Link, net: nat -> Fault, ghost inv: (Store, Install) -> bool) returns (ok: bool, pulled: nat, conflicts: nat)
    requires Linked(server, device, link, inv)
    modifies device, link`lastPulled, link`pulledHigh
    ensures Linked(server, device, link, inv) && device.log == old(device.log)
    ensures conflicts == 0
    ensures (forall n :: net(n) == Fine) ==> ok
    ensures ok ==> Pos(server.log, link.lastPulled) == |server.log|
  {
    ok, pulled, conflicts := true, 0, 0;
    var request := 0;
    while true
      invariant Linked(server, device, link, inv) && device.log == old(device.log)
      invariant conflicts == 0
      decreases |server.log| - Pos(server.log, link.lastPulled)
    {
      var fault := net(request);
      request := request + 1;
      if fault == Unreachable || fault == AnswerLost {
        return false, pulled, conflicts;
      }
      var done, more, res := PullOnce(server, device, link, fault, inv);
      if !done {
        return false, pulled, conflicts;
      }
      pulled, conflicts := pulled + res.applied, conflicts + res.conflicts;
      if !more {
        return;
      }
    }
  }

  ghost function PairInv(h: History): (Store, Install) -> bool { (s: Store, d: Install) => PairOk(s, d, h) }

  /** What every reachable world satisfies is such a property. */
  lemma {:induction false} PairsAreKept(h: History)
    ensures KeptByRounds(PairInv(h))
  {
    forall s, d, hi: nat | PairOk(s, d, h) && d.pushed <= hi <= |d.store.log|
      ensures var b := Batch(s, Wanted(d.store.log, d.pushed, hi, Own), Device(d.id));
          && b.counts.conflicts == 0 && SeqOk(b.store) && s.nextSeq <= b.store.nextSeq && Extended(s, b.store, d.id)
          && (forall i :: |s.log| <= i < |b.store.log| ==> b.store.log[i].seqNo >= s.nextSeq)
          && PairOk(b.store, PushedTo(d, hi), h) && PairOk(b.store, AfterPush(d, hi, true), h)
    {
      BatchPushed(s, h, d, hi);
    }
    forall s, d, hi: nat | PairOk(s, d, h) && d.pulled <= hi <= |s.log|
      ensures var b := Batch(d.store, Wanted(s.log, d.pulled, hi, Foreign(d.id)), Skip);
          && b.counts.conflicts == 0 && b.store.log == d.store.log && b.store.nextSeq == d.store.nextSeq
          && PairOk(s, PulledTo(d, b.store, hi), h) && PairOk(s, AfterPull(d, b.store, hi, true), h)
    {
      PagePulled(s, h, d, hi);
    }
    forall s, d | PairOk(s, d, h) && UpToDate(s, d)
      ensures d.store.rows == s.rows
    {
      UpToDateMeansSameRows(s, h, d);
    }
  }

  /** round: push everything, then pull everything.  Whatever goes wrong on the way, the pair stays a world
      of the protocol; a round in which nothing goes wrong leaves both sides with the same rows. */
  method Round(server: Database, device: Database, link: Link, pushNet: nat -> Fault, pullNet: nat -> Fault, ghost inv: (Store, Install) -> bool)
    returns (ok: bool, pushed: nat, pulled: nat, conflicts: nat)
    requires Linked(server, device, link, inv)
    modifies server, device, link
    ensures Linked(server, device, link, inv) && Extended(old(server.Abs()), server.Abs(), link.deviceId)
    ensures device.log == old(device.log) && conflicts == 0
    ensures (forall n :: pushNet(n) == Fine && pullNet(n) == Fine) ==> ok
    ensures ok ==> device.rows == server.rows
  {
    pulled := 0;
    ok, pushed, conflicts := PushAll(server, device, link, pushNet, inv);
    if !ok {
      return;
    }
    var more: nat;
    ok, pulled, more := PullAll(server, device, link, pullNet, inv);
    conflicts := conflicts + more;
    assert ok ==> UpToDate(server.Abs(), InstallOf(server, device, link));
  }

  /** A server and a device that have nothing yet: the first round goes through. */
  method FirstRound(id: string) returns (server: Database, device: Database, link: Link)
    requires GoodId(id)
    ensures Linked(server, device, link, PairInv(map[])) && device.rows == server.rows
  {
    server := new Database(Store(map[], [], 1));
    device := new Database(Store(map[], [], 1));
    link := new Link(id);
    PairsAreKept(map[]);
    var ok, pushed, pulled, conflicts := Round(server, device, link, (n: nat) => Fine, (n: nat) => Fine, PairInv(map[]));
  }
}
