/** One database of a sync pair: its rows, its change log, and the application of a batch of changes
    (internal/modules/datasync/datasync.go; the log trigger of migrations/0062_data_sync.up.sql). */
module SyncStore {
  import opened Wrappers

  /** The synced tables, parents first. */
  const TABLES: seq<string> := [
    "units_of_measure", "categories", "brands", "parties", "products", "unit_conversions",
    "product_variants", "product_barcodes", "party_addresses", "party_tax_registrations"]

  datatype Key = Key(table: string, id: int)

  /** A row as the receiving side sees it: when it was last written, the rows it refers to, the values it
      claims as its own under a unique index, and whether it passes the CHECK and NOT NULL constraints. */
  datatype Row = Row(updatedAt: nat, data: string, parents: set<Key>, claims: set<string>, sound: bool)

  datatype Op = Upsert(row: Row) | NotAnObject | Delete | Other(code: string)

  datatype Change = Change(key: Key, op: Op)

  /** One line of sync_changes. */
  datatype Entry = Entry(seqNo: int, change: Change, origin: Option<string>)

  type Rows = map<Key, Row>

  /** Who is writing: nobody special, a device whose push is being applied, or a device applying a pull (not logged). */
  datatype Writer = Local | Device(id: string) | Skip

  datatype Outcome = Applied | Stale | Conflict | Retry

  predicate ValidTable(t: string) { t in TABLES }

  /** unit_conversions, product_barcodes and party_tax_registrations have no updated_at column. */
  predicate HasUpdatedAt(t: string) { t !in ["unit_conversions", "product_barcodes", "party_tax_registrations"] }

  /** The place of a version among the versions of its row; rows without updated_at are written once. */
  function Rank(k: Key, r: Row): nat { if HasUpdatedAt(k.table) then r.updatedAt else 0 }

  // ---- one change ---------------------------------------------------------------------------

  predicate Clashes(rows: Rows, k: Key, r: Row) { exists q :: q in rows && q != k && rows[q].claims * r.claims != {} }

  predicate ParentsPresent(rows: Rows, k: Key, r: Row) { forall p :: p in r.parents ==> p in rows || p == k }

  predicate Referenced(rows: Rows, k: Key) { exists q :: q in rows && q != k && k in rows[q].parents }

  /** What one change does to the rows; a refused or stale change leaves them as they are. */
  function Decide(rows: Rows, c: Change): Outcome {
    if !ValidTable(c.key.table) then Conflict else
    match c.op
    case Other(_) => Conflict
    case NotAnObject => Conflict
    case Delete => if c.key in rows && Referenced(rows, c.key) then Retry else Applied
    case Upsert(r) =>
      if !r.sound then Conflict
      else if c.key in rows && Rank(c.key, r) <= Rank(c.key, rows[c.key]) then Stale
      else if Clashes(rows, c.key, r) then Conflict
      else if !ParentsPresent(rows, c.key, r) then Retry
      else Applied
  }

  function After(rows: Rows, c: Change): Rows {
    if Decide(rows, c) != Applied then rows
    else if c.op.Upsert? then rows[c.key := c.op.row]
    else rows - {c.key}
  }

  /** Whether the trigger writes a log line: only for a row really written or removed. */
  predicate Logged(rows: Rows, c: Change, w: Writer) {
    Decide(rows, c) == Applied && w != Skip && (c.op.Upsert? || c.key in rows)
  }

  function OriginOf(w: Writer): Option<string> { if w.Device? then Some(w.id) else None }

  // ---- a batch ------------------------------------------------------------------------------

  datatype Store = Store(rows: Rows, log: seq<Entry>, nextSeq: int)

  function Step(s: Store, c: Change, w: Writer): Store {
    if Logged(s.rows, c, w) then Store(After(s.rows, c), s.log + [Entry(s.nextSeq, c, OriginOf(w))], s.nextSeq + 1)
    else s.(rows := After(s.rows, c))
  }

  datatype Counts = Counts(applied: nat, stale: nat, conflicts: nat)

  function Count(n: Counts, o: Outcome): Counts {
    match o
    case Applied => n.(applied := n.applied + 1)
    case Stale => n.(stale := n.stale + 1)
    case Conflict => n.(conflicts := n.conflicts + 1)
    case Retry => n.(conflicts := n.conflicts + 1)
  }

  datatype Pass = Pass(store: Store, counts: Counts, waiting: seq<Change>)

  /** Pass one: in order; a change whose parent is missing waits. */
  function PassOne(s: Store, cs: seq<Change>, w: Writer): Pass {
    if cs == [] then Pass(s, Counts(0, 0, 0), []) else
    var p := PassOne(s, cs[..|cs| - 1], w);
    var c := cs[|cs| - 1];
    var o := Decide(p.store.rows, c);
    if o == Retry then p.(waiting := p.waiting + [c])
    else Pass(Step(p.store, c, w), Count(p.counts, o), p.waiting)
  }

  /** Pass two: once more, and whatever still fails is a conflict. */
  function PassTwo(s: Store, n: Counts, cs: seq<Change>, w: Writer): Pass {
    if cs == [] then Pass(s, n, []) else
    var p := PassTwo(s, n, cs[..|cs| - 1], w);
    var c := cs[|cs| - 1];
    Pass(Step(p.store, c, w), Count(p.counts, Decide(p.store.rows, c)), [])
  }

  function Batch(s: Store, cs: seq<Change>, w: Writer): Pass {
    var p := PassOne(s, cs, w);
    PassTwo(p.store, p.counts, p.waiting, w)
  }
}
