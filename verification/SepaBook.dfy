/** The life of a direct debit, as one state (internal/modules/sepa/service.go). */
module SepaBook {
  // Mandates, batches, collections and the receipts they lead to.  Amounts are in units of 10^-10 euro,
  // except collections, which are in whole cents.

  import opened Wrappers
  import opened Sequences
  import opened Decimals
  import opened Rounding
  import opened SepaText
  import opened SepaFile
  import opened Iban

  datatype Mandate = Mandate(party: int, ref: string, signedOn: int, holder: string, iban: string, bic: string, active: bool, first: bool)

  datatype Invoice = Invoice(number: string, party: int, company: int, status: string, docType: string, currency: string, base: string, total: int, credited: int)

  datatype Status = Pending | Collected | Rejected

  datatype Collection = Collection(id: int, batch: int, mandate: nat, doc: int, cents: int, e2e: string, seqType: SeqType, status: Status, receipt: Option<nat>, reason: string)

  datatype Batch = Batch(company: int, file: File, total: int, count: nat, sent: bool)

  datatype Receipt = Receipt(doc: int, amount: int, reference: string, reversed: bool)

  /** The tables.  A mandate's or receipt's id is its position: neither is ever deleted. */
  datatype Books = Books(docs: map<int, Invoice>, mandates: seq<Mandate>, batches: map<int, Batch>, rows: seq<Collection>, receipts: seq<Receipt>, nextBatch: int, nextRow: int)

  datatype Problem = NoInvoices | TooEarly | NotABusinessDay | NoCreditor | UnknownInvoice | NotAFinalInvoice | NotEuro | NothingOutstanding | NoMandate | AlreadyInDebit
                   | BadFile(why: Built) | NotFound | AlreadySent | NotSent | HasResult | LedgerRefused
                   | BadIban(found: Checked) | BadBic | NoHolder | SignedInFuture | UnknownCustomer | RefTaken

  datatype Outcome<+T> = Done(value: T) | Failed(problem: Problem)

  predicate Open(x: Collection) { x.status != Rejected }

  // ---- sums over the rows -------------------------------------------------------------------

  function Of(rows: seq<Collection>, batch: int): (r: seq<Collection>)
    ensures forall x :: x in r <==> x in rows && x.batch == batch
  {
    if rows == [] then [] else
    assert rows == rows[..|rows| - 1] + [rows[|rows| - 1]];
    Of(rows[..|rows| - 1], batch) + if rows[|rows| - 1].batch == batch then [rows[|rows| - 1]] else []
  }

  function Without(rows: seq<Collection>, batch: int): (r: seq<Collection>)
    ensures forall x :: x in r <==> x in rows && x.batch != batch
  {
    if rows == [] then [] else
    assert rows == rows[..|rows| - 1] + [rows[|rows| - 1]];
    Without(rows[..|rows| - 1], batch) + if rows[|rows| - 1].batch != batch then [rows[|rows| - 1]] else []
  }

  function Replace(rows: seq<Collection>, x: Collection): (r: seq<Collection>)
    ensures forall y :: y in r <==> (y in rows && y.id != x.id) || (y == x && exists z :: z in rows && z.id == x.id)
  {
    if rows == [] then [] else
    assert rows == rows[..|rows| - 1] + [rows[|rows| - 1]];
    Replace(rows[..|rows| - 1], x) + [if rows[|rows| - 1].id == x.id then x else rows[|rows| - 1]]
  }

  function SumCents(rows: seq<Collection>): int { if rows == [] then 0 else SumCents(rows[..|rows| - 1]) + rows[|rows| - 1].cents }

  function Paid(receipts: seq<Receipt>, doc: int): int {
    if receipts == [] then 0 else
    var r := receipts[|receipts| - 1];
    Paid(receipts[..|receipts| - 1], doc) + if r.doc == doc && !r.reversed then r.amount else 0
  }

  // ---- what always holds --------------------------------------------------------------------

  ghost predicate RowsOk(b: Books) {
    && (forall x, y :: x in b.rows && y in b.rows && x.id == y.id ==> x == y)
    && (forall x :: x in b.rows ==> x.id < b.nextRow && x.batch in b.batches && x.mandate < |b.mandates| && x.doc in b.docs && x.cents > 0 && x.seqType != NoType)
    && (forall id :: id in b.batches ==> id < b.nextBatch)
  }

  /** An invoice is in at most one collection that is pending or collected. */
  ghost predicate OneOpen(b: Books) {
    forall x, y :: x in b.rows && y in b.rows && Open(x) && Open(y) && x.doc == y.doc ==> x == y
  }

  /** Nothing has a result before its batch was sent. */
  ghost predicate DraftsPending(b: Books)
    requires RowsOk(b)
  {
    forall x :: x in b.rows && !b.batches[x.batch].sent ==> x.status == Pending
  }

  predicate PaidBy(b: Books, x: Collection) {
    x.receipt.Some? && x.receipt.value < |b.receipts| && var r := b.receipts[x.receipt.value];
    r.doc == x.doc && r.amount == x.cents * CENT && r.reference == "SDD " + x.e2e
  }

  /** A collection is COLLECTED exactly when it has a receipt; the receipt is its own and of its amount. */
  ghost predicate ReceiptsOk(b: Books) {
    && (forall x :: x in b.rows ==> (x.status == Collected <==> x.receipt.Some?) && (x.receipt.Some? ==> PaidBy(b, x)))
    && (forall x, y :: x in b.rows && y in b.rows && x.receipt.Some? && x.receipt == y.receipt ==> x == y)
  }

  /** A collection of this mandate was sent to the bank, in a batch created before batch `before`. */
  ghost predicate SentFor(b: Books, m: int, before: int)
    requires RowsOk(b)
  {
    exists x :: x in b.rows && x.mandate == m && b.batches[x.batch].sent && x.batch < before
  }

  /** A mandate counts as used exactly when a collection of it was sent; a recurring collection only follows a sent one;
      and every collection uses a mandate of the invoice's own customer. */
  ghost predicate MandatesOk(b: Books)
    requires RowsOk(b)
  {
    && (forall m :: 0 <= m < |b.mandates| ==> (b.mandates[m].first <==> SentFor(b, m, b.nextBatch)))
    && (forall x :: x in b.rows && x.seqType == RCUR ==> SentFor(b, x.mandate, x.batch))
    && (forall x :: x in b.rows ==> b.mandates[x.mandate].party == b.docs[x.doc].party)
  }

  /** A batch's stored count and total are those of its collections and those printed in its file. */
  ghost predicate TotalsOk(b: Books) {
    forall id :: id in b.batches ==>
      var rs, h := Of(b.rows, id), b.batches[id];
      h.count == |rs| == h.file.count && h.count > 0 && h.total == SumCents(rs) == h.file.ctrlSum
  }

  ghost predicate BooksOk(b: Books) {
    RowsOk(b) && OneOpen(b) && DraftsPending(b) && ReceiptsOk(b) && MandatesOk(b) && TotalsOk(b)
  }

  // ---- choosing what to collect -------------------------------------------------------------

  /** One invoice that will be collected, with what the file needs. */
  datatype Debit = Debit(doc: int, number: string, mandate: nat, terms: Mandate, cents: int, e2e: string, seqType: SeqType)

  function UpperAscii(c: char): char { if 'a' <= c <= 'z' then (c as int - 32) as char else c }

  predicate IsEuro(s: string) { |s| == 3 && UpperAscii(s[0]) == 'E' && UpperAscii(s[1]) == 'U' && UpperAscii(s[2]) == 'R' }

  /** The newest active mandate of a customer. */
  function LatestActive(mandates: seq<Mandate>, party: int): (m: Option<nat>)
    ensures m.Some? ==> m.value < |mandates| && mandates[m.value].party == party && mandates[m.value].active
    ensures m.None? ==> forall i :: 0 <= i < |mandates| ==> !(mandates[i].party == party && mandates[i].active)
  {
    if mandates == [] then None
    else if mandates[|mandates| - 1].party == party && mandates[|mandates| - 1].active then Some(|mandates| - 1)
    else LatestActive(mandates[..|mandates| - 1], party)
  }

  predicate InDebit(rows: seq<Collection>, doc: int) { exists x :: x in rows && x.doc == doc && Open(x) }

  function Outstanding(b: Books, doc: int): int
    requires doc in b.docs
  {
    RoundAway(b.docs[doc].total - Paid(b.receipts, doc) - b.docs[doc].credited, CENT)
  }

  predicate Collectable(d: Invoice, company: int) {
    d.company == company && d.status == "FINALIZED" && (d.docType == "TAX_INVOICE" || d.docType == "POS_INVOICE" || d.docType == "DEBIT_NOTE")
  }

  /** The checks on one chosen invoice, in order. */
  function Choose(b: Books, company: int, doc: int): Outcome<Debit> {
    if doc !in b.docs then Failed(UnknownInvoice) else
    var d := b.docs[doc];
    if !Collectable(d, company) then Failed(NotAFinalInvoice)
    else if !IsEuro(d.currency) || !IsEuro(d.base) then Failed(NotEuro)
    else if Outstanding(b, doc) <= 0 then Failed(NothingOutstanding)
    else var m := LatestActive(b.mandates, d.party);
    if m.None? then Failed(NoMandate)
    else if InDebit(b.rows, doc) then Failed(AlreadyInDebit)
    else Done(Debit(doc, d.number, m.value, b.mandates[m.value], Outstanding(b, doc), Cleaned("INV-" + d.number, 35), if b.mandates[m.value].first then RCUR else FRST))
  }

  /** The checks on all of them; an invoice chosen twice is taken once. */
  function ChooseAll(b: Books, company: int, docs: seq<int>): Outcome<seq<Debit>> {
    if docs == [] then Done([]) else
    var front, doc := docs[..|docs| - 1], docs[|docs| - 1];
    match ChooseAll(b, company, front)
    case Failed(p) => Failed(p)
    case Done(ds) =>
      if doc in front then Done(ds) else
      match Choose(b, company, doc)
      case Failed(p) => Failed(p)
      case Done(d) => Done(ds + [d])
  }

  function ItemOf(d: Debit): Item {
    Item(d.e2e, d.cents * CENT, d.terms.ref, d.terms.signedOn, d.terms.holder, d.terms.iban, d.terms.bic, "Invoice " + d.number, d.seqType)
  }

  function ItemsOf(ds: seq<Debit>): (items: seq<Item>)
    ensures |items| == |ds| && forall i :: 0 <= i < |ds| ==> items[i] == ItemOf(ds[i])
  {
    seq(|ds|, i requires 0 <= i < |ds| => ItemOf(ds[i]))
  }

  function RowOf(batch: int, id: int, d: Debit): Collection {
    Collection(id, batch, d.mandate, d.doc, d.cents, d.e2e, d.seqType, Pending, None, "")
  }

  function NewRows(batch: int, id: int, ds: seq<Debit>): (r: seq<Collection>)
    ensures |r| == |ds|
  {
    if ds == [] then [] else NewRows(batch, id, ds[..|ds| - 1]) + [RowOf(batch, id + |ds| - 1, ds[|ds| - 1])]
  }

  predicate DebitOk(b: Books, d: Debit) {
    && d.doc in b.docs && d.mandate < |b.mandates| && d.terms == b.mandates[d.mandate] && d.cents > 0 && !InDebit(b.rows, d.doc)
    && b.mandates[d.mandate].party == b.docs[d.doc].party
    && d.seqType == if b.mandates[d.mandate].first then RCUR else FRST
  }

  /** A fresh choice of debits: each may be collected now, and no invoice twice. */
  ghost predicate ChoiceOk(b: Books, ds: seq<Debit>) {
    (forall d :: d in ds ==> DebitOk(b, d)) && forall i, j :: 0 <= i < j < |ds| ==> ds[i].doc != ds[j].doc
  }

  ghost predicate SameDocs(ds: seq<Debit>, docs: seq<int>) {
    (forall d :: d in ds ==> d.doc in docs) && forall doc :: doc in docs ==> exists d :: d in ds && d.doc == doc
  }

  lemma {:induction false} ChosenIsOk(b: Books, company: int, doc: int)
    requires Choose(b, company, doc).Done?
    ensures DebitOk(b, Choose(b, company, doc).value) && Choose(b, company, doc).value.doc == doc
  {}

  lemma {:induction false} ChoiceMore(b: Books, ds: seq<Debit>, docs: seq<int>, d: Debit)
    requires ChoiceOk(b, ds) && SameDocs(ds, docs) && DebitOk(b, d) && d.doc !in docs
    ensures ChoiceOk(b, ds + [d]) && SameDocs(ds + [d], docs + [d.doc])
  {
    assert forall e :: e in ds ==> e in ds + [d];
    assert d in ds + [d];
  }

  /** The chosen debits are good, and there is one for every invoice asked for. */
  lemma {:induction false} ChosenAreOk(b: Books, company: int, docs: seq<int>)
    requires ChooseAll(b, company, docs).Done?
    ensures ChoiceOk(b, ChooseAll(b, company, docs).value) && SameDocs(ChooseAll(b, company, docs).value, docs)
  {
    if docs != [] {
      var front, doc := docs[..|docs| - 1], docs[|docs| - 1];
      assert docs == front + [doc];
      ChosenAreOk(b, company, front);
      if doc !in front {
        ChosenIsOk(b, company, doc);
        ChoiceMore(b, ChooseAll(b, company, front).value, front, Choose(b, company, doc).value);
      }
    }
  }

  // ---- the transitions ----------------------------------------------------------------------

  function WithBatch(b: Books, company: int, file: File, total: int, ds: seq<Debit>): Books {
    b.(batches := b.batches[b.nextBatch := Batch(company, file, total, |ds|, false)], rows := b.rows + NewRows(b.nextBatch, b.nextRow, ds),
       nextBatch := b.nextBatch + 1, nextRow := b.nextRow + |ds|)
  }

  predicate Uses(rows: seq<Collection>, batch: int, m: int) { exists x :: x in rows && x.batch == batch && x.mandate == m }

  function MarkedFirst(b: Books, batch: int): (r: seq<Mandate>)
    ensures |r| == |b.mandates|
  {
    seq(|b.mandates|, m requires 0 <= m < |b.mandates| => if Uses(b.rows, batch, m) then b.mandates[m].(first := true) else b.mandates[m])
  }

  function WithSent(b: Books, batch: int): Books
    requires batch in b.batches
  {
    b.(batches := b.batches[batch := b.batches[batch].(sent := true)], mandates := MarkedFirst(b, batch))
  }

  function WithoutBatch(b: Books, batch: int): Books {
    b.(batches := b.batches - {batch}, rows := Without(b.rows, batch))
  }

  function ReceiptFor(x: Collection): Receipt { Receipt(x.doc, x.cents * CENT, "SDD " + x.e2e, false) }

  function WithResult(b: Books, y: Collection, more: seq<Receipt>): Books {
    b.(rows := Replace(b.rows, y), receipts := b.receipts + more)
  }

  /** The bank's answer for collection x: collected, with a receipt, or rejected, with a reason. */
  function Answered(b: Books, x: Collection, collected: bool, reason: string): Books {
    if collected then WithResult(b, x.(status := Collected, receipt := Some(|b.receipts|)), [ReceiptFor(x)])
    else WithResult(b, x.(status := Rejected, reason := Cleaned(reason, 200)), [])
  }

  function Lookup(rows: seq<Collection>, id: int): Option<Collection> {
    if rows == [] then None
    else if rows[|rows| - 1].id == id then Some(rows[|rows| - 1]) else Lookup(rows[..|rows| - 1], id)
  }

  lemma {:induction false} LookupFinds(rows: seq<Collection>, id: int)
    ensures Lookup(rows, id).Some? ==> Lookup(rows, id).value in rows && Lookup(rows, id).value.id == id
    ensures Lookup(rows, id).None? ==> forall x :: x in rows ==> x.id != id
  {
    if rows != [] { LookupFinds(rows[..|rows| - 1], id); }
  }

  function Reported(b: Books, id: int, collected: bool, ledgerAccepts: bool): Outcome<()> {
    match Lookup(b.rows, id)
    case None => Failed(NotFound)
    case Some(x) =>
      if !(x.batch in b.batches && b.batches[x.batch].sent) then Failed(NotSent)
      else if x.status != Pending then Failed(HasResult)
      else if collected && !ledgerAccepts then Failed(LedgerRefused)
      else Done(())
  }

  function AfterResult(b: Books, id: int, collected: bool, reason: string): Books {
    match Lookup(b.rows, id)
    case None => b
    case Some(x) => Answered(b, x, collected, reason)
  }

  // ---- every transition keeps what holds ----------------------------------------------------

  lemma {:induction false} NewRowsAre(batch: int, id: int, ds: seq<Debit>)
    ensures forall i :: 0 <= i < |ds| ==> NewRows(batch, id, ds)[i] == RowOf(batch, id + i, ds[i])
    ensures forall x :: x in NewRows(batch, id, ds) ==> exists i :: 0 <= i < |ds| && x == RowOf(batch, id + i, ds[i])
  {
    if ds != [] { NewRowsAre(batch, id, ds[..|ds| - 1]); }
  }

  lemma {:induction false} OfMore(rows: seq<Collection>, x: Collection, id: int)
    ensures Of(rows + [x], id) == if x.batch == id then Of(rows, id) + [x] else Of(rows, id)
  {
    assert (rows + [x])[..|rows|] == rows;
  }

  lemma {:induction false} OfAppend(rows: seq<Collection>, more: seq<Collection>, id: int)
    ensures Of(rows + more, id) == Of(rows, id) + Of(more, id)
  {
    if more == [] {
      assert rows + more == rows;
    } else {
      OfAppend(rows, more[..|more| - 1], id);
      OfAppendNext(rows, more[..|more| - 1], more[|more| - 1], id);
      LastApart(more);
    }
  }

  lemma {:induction false} OfAppendNext(rows: seq<Collection>, front: seq<Collection>, last: Collection, id: int)
    requires Of(rows + front, id) == Of(rows, id) + Of(front, id)
    ensures Of(rows + (front + [last]), id) == Of(rows, id) + Of(front + [last], id)
  {
    Assoc(rows, front, [last]);
    OfMore(rows + front, last, id);
    OfMore(front, last, id);
    Assoc(Of(rows, id), Of(front, id), [last]);
  }

  lemma {:induction false} OfNone(rows: seq<Collection>, id: int)
    requires forall x :: x in rows ==> x.batch != id
    ensures Of(rows, id) == []
  {
    assert forall x :: x !in Of(rows, id);
    if rows != [] { OfNone(rows[..|rows| - 1], id); }
  }

  lemma {:induction false} OfAll(rows: seq<Collection>, id: int)
    requires forall x :: x in rows ==> x.batch == id
    ensures Of(rows, id) == rows
  {
    if rows != [] {
      assert rows[|rows| - 1] in rows;
      OfAll(rows[..|rows| - 1], id);
      LastApart(rows);
    }
  }

  lemma {:induction false} OfWithout(rows: seq<Collection>, out: int, id: int)
    ensures Of(Without(rows, out), id) == if id == out then [] else Of(rows, id)
  {
    if rows != [] {
      var front, last := rows[..|rows| - 1], rows[|rows| - 1];
      OfWithout(front, out, id);
      OfAppend(Without(front, out), if last.batch != out then [last] else [], id);
      assert [last][..0] == [];
      assert Of([last], id) == if last.batch == id then [last] else [];
    }
  }

  lemma {:induction false} OfReplace(rows: seq<Collection>, x: Collection, id: int)
    requires forall y :: y in rows && y.id == x.id ==> y.batch == x.batch && y.cents == x.cents
    ensures |Of(Replace(rows, x), id)| == |Of(rows, id)| && SumCents(Of(Replace(rows, x), id)) == SumCents(Of(rows, id))
  {
    if rows != [] {
      var front, last := rows[..|rows| - 1], rows[|rows| - 1];
      assert rows == front + [last];
      OfReplace(front, x, id);
      var last' := if last.id == x.id then x else last;
      assert last in rows;
      ReplacedLast(Replace(front, x), last', id);
      ReplacedLast(front, last, id);
    }
  }

  lemma {:induction false} ReplacedLast(rows: seq<Collection>, x: Collection, id: int)
    ensures |Of(rows + [x], id)| == |Of(rows, id)| + (if x.batch == id then 1 else 0)
    ensures SumCents(Of(rows + [x], id)) == SumCents(Of(rows, id)) + if x.batch == id then x.cents else 0
  {
    assert (rows + [x])[..|rows|] == rows;
    assert Of(rows + [x], id) == Of(rows, id) + if x.batch == id then [x] else [];
    if x.batch == id {
      assert (Of(rows, id) + [x])[..|Of(rows, id)|] == Of(rows, id);
    } else {
      assert Of(rows, id) + [] == Of(rows, id);
    }
  }

  lemma {:induction false} NewRowsSum(batch: int, id: int, ds: seq<Debit>, items: seq<Item>)
    requires |items| == |ds| && forall i :: 0 <= i < |ds| ==> items[i].amount == ds[i].cents * CENT
    ensures SumCents(NewRows(batch, id, ds)) * CENT == Total(items)
  {
    if ds != [] {
      NewRowsSum(batch, id, ds[..|ds| - 1], items[..|ds| - 1]);
    }
  }

  lemma {:induction false} NewRowsHaveNewIds(batch: int, id: int, ds: seq<Debit>)
    ensures forall x :: x in NewRows(batch, id, ds) ==> id <= x.id < id + |ds| && x.batch == batch && x.status == Pending && x.receipt.None?
  {
    if ds != [] { NewRowsHaveNewIds(batch, id, ds[..|ds| - 1]); }
  }

  lemma {:induction false} NewRowsDiffer(batch: int, id: int, ds: seq<Debit>)
    requires forall i, j :: 0 <= i < j < |ds| ==> ds[i].doc != ds[j].doc
    ensures forall x, y :: x in NewRows(batch, id, ds) && y in NewRows(batch, id, ds) && (x.id == y.id || x.doc == y.doc) ==> x == y
  {
    NewRowsAre(batch, id, ds);
  }

  lemma {:induction false} NewRowsAreSound(b: Books, batch: int, id: int, ds: seq<Debit>)
    requires forall d :: d in ds ==> DebitOk(b, d)
    ensures forall x :: x in NewRows(batch, id, ds) ==>
      x.mandate < |b.mandates| && DebitOk(b, Debit(x.doc, "", x.mandate, b.mandates[x.mandate], x.cents, x.e2e, x.seqType))
  {
    if ds != [] {
      assert ds[|ds| - 1] in ds && forall d :: d in ds[..|ds| - 1] ==> d in ds;
      NewRowsAreSound(b, batch, id, ds[..|ds| - 1]);
    }
  }

  /** The new rows share nothing with the old ones and not with each other. */
  lemma {:induction false} NewRowsAreNew(b: Books, ds: seq<Debit>)
    requires RowsOk(b) && ChoiceOk(b, ds)
    ensures var added := NewRows(b.nextBatch, b.nextRow, ds);
      && (forall x :: x in added ==> b.nextRow <= x.id < b.nextRow + |ds| && x.batch == b.nextBatch && x.status == Pending && x.receipt.None?)
      && (forall x :: x in added ==> x.mandate < |b.mandates| && DebitOk(b, Debit(x.doc, "", x.mandate, b.mandates[x.mandate], x.cents, x.e2e, x.seqType)))
      && (forall x, y :: x in added && y in added && (x.id == y.id || x.doc == y.doc) ==> x == y)
  {
    NewRowsHaveNewIds(b.nextBatch, b.nextRow, ds);
    NewRowsDiffer(b.nextBatch, b.nextRow, ds);
    NewRowsAreSound(b, b.nextBatch, b.nextRow, ds);
  }

  lemma {:induction false} BatchKeepsRows(b: Books, company: int, file: File, total: int, ds: seq<Debit>)
    requires RowsOk(b) && OneOpen(b) && DraftsPending(b) && ChoiceOk(b, ds)
    ensures var b' := WithBatch(b, company, file, total, ds); RowsOk(b') && OneOpen(b') && DraftsPending(b')
  {
    NewRowsAreNew(b, ds);
  }

  lemma {:induction false} BatchKeepsReceipts(b: Books, company: int, file: File, total: int, ds: seq<Debit>)
    requires RowsOk(b) && ReceiptsOk(b) && ChoiceOk(b, ds)
    ensures ReceiptsOk(WithBatch(b, company, file, total, ds))
  {
    NewRowsAreNew(b, ds);
    var b' := WithBatch(b, company, file, total, ds);
    assert forall x :: x in b.rows && x.receipt.Some? ==> PaidBy(b', x) == PaidBy(b, x);
  }

  lemma {:induction false} BatchSendsNothing(b: Books, company: int, file: File, total: int, ds: seq<Debit>, m: int, before: int)
    requires RowsOk(b) && ChoiceOk(b, ds) && RowsOk(WithBatch(b, company, file, total, ds))
    ensures SentFor(WithBatch(b, company, file, total, ds), m, before) <==> SentFor(b, m, before)
  {
    NewRowsAreNew(b, ds);
    var b' := WithBatch(b, company, file, total, ds);
    if SentFor(b, m, before) {
      var x :| x in b.rows && x.mandate == m && b.batches[x.batch].sent && x.batch < before;
      assert x in b'.rows && b'.batches[x.batch].sent;
    }
    if SentFor(b', m, before) {
      var x :| x in b'.rows && x.mandate == m && b'.batches[x.batch].sent && x.batch < before;
      assert x in b.rows && b.batches[x.batch].sent;
    }
  }

  lemma {:induction false} SentForAll(b: Books, m: int, before: int)
    requires RowsOk(b) && before >= b.nextBatch
    ensures SentFor(b, m, before) <==> SentFor(b, m, b.nextBatch)
  {}

  lemma {:induction false} BatchKeepsMandates(b: Books, company: int, file: File, total: int, ds: seq<Debit>)
    requires RowsOk(b) && MandatesOk(b) && ChoiceOk(b, ds)
    requires RowsOk(WithBatch(b, company, file, total, ds))
    ensures MandatesOk(WithBatch(b, company, file, total, ds))
  {
    var b' := WithBatch(b, company, file, total, ds);
    forall m, before
      ensures SentFor(b', m, before) <==> SentFor(b, m, before)
    {
      BatchSendsNothing(b, company, file, total, ds, m, before);
    }
    forall m
      ensures SentFor(b, m, b.nextBatch + 1) <==> SentFor(b, m, b.nextBatch)
    {
      SentForAll(b, m, b.nextBatch + 1);
    }
    NewRowsAreNew(b, ds);
  }

  lemma {:induction false} RowsOfBatch(rows: seq<Collection>, added: seq<Collection>, batch: int, id: int)
    requires (forall x :: x in rows ==> x.batch != batch) && forall x :: x in added ==> x.batch == batch
    ensures Of(rows + added, id) == if id == batch then added else Of(rows, id)
  {
    OfAppend(rows, added, id);
    if id == batch {
      OfNone(rows, id);
      OfAll(added, id);
    } else {
      OfNone(added, id);
      assert Of(rows, id) + [] == Of(rows, id);
    }
  }

  lemma {:induction false} BatchKeepsTotals(b: Books, company: int, file: File, total: int, ds: seq<Debit>)
    requires RowsOk(b) && TotalsOk(b) && ds != []
    requires ChoiceOk(b, ds) && file.count == |ds| && total == file.ctrlSum == SumCents(NewRows(b.nextBatch, b.nextRow, ds))
    ensures TotalsOk(WithBatch(b, company, file, total, ds))
  {
    var added := NewRows(b.nextBatch, b.nextRow, ds);
    NewRowsAreNew(b, ds);
    forall id | id in WithBatch(b, company, file, total, ds).batches
      ensures Of(b.rows + added, id) == if id == b.nextBatch then added else Of(b.rows, id)
    {
      RowsOfBatch(b.rows, added, b.nextBatch, id);
    }
  }

  lemma {:induction false} SendingKeepsRows(b: Books, batch: int)
    requires RowsOk(b) && OneOpen(b) && DraftsPending(b) && batch in b.batches
    ensures var b' := WithSent(b, batch); RowsOk(b') && OneOpen(b') && DraftsPending(b')
  {
    assert WithSent(b, batch).rows == b.rows;
  }

  lemma {:induction false} SendingKeepsReceipts(b: Books, batch: int)
    requires ReceiptsOk(b) && batch in b.batches
    ensures ReceiptsOk(WithSent(b, batch))
  {
    assert forall x :: x in b.rows && x.receipt.Some? ==> PaidBy(WithSent(b, batch), x) == PaidBy(b, x);
  }

  lemma {:induction false} SendingKeepsTotals(b: Books, batch: int)
    requires TotalsOk(b) && batch in b.batches
    ensures TotalsOk(WithSent(b, batch))
  {}

  lemma {:induction false} SendingKeepsMandates(b: Books, batch: int)
    requires RowsOk(b) && MandatesOk(b) && batch in b.batches && RowsOk(WithSent(b, batch))
    ensures MandatesOk(WithSent(b, batch))
  {
    var b' := WithSent(b, batch);
    forall m, before | SentFor(b, m, before)
      ensures SentFor(b', m, before)
    {
      var x :| x in b.rows && x.mandate == m && b.batches[x.batch].sent && x.batch < before;
      assert x in b'.rows && b'.batches[x.batch].sent;
    }
    forall m | 0 <= m < |b.mandates|
      ensures SentFor(b', m, b.nextBatch) <==> SentFor(b, m, b.nextBatch) || Uses(b.rows, batch, m)
    {
      if Uses(b.rows, batch, m) {
        var x :| x in b.rows && x.batch == batch && x.mandate == m;
        assert x in b'.rows && b'.batches[x.batch].sent && x.batch < b.nextBatch;
      } else if SentFor(b', m, b.nextBatch) {
        var x :| x in b'.rows && x.mandate == m && b'.batches[x.batch].sent && x.batch < b.nextBatch;
        assert x in b.rows && b.batches[x.batch].sent;
      }
    }
  }

  lemma {:induction false} DiscardKeepsRows(b: Books, batch: int)
    requires RowsOk(b) && OneOpen(b) && DraftsPending(b) && ReceiptsOk(b) && TotalsOk(b)
    ensures var b' := WithoutBatch(b, batch); RowsOk(b') && OneOpen(b') && DraftsPending(b') && ReceiptsOk(b') && TotalsOk(b')
  {
    var b' := WithoutBatch(b, batch);
    assert forall x :: x in b'.rows && x.receipt.Some? ==> PaidBy(b', x) == PaidBy(b, x);
    forall id | id in b'.batches
      ensures Of(b'.rows, id) == Of(b.rows, id)
    {
      OfWithout(b.rows, batch, id);
    }
  }

  lemma {:induction false} DiscardKeepsMandates(b: Books, batch: int)
    requires RowsOk(b) && MandatesOk(b) && RowsOk(WithoutBatch(b, batch)) && batch in b.batches && !b.batches[batch].sent
    ensures MandatesOk(WithoutBatch(b, batch))
  {
    var b' := WithoutBatch(b, batch);
    forall m, before
      ensures SentFor(b', m, before) <==> SentFor(b, m, before)
    {
      if SentFor(b, m, before) {
        var x :| x in b.rows && x.mandate == m && b.batches[x.batch].sent && x.batch < before;
        assert x in b'.rows && b'.batches[x.batch].sent;
      }
      if SentFor(b', m, before) {
        var x :| x in b'.rows && x.mandate == m && b'.batches[x.batch].sent && x.batch < before;
        assert x in b.rows && b.batches[x.batch].sent;
      }
    }
  }

  /** y is the pending collection x of a sent batch with its result; receipts are the receipts afterwards. */
  predicate IsResult(b: Books, x: Collection, y: Collection, receipts: seq<Receipt>) {
    || (y == x.(status := Rejected, reason := y.reason) && receipts == b.receipts)
    || (y == x.(status := Collected, receipt := Some(|b.receipts|)) && receipts == b.receipts + [ReceiptFor(x)])
  }

  lemma {:induction false} ResultKeepsRows(b: Books, x: Collection, y: Collection, receipts: seq<Receipt>)
    requires RowsOk(b) && OneOpen(b) && DraftsPending(b)
    requires x in b.rows && x.status == Pending && b.batches[x.batch].sent && IsResult(b, x, y, receipts)
    ensures var b' := b.(rows := Replace(b.rows, y), receipts := receipts); RowsOk(b') && OneOpen(b') && DraftsPending(b')
  {
    assert forall z :: z in Replace(b.rows, y) && z != y ==> z in b.rows && z.id != x.id;
  }

  lemma {:induction false} ResultKeepsReceipts(b: Books, x: Collection, y: Collection, receipts: seq<Receipt>)
    requires RowsOk(b) && ReceiptsOk(b)
    requires x in b.rows && x.status == Pending && IsResult(b, x, y, receipts)
    ensures ReceiptsOk(b.(rows := Replace(b.rows, y), receipts := receipts))
  {
    var b' := b.(rows := Replace(b.rows, y), receipts := receipts);
    assert forall z :: z in b'.rows && z != y ==> z in b.rows && z.id != x.id;
    assert forall z :: z in b.rows && z.receipt.Some? ==> PaidBy(b', z) == PaidBy(b, z);
    assert y.receipt.Some? ==> PaidBy(b', y);
  }

  /** A result does not change what was sent. */
  lemma {:induction false} ResultSendsNothing(b: Books, x: Collection, y: Collection, receipts: seq<Receipt>, m: int, before: int)
    requires RowsOk(b) && x in b.rows && y == x.(status := y.status, reason := y.reason, receipt := y.receipt)
    requires RowsOk(b.(rows := Replace(b.rows, y), receipts := receipts))
    ensures SentFor(b.(rows := Replace(b.rows, y), receipts := receipts), m, before) <==> SentFor(b, m, before)
  {
    var b' := b.(rows := Replace(b.rows, y), receipts := receipts);
    if SentFor(b, m, before) {
      var z :| z in b.rows && z.mandate == m && b.batches[z.batch].sent && z.batch < before;
      assert (if z.id == x.id then y else z) in b'.rows;
    }
    if SentFor(b', m, before) {
      var z :| z in b'.rows && z.mandate == m && b'.batches[z.batch].sent && z.batch < before;
      assert (if z.id == x.id then x else z) in b.rows;
    }
  }

  lemma {:induction false} ResultKeepsMandates(b: Books, x: Collection, y: Collection, receipts: seq<Receipt>)
    requires RowsOk(b) && MandatesOk(b) && x in b.rows && y == x.(status := y.status, reason := y.reason, receipt := y.receipt)
    requires RowsOk(b.(rows := Replace(b.rows, y), receipts := receipts))
    ensures MandatesOk(b.(rows := Replace(b.rows, y), receipts := receipts))
  {
    forall m, before
      ensures SentFor(b.(rows := Replace(b.rows, y), receipts := receipts), m, before) <==> SentFor(b, m, before)
    {
      ResultSendsNothing(b, x, y, receipts, m, before);
    }
    assert forall z :: z in Replace(b.rows, y) && z != y ==> z in b.rows;
  }

  lemma {:induction false} ResultKeepsTotals(b: Books, x: Collection, y: Collection, receipts: seq<Receipt>)
    requires RowsOk(b) && TotalsOk(b) && x in b.rows && y == x.(status := y.status, reason := y.reason, receipt := y.receipt)
    ensures TotalsOk(b.(rows := Replace(b.rows, y), receipts := receipts))
  {
    forall id | id in b.batches
      ensures |Of(Replace(b.rows, y), id)| == |Of(b.rows, id)| && SumCents(Of(Replace(b.rows, y), id)) == SumCents(Of(b.rows, id))
    {
      OfReplace(b.rows, y, id);
    }
  }

  lemma {:induction false} ResultIsOk(b: Books, x: Collection, collected: bool, reason: string)
    requires BooksOk(b) && x in b.rows && x.status == Pending && b.batches[x.batch].sent
    ensures BooksOk(Answered(b, x, collected, reason))
  {
    var y := if collected then x.(status := Collected, receipt := Some(|b.receipts|)) else x.(status := Rejected, reason := Cleaned(reason, 200));
    var receipts := b.receipts + if collected then [ReceiptFor(x)] else [];
    assert b.receipts + [] == b.receipts;
    ResultKeepsRows(b, x, y, receipts);
    ResultKeepsReceipts(b, x, y, receipts);
    ResultKeepsMandates(b, x, y, receipts);
    ResultKeepsTotals(b, x, y, receipts);
  }

  lemma {:induction false} SendingKeepsAll(b: Books, batch: int)
    requires BooksOk(b) && batch in b.batches
    ensures BooksOk(WithSent(b, batch))
  {
    SendingKeepsRows(b, batch);
    SendingKeepsReceipts(b, batch);
    SendingKeepsTotals(b, batch);
    SendingKeepsMandates(b, batch);
  }

  lemma {:induction false} DiscardKeepsAll(b: Books, batch: int)
    requires BooksOk(b) && batch in b.batches && !b.batches[batch].sent
    ensures BooksOk(WithoutBatch(b, batch))
  {
    DiscardKeepsRows(b, batch);
    DiscardKeepsMandates(b, batch);
  }

  /** b' differs from b only in details of invoices, mandates and receipts, or by new ones that no collection uses. */
  predicate OnlyDetails(b: Books, b': Books) {
    && b'.(docs := b.docs, mandates := b.mandates, receipts := b.receipts) == b
    && |b.mandates| <= |b'.mandates| && |b.receipts| <= |b'.receipts|
    && (forall id :: id in b.docs ==> id in b'.docs && b'.docs[id].party == b.docs[id].party)
    && (forall i :: 0 <= i < |b.mandates| ==> b'.mandates[i].first == b.mandates[i].first && b'.mandates[i].party == b.mandates[i].party)
    && (forall i :: |b.mandates| <= i < |b'.mandates| ==> !b'.mandates[i].first)
    && (forall i :: 0 <= i < |b.receipts| ==> b'.receipts[i].(reversed := b.receipts[i].reversed) == b.receipts[i])
  }

  lemma {:induction false} DetailsKeepRows(b: Books, b': Books)
    requires OnlyDetails(b, b') && RowsOk(b) && OneOpen(b) && DraftsPending(b) && TotalsOk(b)
    ensures RowsOk(b') && OneOpen(b') && DraftsPending(b') && TotalsOk(b')
  {}

  lemma {:induction false} DetailsKeepReceipts(b: Books, b': Books)
    requires OnlyDetails(b, b') && ReceiptsOk(b)
    ensures ReceiptsOk(b')
  {
    assert forall x :: x in b.rows && x.receipt.Some? && PaidBy(b, x) ==> PaidBy(b', x);
  }

  lemma {:induction false} DetailsKeepMandates(b: Books, b': Books)
    requires OnlyDetails(b, b') && RowsOk(b) && RowsOk(b') && MandatesOk(b)
    ensures MandatesOk(b')
  {
    assert forall k, before :: SentFor(b', k, before) <==> SentFor(b, k, before);
  }

  lemma {:induction false} DetailsKeepAll(b: Books, b': Books)
    requires OnlyDetails(b, b') && BooksOk(b)
    ensures BooksOk(b')
  {
    DetailsKeepRows(b, b');
    DetailsKeepReceipts(b, b');
    DetailsKeepMandates(b, b');
  }

  // ---- what a refused choice means, and what is printed ------------------------------------

  lemma {:induction false} ChooseMore(b: Books, company: int, ids: seq<int>, k: nat, ds: seq<Debit>)
    requires k < |ids| && ChooseAll(b, company, ids[..k]) == Done(ds)
    ensures ChooseAll(b, company, ids[..k + 1])
         == if ids[k] in ids[..k] then Done(ds) else match Choose(b, company, ids[k]) case Failed(p) => Failed(p) case Done(d) => Done(ds + [d])
  {
    assert ids[..k + 1][..k] == ids[..k];
  }

  lemma {:induction false} ItemsMore(ds: seq<Debit>, d: Debit)
    ensures ItemsOf(ds + [d]) == ItemsOf(ds) + [ItemOf(d)]
  {}

  lemma {:induction false} StaysFailed(b: Books, company: int, ids: seq<int>, k: nat)
    requires k <= |ids| && ChooseAll(b, company, ids[..k]).Failed?
    ensures ChooseAll(b, company, ids) == ChooseAll(b, company, ids[..k])
    decreases |ids|
  {
    if k < |ids| {
      assert ids[..|ids| - 1][..k] == ids[..k];
      StaysFailed(b, company, ids[..|ids| - 1], k);
    } else {
      assert ids[..k] == ids;
    }
  }

  lemma {:induction false} PrintedAsCleaned(d: Debit, text: string)
    requires d.e2e == Cleaned(text, 35) && d.cents > 0
    ensures EntryOf(ItemOf(d)).e2e == d.e2e && EntryOf(ItemOf(d)).cents == d.cents
  {
    CleanIsFixed(text, 35);
    CentsOfWhole(d.cents * CENT, d.cents);
  }

  lemma {:induction false} ChosenText(b: Books, company: int, doc: int, d: Debit)
    requires Choose(b, company, doc) == Done(d)
    ensures doc in b.docs && d.e2e == Cleaned("INV-" + b.docs[doc].number, 35) && d.cents == Outstanding(b, doc) > 0
  {}

  /** The end-to-end id and the amount kept with a collection are those printed in the file, where the id is cleaned once more. */
  lemma {:induction false} StoredIsPrinted(b: Books, company: int, doc: int, d: Debit)
    requires Choose(b, company, doc) == Done(d)
    ensures EntryOf(ItemOf(d)).e2e == d.e2e && EntryOf(ItemOf(d)).cents == d.cents
  {
    ChosenText(b, company, doc, d);
    PrintedAsCleaned(d, "INV-" + b.docs[doc].number);
  }

  /** A new collection is recurring exactly when one of its mandate was sent before. */
  lemma {:induction false} RecurringFollowsSent(b: Books, company: int, doc: int, d: Debit)
    requires BooksOk(b) && Choose(b, company, doc) == Done(d)
    ensures d.mandate < |b.mandates| && (d.seqType == RCUR <==> SentFor(b, d.mandate, b.nextBatch))
  {
    ChosenIsOk(b, company, doc);
  }

  lemma {:induction false} NotInNewRows(b: Books, ds: seq<Debit>, doc: int)
    requires forall d :: d in ds ==> d.doc != doc
    ensures InDebit(b.rows + NewRows(b.nextBatch, b.nextRow, ds), doc) == InDebit(b.rows, doc)
  {
    NewRowsAre(b.nextBatch, b.nextRow, ds);
    assert forall x :: x in b.rows ==> x in b.rows + NewRows(b.nextBatch, b.nextRow, ds);
  }

  lemma {:induction false} SameChoice(b: Books, b': Books, company: int, doc: int)
    requires b'.docs == b.docs && b'.mandates == b.mandates && b'.receipts == b.receipts && InDebit(b'.rows, doc) == InDebit(b.rows, doc)
    ensures Choose(b', company, doc) == Choose(b, company, doc)
  {
    if doc in b.docs {
      assert Outstanding(b', doc) == Outstanding(b, doc);
    }
  }

  /** A draft changes nothing for other invoices, not even their sequence type: two drafts of one mandate are both FRST. */
  lemma {:induction false} DraftsDoNotCount(b: Books, company: int, p: (seq<Debit>, File), doc: int)
    requires forall d :: d in p.0 ==> d.doc != doc
    ensures Choose(Created(b, company, p), company, doc) == Choose(b, company, doc)
  {
    NotInNewRows(b, p.0, doc);
    SameChoice(b, Created(b, company, p), company, doc);
  }

  lemma {:induction false} WholeItems(b: Books, ds: seq<Debit>)
    requires ChoiceOk(b, ds)
    ensures WholeCents(ItemsOf(ds)) && forall it :: it in ItemsOf(ds) ==> it.amount > 0
  {
    forall it | it in ItemsOf(ds)
      ensures it.amount % CENT == 0 && it.amount > 0
    {
      var i :| 0 <= i < |ds| && ItemsOf(ds)[i] == it;
      assert DebitOk(b, ds[i]);
    }
  }

  /** The header's control sum is the sum of the new collections. */
  lemma {:induction false} FileMatchesRows(b: Books, msgId: string, ds: seq<Debit>)
    requires ChoiceOk(b, ds) && Acceptable(ItemsOf(ds))
    ensures var f, items := FileOf(msgId, ItemsOf(ds)), ItemsOf(ds);
      f.count == |ds| && f.ctrlSum == SumCents(NewRows(b.nextBatch, b.nextRow, ds)) && Total(items) == f.ctrlSum * CENT && WholeCents(items)
  {
    var items := ItemsOf(ds);
    var sum := SumCents(NewRows(b.nextBatch, b.nextRow, ds));
    NewRowsSum(b.nextBatch, b.nextRow, ds, items);
    WholeItems(b, ds);
    PrintedIsExact(items);
    CentsOfWhole(Total(items), sum);
  }

  /** A new batch keeps everything that holds. */
  lemma {:induction false} BatchKeepsAll(b: Books, company: int, msgId: string, ds: seq<Debit>)
    requires BooksOk(b) && ChoiceOk(b, ds) && ds != [] && Acceptable(ItemsOf(ds))
    ensures var f := FileOf(msgId, ItemsOf(ds)); BooksOk(WithBatch(b, company, f, f.ctrlSum, ds))
  {
    var f := FileOf(msgId, ItemsOf(ds));
    FileMatchesRows(b, msgId, ds);
    BatchKeepsRows(b, company, f, f.ctrlSum, ds);
    BatchKeepsReceipts(b, company, f, f.ctrlSum, ds);
    BatchKeepsMandates(b, company, f, f.ctrlSum, ds);
    BatchKeepsTotals(b, company, f, f.ctrlSum, ds);
  }

  /** The chosen debits with their file, unless an amount is too large for it. */
  function BuiltFor(msgId: string, ds: seq<Debit>): Outcome<(seq<Debit>, File)> {
    var items := ItemsOf(ds);
    if ds == [] then Failed(BadFile(NoItems))
    else if !Acceptable(items) then Failed(BadFile(Objection(items)))
    else Done((ds, FileOf(msgId, items)))
  }

  /** Everything a new batch needs, or the first thing in its way. */
  function Prepared(b: Books, creditors: set<int>, company: int, collectionDate: int, today: int, msgId: string, ids: seq<int>): Outcome<(seq<Debit>, File)> {
    if |ids| == 0 || |ids| > 1000 then Failed(NoInvoices)
    else if collectionDate < NextBusiness(NextBusiness(today)) then Failed(TooEarly)
    else if Weekend(collectionDate) then Failed(NotABusinessDay)
    else if company !in creditors then Failed(NoCreditor)
    else match ChooseAll(b, company, ids)
      case Failed(p) => Failed(p)
      case Done(ds) => BuiltFor(msgId, ds)
  }

  /** The tables after a batch was created. */
  function Created(b: Books, company: int, p: (seq<Debit>, File)): Books { WithBatch(b, company, p.1, p.1.ctrlSum, p.0) }

  lemma {:induction false} CreatedIsOk(b: Books, creditors: set<int>, company: int, collectionDate: int, today: int, msgId: string, ids: seq<int>)
    requires BooksOk(b) && Prepared(b, creditors, company, collectionDate, today, msgId, ids).Done?
    ensures BooksOk(Created(b, company, Prepared(b, creditors, company, collectionDate, today, msgId, ids).value))
  {
    ChosenAreOk(b, company, ids);
    BatchKeepsAll(b, company, msgId, Prepared(b, creditors, company, collectionDate, today, msgId, ids).value.0);
  }

  /** A valid IBAN, a bank code of the right shape or none, an account holder, and a signature not more than a day ahead. */
  predicate Signable(iban: string, bic: string, holder: string, signedOn: int, now: int) {
    Accepted(Compact(iban)) && BicOk(Unspaced(bic)) && Cleaned(holder, 70) != "" && signedOn <= now + 86400
  }

  function RefOf(ref: string, generated: string): string { if Cleaned(ref, 35) == "" then generated else Cleaned(ref, 35) }

  // ---- the first collection date ------------------------------------------------------------

  /** Days are counted as in Calendar, where day 1 is a Monday. */
  predicate Weekend(day: int) { day % 7 == 6 || day % 7 == 0 }

  /** The first business day after a day. */
  function NextBusiness(day: int): (d: int)
    ensures d > day && !Weekend(d) && forall k :: day < k < d ==> Weekend(k)
  {
    if !Weekend(day + 1) then day + 1 else if !Weekend(day + 2) then day + 2 else day + 3
  }

  /** The earliest collection date is two business days away.  (The source ends with a second loop past a weekend, which never turns.) */
  method Earliest(today: int) returns (d: int)
    ensures d == NextBusiness(NextBusiness(today))
  {
    d := today;
    var added := 0;
    while added < 2
      invariant 0 <= added <= 2
      invariant added == 0 ==> NextBusiness(d) == NextBusiness(today)
      invariant added == 1 ==> NextBusiness(d) == NextBusiness(NextBusiness(today))
      invariant added == 2 ==> d == NextBusiness(NextBusiness(today))
      decreases 2 - added, NextBusiness(d) - d
    {
      d := d + 1;
      if !Weekend(d) {
        added := added + 1;
      }
    }
  }

  // ---- the service --------------------------------------------------------------------------

  class Office {
    var docs: map<int, Invoice>
    var creditors: set<int>                // companies with creditor details
    var mandates: seq<Mandate>
    var batches: map<int, Batch>
    var rows: seq<Collection>
    var receipts: seq<Receipt>
    var nextBatch: int
    var nextRow: int

    function Abs(): Books
      reads this
    {
      Books(docs, mandates, batches, rows, receipts, nextBatch, nextRow)
    }

    ghost predicate Valid()
      reads this
    {
      BooksOk(Abs())
    }

    constructor (docs: map<int, Invoice>, creditors: set<int>, receipts: seq<Receipt>)
      ensures Valid() && Abs() == Books(docs, [], map[], [], receipts, 0, 0) && this.creditors == creditors
    {
      this.docs, this.creditors, this.receipts := docs, creditors, receipts;
      mandates, batches, rows, nextBatch, nextRow := [], map[], [], 0, 0;
    }

    /** One round of the loop over the chosen invoices. */
    method TakeNext(company: int, ghost ids: seq<int>, ghost k: nat, id: int, repeated: bool, ds: seq<Debit>, items: seq<Item>)
      returns (r: Outcome<seq<Debit>>, items': seq<Item>)
      requires k < |ids| && id == ids[k] && (repeated <==> id in ids[..k])
      requires ChooseAll(Abs(), company, ids[..k]) == Done(ds) && items == ItemsOf(ds)
      ensures r == ChooseAll(Abs(), company, ids[..k + 1])
      ensures r.Done? ==> items' == ItemsOf(r.value)
    {
      ChooseMore(Abs(), company, ids, k, ds);
      if repeated {
        return Done(ds), items;
      }
      var d := Choose(Abs(), company, id);
      if d.Failed? {
        return Failed(d.problem), [];
      }
      ItemsMore(ds, d.value);
      return Done(ds + [d.value]), items + [ItemOf(d.value)];
    }

    /** The loop over the chosen invoices. */
    method ChooseThem(company: int, ids: seq<int>) returns (r: Outcome<seq<Debit>>, items: seq<Item>)
      ensures r == ChooseAll(Abs(), company, ids)
      ensures r.Done? ==> items == ItemsOf(r.value)
    {
      var seen := {};
      r, items := Done([]), [];
      for k := 0 to |ids|
        invariant forall i :: i in seen <==> i in ids[..k]
        invariant r.Done? && ChooseAll(Abs(), company, ids[..k]) == r && items == ItemsOf(r.value)
      {
        r, items := TakeNext(company, ids, k, ids[k], ids[k] in seen, r.value, items);
        if r.Failed? {
          StaysFailed(Abs(), company, ids, k + 1);
          return;
        }
        PrefixMore(ids, k);
        seen := seen + {ids[k]};
      }
      WholePrefix(ids);
    }

    /** The checks before anything is written. */
    method Prepare(company: int, collectionDate: int, today: int, msgId: string, ids: seq<int>) returns (r: Outcome<(seq<Debit>, File)>)
      ensures r == Prepared(Abs(), creditors, company, collectionDate, today, msgId, ids)
    {
      if |ids| == 0 || |ids| > 1000 {
        return Failed(NoInvoices);
      }
      var earliest := Earliest(today);
      if collectionDate < earliest {
        return Failed(TooEarly);
      }
      if Weekend(collectionDate) {
        return Failed(NotABusinessDay);
      }
      if company !in creditors {
        return Failed(NoCreditor);
      }
      var chosen, items := ChooseThem(company, ids);
      if chosen.Failed? {
        return Failed(chosen.problem);
      }
      var built := BuildFile(msgId, items);
      if !built.Built? {
        return Failed(BadFile(built));
      }
      return Done((chosen.value, built.file));
    }

    /** The rows of a new batch are written. */
    method Insert(company: int, file: File, total: int, ds: seq<Debit>)
      modifies this`batches, this`rows, this`nextBatch, this`nextRow
      ensures Abs() == WithBatch(old(Abs()), company, file, total, ds)
    {
      batches := batches[nextBatch := Batch(company, file, total, |ds|, false)];
      for k := 0 to |ds|
        invariant rows == old(rows) + NewRows(nextBatch, old(nextRow), ds[..k]) && nextRow == old(nextRow) + k
        invariant nextBatch == old(nextBatch) && batches == old(batches)[nextBatch := Batch(company, file, total, |ds|, false)]
      {
        assert ds[..k + 1][..k] == ds[..k];
        rows := rows + [RowOf(nextBatch, nextRow, ds[k])];
        nextRow := nextRow + 1;
      }
      WholePrefix(ds);
      nextBatch := nextBatch + 1;
    }

    /** CreateBatch: one collection for every chosen invoice, or nothing at all. */
    method CreateBatch(company: int, collectionDate: int, today: int, msgId: string, ids: seq<int>) returns (r: Outcome<int>)
      requires Valid()
      modifies this`batches, this`rows, this`nextBatch, this`nextRow
      ensures Valid()
      ensures match old(Prepared(Abs(), creditors, company, collectionDate, today, msgId, ids))
        case Failed(p) => r == Failed(p) && Abs() == old(Abs())
        case Done(p) => r == Done(old(nextBatch)) && Abs() == Created(old(Abs()), company, p)
    {
      var p := Prepare(company, collectionDate, today, msgId, ids);
      if p.Failed? {
        return Failed(p.problem);
      }
      CreatedIsOk(Abs(), creditors, company, collectionDate, today, msgId, ids);
      r := Done(nextBatch);
      Insert(company, p.value.1, p.value.1.ctrlSum, p.value.0);
    }

    method Send(batch: int)
      requires batch in batches
      modifies this`batches, this`mandates
      ensures Abs() == WithSent(old(Abs()), batch)
    {
      ghost var b := Abs();
      batches := batches[batch := batches[batch].(sent := true)];
      mandates := MarkedFirst(Abs(), batch);
      assert mandates == MarkedFirst(b, batch);
    }

    /** MarkSent: the file went to the bank, and its mandates count as used. */
    method MarkSent(batch: int) returns (r: Outcome<()>)
      requires Valid()
      modifies this`batches, this`mandates
      ensures Valid()
      ensures r == if batch in old(batches) && !old(batches)[batch].sent then Done(()) else Failed(NotFound)
      ensures Abs() == if r.Done? then WithSent(old(Abs()), batch) else old(Abs())
    {
      if batch !in batches || batches[batch].sent {
        return Failed(NotFound);
      }
      SendingKeepsAll(Abs(), batch);
      Send(batch);
      r := Done(());
    }

    method Remove(batch: int)
      modifies this`batches, this`rows
      ensures Abs() == WithoutBatch(old(Abs()), batch)
    {
      rows := Without(rows, batch);
      batches := batches - {batch};
    }

    /** Discard: a draft and its collections go. */
    method Discard(batch: int) returns (r: Outcome<()>)
      requires Valid()
      modifies this`batches, this`rows
      ensures Valid()
      ensures r == if batch !in old(batches) then Failed(NotFound) else if old(batches)[batch].sent then Failed(AlreadySent) else Done(())
      ensures Abs() == if r.Done? then WithoutBatch(old(Abs()), batch) else old(Abs())
    {
      if batch !in batches {
        return Failed(NotFound);
      }
      if batches[batch].sent {
        return Failed(AlreadySent);
      }
      DiscardKeepsAll(Abs(), batch);
      Remove(batch);
      r := Done(());
    }

    method Find(id: int) returns (x: Option<Collection>)
      ensures x == Lookup(rows, id)
    {
      x := None;
      var i := |rows|;
      WholePrefix(rows);
      while i > 0
        invariant 0 <= i <= |rows| && Lookup(rows, id) == Lookup(rows[..i], id)
      {
        i := i - 1;
        assert rows[..i + 1][..i] == rows[..i];
        if rows[i].id == id {
          return Some(rows[i]);
        }
      }
    }

    method Settle(x: Collection, y: Collection, more: seq<Receipt>)
      modifies this`rows, this`receipts
      ensures Abs() == WithResult(old(Abs()), y, more)
    {
      rows := Replace(rows, y);
      receipts := receipts + more;
    }

    /** Result: what the bank reported; the ledger may refuse the receipt of a collected one. */
    method Result(id: int, collected: bool, reason: string, ledgerAccepts: bool) returns (r: Outcome<()>)
      requires Valid()
      modifies this`rows, this`receipts
      ensures Valid()
      ensures r == Reported(old(Abs()), id, collected, ledgerAccepts)
      ensures Abs() == if r.Failed? then old(Abs()) else AfterResult(old(Abs()), id, collected, reason)
    {
      var found := Find(id);
      LookupFinds(rows, id);
      if found.None? {
        return Failed(NotFound);
      }
      var x := found.value;
      if !batches[x.batch].sent {
        return Failed(NotSent);
      }
      if x.status != Pending {
        return Failed(HasResult);
      }
      if collected && !ledgerAccepts {
        return Failed(LedgerRefused);
      }
      ResultIsOk(Abs(), x, collected, reason);
      if collected {
        Settle(x, x.(status := Collected, receipt := Some(|receipts|)), [ReceiptFor(x)]);
      } else {
        Settle(x, x.(status := Rejected, reason := Cleaned(reason, 200)), []);
      }
      r := Done(());
    }

    /** CreateMandate: the IBAN and the bank code are checked, the texts cleaned, and the reference must be new. */
    method CreateMandate(party: int, knownCustomer: bool, iban: string, bic: string, holder: string, ref: string, generated: string, signedOn: int, now: int) returns (r: Outcome<nat>)
      requires Valid()
      modifies this`mandates
      ensures Valid()
      ensures r.Done? <==> Signable(iban, bic, holder, signedOn, now) && knownCustomer && forall m :: m in old(mandates) ==> m.ref != RefOf(ref, generated)
      ensures mandates == if r.Done? then old(mandates) + [Mandate(party, RefOf(ref, generated), signedOn, Cleaned(holder, 70), Compact(iban), Unspaced(bic), true, false)] else old(mandates)
    {
      var checked, name := CheckSigner(iban, bic, holder, signedOn, now);
      if checked.Failed? {
        return Failed(checked.problem);
      }
      var mref := Clean(ref, 35);
      if mref == "" {
        mref := generated;
      }
      if !knownCustomer {
        return Failed(UnknownCustomer);
      }
      if exists m :: m in mandates && m.ref == mref {
        return Failed(RefTaken);
      }
      r := Done(|mandates|);
      AddMandate(Mandate(party, mref, signedOn, name, checked.value, Unspaced(bic), true, false));
    }

    /** The checks on what the customer signed. */
    method CheckSigner(iban: string, bic: string, holder: string, signedOn: int, now: int) returns (r: Outcome<string>, name: string)
      ensures r.Done? <==> Signable(iban, bic, holder, signedOn, now)
      ensures r.Done? ==> r.value == Compact(iban) && name == Cleaned(holder, 70)
    {
      name := "";
      var checked := NormalizeIban(iban);
      if !checked.Ok? {
        return Failed(BadIban(checked)), name;
      }
      if !BicOk(Unspaced(bic)) {
        return Failed(BadBic), name;
      }
      name := Clean(holder, 70);
      if name == "" {
        return Failed(NoHolder), name;
      }
      if signedOn > now + 86400 {
        return Failed(SignedInFuture), name;
      }
      return Done(checked.iban), name;
    }

    method AddMandate(m: Mandate)
      requires Valid() && !m.first
      modifies this`mandates
      ensures Valid() && mandates == old(mandates) + [m]
    {
      DetailsKeepAll(Abs(), Abs().(mandates := mandates + [m]));
      mandates := mandates + [m];
    }

    method RevokeMandate(id: nat) returns (r: Outcome<()>)
      requires Valid()
      modifies this`mandates
      ensures Valid()
      ensures r == if id < |old(mandates)| && old(mandates)[id].active then Done(()) else Failed(NotFound)
      ensures mandates == if r.Done? then old(mandates)[id := old(mandates)[id].(active := false)] else old(mandates)
    {
      if id >= |mandates| || !mandates[id].active {
        return Failed(NotFound);
      }
      DetailsKeepAll(Abs(), Abs().(mandates := mandates[id := mandates[id].(active := false)]));
      mandates := mandates[id := mandates[id].(active := false)];
      r := Done(());
    }

    /** The ledger takes a receipt back. */
    method ReverseReceipt(id: nat)
      requires Valid() && id < |receipts|
      modifies this`receipts
      ensures Valid() && receipts == old(receipts)[id := old(receipts)[id].(reversed := true)]
    {
      DetailsKeepAll(Abs(), Abs().(receipts := receipts[id := receipts[id].(reversed := true)]));
      receipts := receipts[id := receipts[id].(reversed := true)];
    }

    /** The ledger takes a payment that is not from a direct debit. */
    method TakePayment(doc: int, amount: int, reference: string)
      requires Valid()
      modifies this`receipts
      ensures Valid() && receipts == old(receipts) + [Receipt(doc, amount, reference, false)]
    {
      DetailsKeepAll(Abs(), Abs().(receipts := receipts + [Receipt(doc, amount, reference, false)]));
      receipts := receipts + [Receipt(doc, amount, reference, false)];
    }

    /** Sales writes an invoice, new or changed (finalized, credited); its customer stays. */
    method PutInvoice(id: int, d: Invoice)
      requires Valid() && (id in docs ==> d.party == docs[id].party)
      modifies this`docs
      ensures Valid() && docs == old(docs)[id := d]
    {
      DetailsKeepAll(Abs(), Abs().(docs := docs[id := d]));
      docs := docs[id := d];
    }
  }
}
