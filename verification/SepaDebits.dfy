/** What a debit takes (internal/modules/sepa/service.go). */
module SepaDebits {
  // From the invoice, its receipts and the customer's mandate to the written entry and the receipt.

  import opened Wrappers
  import opened Decimals
  import opened Rounding
  import opened Calendar
  import opened SepaText
  import opened SepaFile
  import opened SepaBook

  // ---- what is received on an invoice -------------------------------------------------------

  lemma {:induction false} PaidBooked(receipts: seq<Receipt>, r: Receipt, doc: int)
    ensures Paid([], doc) == 0
    ensures Paid(receipts + [r], doc) == Paid(receipts, doc) + if r.doc == doc && !r.reversed then r.amount else 0
  {
    assert (receipts + [r])[..|receipts|] == receipts;
  }

  /** Reversing a receipt takes its amount off its own invoice, once, and off no other. */
  lemma {:induction false} PaidReversed(receipts: seq<Receipt>, i: nat, doc: int)
    requires i < |receipts|
    ensures var r := receipts[i];
      Paid(receipts[i := r.(reversed := true)], doc) == Paid(receipts, doc) - if r.doc == doc && !r.reversed then r.amount else 0
    decreases |receipts|
  {
    var after, n := receipts[i := receipts[i].(reversed := true)], |receipts| - 1;
    if i < n {
      PaidReversed(receipts[..n], i, doc);
      assert after[..n] == receipts[..n][i := receipts[i].(reversed := true)];
    } else {
      assert after[..n] == receipts[..n];
    }
  }

  // ---- how much is taken --------------------------------------------------------------------

  /** What is due on an invoice: its total, less what was received on it and not reversed, less what was credited. */
  function Due(b: Books, doc: int): int
    requires doc in b.docs
  {
    b.docs[doc].total - Paid(b.receipts, doc) - b.docs[doc].credited
  }

  lemma {:induction false} WithinHalf(due: int, cents: int)
    requires cents == RoundAway(due, CENT)
    ensures -CENT <= 2 * (cents * CENT - due) <= CENT
    ensures due % CENT == 0 ==> cents * CENT == due
    ensures cents > 0 <==> 2 * due >= CENT
  {
    if due % CENT == 0 {
      assert due == due / CENT * CENT;
      if due >= 0 { RoundExact(due / CENT, CENT); } else { RoundExact(-(due / CENT), CENT); }
    }
  }

  /** A debit takes what is due, to within half a cent, and exactly that when it is whole cents. */
  lemma {:induction false} TakesWhatIsDue(b: Books, company: int, doc: int, d: Debit)
    requires Choose(b, company, doc) == Outcome.Done(d)
    ensures doc in b.docs && d.doc == doc && d.cents > 0
    ensures -CENT <= 2 * (d.cents * CENT - Due(b, doc)) <= CENT && (Due(b, doc) % CENT == 0 ==> d.cents * CENT == Due(b, doc))
  {
    WithinHalf(Due(b, doc), d.cents);
  }

  /** So does every debit of a batch. */
  lemma {:induction false} BatchTakesWhatIsDue(b: Books, company: int, docs: seq<int>, d: Debit)
    requires ChooseAll(b, company, docs).Done? && d in ChooseAll(b, company, docs).value
    ensures d.doc in docs && Choose(b, company, d.doc) == Outcome.Done(d)
    ensures d.doc in b.docs && -CENT <= 2 * (d.cents * CENT - Due(b, d.doc)) <= CENT
  {
    var front, doc := docs[..|docs| - 1], docs[|docs| - 1];
    assert docs == front + [doc];
    if d in ChooseAll(b, company, front).value {
      BatchTakesWhatIsDue(b, company, front, d);
    }
    TakesWhatIsDue(b, company, d.doc, d);
  }

  /** An answer books what the debit took on its invoice, or nothing. */
  lemma {:induction false} AnswerLowersDue(b: Books, x: Collection, collected: bool, reason: string, doc: int)
    requires doc in b.docs
    ensures var after := Answered(b, x, collected, reason);
      after.docs == b.docs && Due(after, doc) == Due(b, doc) - if collected && x.doc == doc then x.cents * CENT else 0
  {
    PaidBooked(b.receipts, ReceiptFor(x), doc);
    assert b.receipts + [] == b.receipts;
  }

  /** With nothing else booked since it was chosen, a collected debit settles its invoice: to within half a cent,
      and exactly when whole cents were due. */
  lemma {:induction false} CollectedSettles(b: Books, company: int, doc: int, d: Debit, b': Books, x: Collection, reason: string)
    requires Choose(b, company, doc) == Outcome.Done(d) && x.doc == doc && x.cents == d.cents
    requires doc in b'.docs && Due(b', doc) == Due(b, doc)
    ensures var left := Due(Answered(b', x, true, reason), doc);
      -CENT <= 2 * left <= CENT && (Due(b, doc) % CENT == 0 ==> left == 0)
  {
    TakesWhatIsDue(b, company, doc, d);
    AnswerLowersDue(b', x, true, reason, doc);
  }

  /** Reversing its receipt makes exactly what was taken due again. */
  lemma {:induction false} ReversingReopens(b: Books, x: Collection, reason: string)
    requires x.doc in b.docs
    ensures var after := Answered(b, x, true, reason);
      var i := |b.receipts|;
      && i < |after.receipts|
      && Due(after.(receipts := after.receipts[i := after.receipts[i].(reversed := true)]), x.doc) == Due(b, x.doc)
  {
    var after := Answered(b, x, true, reason);
    AnswerLowersDue(b, x, true, reason, x.doc);
    PaidReversed(after.receipts, |b.receipts|, x.doc);
  }

  // ---- which invoices can be collected ------------------------------------------------------

  /** The euro, however its three letters are written. */
  lemma {:induction false} EuroInAnyCase(s: string)
    ensures IsEuro(s) <==> s in {"EUR", "EUr", "EuR", "Eur", "eUR", "eUr", "euR", "eur"}
  {
    if IsEuro(s) {
      assert s == [s[0], s[1], s[2]];
      assert (s[0] == 'E' || s[0] == 'e') && (s[1] == 'U' || s[1] == 'u') && (s[2] == 'R' || s[2] == 'r');
    }
  }

  /** A final invoice of the company, in euros, with at least half a cent due, a customer with an active mandate,
      and not in a debit that is pending or collected: exactly these are taken. */
  lemma {:induction false} ChosenExactly(b: Books, company: int, doc: int)
    ensures Choose(b, company, doc).Done? <==>
      && doc in b.docs
      && (var i := b.docs[doc];
          && i.company == company && i.status == "FINALIZED" && i.docType in {"TAX_INVOICE", "POS_INVOICE", "DEBIT_NOTE"}
          && IsEuro(i.currency) && IsEuro(i.base) && 2 * Due(b, doc) >= CENT
          && exists m :: 0 <= m < |b.mandates| && b.mandates[m].active && b.mandates[m].party == i.party)
      && forall x :: x in b.rows && x.doc == doc ==> x.status == Rejected
  {
    if doc in b.docs { WithinHalf(Due(b, doc), Outstanding(b, doc)); }
  }

  /** The mandate is the customer's latest active one. */
  lemma {:induction false} LatestIsTaken(mandates: seq<Mandate>, party: int)
    ensures var m := LatestActive(mandates, party);
      m.Some? ==> forall i :: m.value < i < |mandates| ==> !(mandates[i].party == party && mandates[i].active)
  {
    if mandates != [] && !(mandates[|mandates| - 1].party == party && mandates[|mandates| - 1].active) {
      LatestIsTaken(mandates[..|mandates| - 1], party);
    }
  }

  // ---- what is written ----------------------------------------------------------------------

  /** A written entry carries the customer's own mandate and bank account, and names the invoice. */
  lemma {:induction false} EntryCarries(b: Books, company: int, doc: int, d: Debit)
    requires Choose(b, company, doc) == Outcome.Done(d)
    ensures d.mandate < |b.mandates| && doc in b.docs
    ensures var e, m, i := EntryOf(ItemOf(d)), b.mandates[d.mandate], b.docs[doc];
      && m.party == i.party && m.active
      && e.iban == m.iban && e.bic == (if m.bic == "" then "NOTPROVIDED" else m.bic)
      && e.mandateDate == m.signedOn && e.cents == d.cents
      && (IsClean(m.ref, 35) ==> e.mandateRef == m.ref) && (IsClean(m.holder, 70) ==> e.debtor == m.holder)
      && e.e2e == Cleaned("INV-" + i.number, 35) && e.remittance == Cleaned("Invoice " + i.number, 140)
  {
    StoredIsPrinted(b, company, doc, d);
    ChosenTerms(b, company, doc, d);
    TermsAreWritten(d);
  }

  lemma {:induction false} ChosenTerms(b: Books, company: int, doc: int, d: Debit)
    requires Choose(b, company, doc) == Outcome.Done(d)
    ensures d.mandate < |b.mandates| && doc in b.docs && d.terms == b.mandates[d.mandate]
    ensures d.terms.party == b.docs[doc].party && d.terms.active && d.number == b.docs[doc].number && d.e2e == Cleaned("INV-" + d.number, 35)
  {}

  lemma {:induction false} TermsAreWritten(d: Debit)
    ensures var e, m := EntryOf(ItemOf(d)), d.terms;
      && e.iban == m.iban && e.bic == (if m.bic == "" then "NOTPROVIDED" else m.bic) && e.mandateDate == m.signedOn
      && (IsClean(m.ref, 35) ==> e.mandateRef == m.ref) && (IsClean(m.holder, 70) ==> e.debtor == m.holder)
      && e.remittance == Cleaned("Invoice " + d.number, 140)
  {
    CleanIsFixed(d.terms.ref, 35);
    CleanIsFixed(d.terms.holder, 70);
  }

  lemma {:induction false} EntryOfEach(items: seq<Item>, it: Item)
    requires it in items
    ensures EntryOf(it) in Entries(items)
  {
    if it != items[|items| - 1] {
      assert it in items[..|items| - 1];
      EntryOfEach(items[..|items| - 1], it);
    }
  }

  /** And every debit of a batch is written in its file. */
  lemma {:induction false} EveryDebitIsWritten(ds: seq<Debit>, msgId: string, d: Debit)
    requires d in ds && Acceptable(ItemsOf(ds))
    ensures EntryOf(ItemOf(d)) in AllEntries(FileOf(msgId, ItemsOf(ds)).blocks)
  {
    var items := ItemsOf(ds);
    var i :| 0 <= i < |ds| && ds[i] == d;
    assert items[i] == ItemOf(d);
    EntryOfEach(items, ItemOf(d));
    EveryItemWrittenOnce(msgId, items);
    assert EntryOf(ItemOf(d)) in multiset(AllEntries(FileOf(msgId, items).blocks));
  }

  // ---- the weekend --------------------------------------------------------------------------

  /** The third of January 2026 is a Saturday; from there the weekend is every seventh day and the day after. */
  lemma {:induction false} WeekendDays(n: nat)
    ensures IsDate(Date(2026, 1, 3))
    ensures Weekend(DayNumber(AddDays(Date(2026, 1, 3), n))) <==> n % 7 == 0 || n % 7 == 1
  {
    AddDaysCounts(Date(2026, 1, 3), n);
    ThirdOfJanuary();
    SevenDays(DayNumber(Date(2026, 1, 3)), n);
  }

  lemma {:induction false} ThirdOfJanuary()
    ensures IsDate(Date(2026, 1, 3)) && DayNumber(Date(2026, 1, 3)) == 7 * 105_659 + 6
  {}

  lemma {:induction false} SevenDays(day: int, n: nat)
    requires day == 7 * 105_659 + 6
    ensures Weekend(day + n) <==> n % 7 == 0 || n % 7 == 1
  {
    var q, r := n / 7, n % 7;
    assert day + n == 7 * (105_659 + q) + (6 + r);
  }


  /** Sending marks the mandates used in the batch and changes nothing else of any mandate. */
  lemma {:induction false} SendingMarks(b: Books, batch: int, m: nat)
    requires batch in b.batches && m < |b.mandates|
    ensures var after := WithSent(b, batch).mandates;
      && |after| == |b.mandates| && after[m].(first := b.mandates[m].first) == b.mandates[m]
      && (after[m].first <==> b.mandates[m].first || exists x :: x in b.rows && x.batch == batch && x.mandate == m)
  {}

  /** A file takes items with a sequence type, of more than nothing and at most 999999999.99. */
  lemma {:induction false} AcceptedItems(items: seq<Item>)
    ensures Acceptable(items) <==> forall i :: 0 <= i < |items| ==> items[i].seqType in {FRST, RCUR} && 0 < items[i].amount <= 9_999_999_999_900_000_000
  {
    forall it | it in items
      ensures it.seqType in {FRST, RCUR} <==> HasType(it)
    {}
  }
}
