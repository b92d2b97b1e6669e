/** Ledgers rebuilt from sales and payments (apps/mobile/src/lib/receivables.ts). */
module Receivables {
  // And what recording a payment does to them (apps/mobile/src/lib/sale.ts, screens/Dues.tsx, db/repo.ts).

  import opened Wrappers
  import opened Decimals
  import opened Sorting
  import opened Ledger

  datatype PayState = Waiting | Syncing | Synced | Failed | Void

  /** A payment row; one without a sale and without a server document is customer credit. */
  datatype Payment = Payment(party: int, sale: Option<int>, serverDoc: Option<int>, amount: string, reversed: bool, state: PayState)

  /** A sale row: serverTotal is the figure the server booked, if any; issued is the total of the stored invoice;
      settled marks old sales that were entered as paid in full. */
  datatype Sale = Sale(id: int, party: int, number: string, createdAt: int, serverTotal: string, issued: int, settled: bool, dueAt: Option<int>, cancelled: bool)

  datatype CustomerLedger = CustomerLedger(party: int, invoices: seq<LedgerInvoice>, credit: int, balance: Balance, lastBilledAt: int)

  predicate IsLive(p: Payment) { !p.reversed && p.state != Void }

  predicate IsLoose(p: Payment) { p.sale.None? && p.serverDoc.None? }

  function SaleTotal(s: Sale): int { if s.serverTotal != "" then ParseMinor(s.serverTotal) else s.issued }

  // ---- what a ledger is ---------------------------------------------------------------------

  function ForSale(payments: seq<Payment>, sale: int): seq<Payment> {
    if payments == [] then [] else
    var p, front := payments[|payments| - 1], ForSale(payments[..|payments| - 1], sale);
    if p.sale == Some(sale) then front + [p] else front
  }

  function LooseOf(payments: seq<Payment>, party: int): seq<Payment> {
    if payments == [] then [] else
    var p, front := payments[|payments| - 1], LooseOf(payments[..|payments| - 1], party);
    if IsLoose(p) && p.party == party then front + [p] else front
  }

  function LiveSum(payments: seq<Payment>): nat {
    if payments == [] then 0 else
    var p := payments[|payments| - 1];
    LiveSum(payments[..|payments| - 1]) + if IsLive(p) then ParseMinor(p.amount) else 0
  }

  function PaidFor(s: Sale, ps: seq<Payment>): int { if ps == [] && s.settled then SaleTotal(s) else LiveSum(ps) }

  function InvoiceFor(s: Sale, ps: seq<Payment>): LedgerInvoice {
    LedgerInvoice(s.id, s.number, s.createdAt, SaleTotal(s), PaidFor(s, ps), s.dueAt, s.cancelled)
  }

  function InvoicesOf(sales: seq<Sale>, payments: seq<Payment>, party: int): seq<LedgerInvoice> {
    if sales == [] then [] else
    var s, front := sales[|sales| - 1], InvoicesOf(sales[..|sales| - 1], payments, party);
    if s.party == party then front + [InvoiceFor(s, ForSale(payments, s.id))] else front
  }

  function Later(a: int, b: int): int { if a > b then a else b }

  function LastBilled(sales: seq<Sale>, party: int): int {
    if sales == [] then 0 else
    var s := sales[|sales| - 1];
    if s.party == party then Later(LastBilled(sales[..|sales| - 1], party), s.createdAt) else LastBilled(sales[..|sales| - 1], party)
  }

  function CreditOf(payments: seq<Payment>, party: int): nat { LiveSum(LooseOf(payments, party)) }

  function LedgerOf(sales: seq<Sale>, payments: seq<Payment>, party: int, now: int): CustomerLedger {
    var invoices := InvoicesOf(sales, payments, party);
    CustomerLedger(party, invoices, CreditOf(payments, party), BalanceOf(invoices, CreditOf(payments, party), now), LastBilled(sales, party))
  }

  // ---- building them ------------------------------------------------------------------------

  /** The customers in the order of their first sale. */
  function Customers(sales: seq<Sale>): seq<int> {
    if sales == [] then [] else
    var front, party := Customers(sales[..|sales| - 1]), sales[|sales| - 1].party;
    if party in front then front else front + [party]
  }

  lemma {:induction false} CustomersMore(sales: seq<Sale>, s: Sale)
    ensures Customers(sales + [s]) == if s.party in Customers(sales) then Customers(sales) else Customers(sales) + [s.party]
  {
    assert (sales + [s])[..|sales|] == sales;
  }

  const NO_BALANCE := Balance(0, 0, 0, 0)

  /** A map of lists grouped by key, compared with the list each key should have. */
  predicate Groups(m: map<int, seq<Payment>>, id: int, ps: seq<Payment>) { (id in m <==> ps != []) && (id in m ==> m[id] == ps) }

  function Added(m: map<int, seq<Payment>>, id: int, p: Payment): map<int, seq<Payment>> { m[id := (if id in m then m[id] else []) + [p]] }

  function At(m: map<int, seq<Payment>>, id: int): seq<Payment> { if id in m then m[id] else [] }

  ghost predicate GroupedBySale(m: map<int, seq<Payment>>, payments: seq<Payment>) { forall id :: Groups(m, id, ForSale(payments, id)) }

  ghost predicate GroupedByParty(m: map<int, seq<Payment>>, payments: seq<Payment>) { forall id :: Groups(m, id, LooseOf(payments, id)) }

  lemma {:induction false} OnePaymentMore(bySale: map<int, seq<Payment>>, loose: map<int, seq<Payment>>, payments: seq<Payment>, p: Payment)
    requires GroupedBySale(bySale, payments) && GroupedByParty(loose, payments)
    ensures GroupedBySale(if p.sale.Some? then Added(bySale, p.sale.value, p) else bySale, payments + [p])
    ensures GroupedByParty(if IsLoose(p) then Added(loose, p.party, p) else loose, payments + [p])
  {
    forall id
      ensures Groups(if p.sale.Some? then Added(bySale, p.sale.value, p) else bySale, id, ForSale(payments + [p], id))
      ensures Groups(if IsLoose(p) then Added(loose, p.party, p) else loose, id, LooseOf(payments + [p], id))
    {
      assert Groups(bySale, id, ForSale(payments, id)) && Groups(loose, id, LooseOf(payments, id));
      PaymentMore(payments, p, id);
    }
  }

  method GroupPayments(payments: seq<Payment>) returns (bySale: map<int, seq<Payment>>, loose: map<int, seq<Payment>>, givers: seq<int>)
    ensures GroupedBySale(bySale, payments) && GroupedByParty(loose, payments)
    ensures forall id :: id in givers <==> id in loose
  {
    bySale, loose, givers := map[], map[], [];
    for k := 0 to |payments|
      invariant forall id :: id in givers <==> id in loose
      invariant GroupedBySale(bySale, payments[..k]) && GroupedByParty(loose, payments[..k])
    {
      var p := payments[k];
      assert payments[..k + 1] == payments[..k] + [p];
      OnePaymentMore(bySale, loose, payments[..k], p);
      if p.sale.Some? {
        bySale := Added(bySale, p.sale.value, p);
      } else if p.serverDoc.None? {
        givers := if p.party in loose then givers else givers + [p.party];
        loose := Added(loose, p.party, p);
      }
    }
    assert payments[..|payments|] == payments;
  }

  /** The ledger of a party after the sales were read, before its credit and balance are filled in. */
  predicate Billed(parties: map<int, CustomerLedger>, party: int, sales: seq<Sale>, payments: seq<Payment>) {
    var invoices := InvoicesOf(sales, payments, party);
    && (party in parties <==> invoices != [])
    && (party in parties ==> parties[party] == CustomerLedger(party, invoices, 0, NO_BALANCE, LastBilled(sales, party)))
  }

  ghost predicate AllBilled(parties: map<int, CustomerLedger>, sales: seq<Sale>, payments: seq<Payment>) {
    forall party :: Billed(parties, party, sales, payments)
  }

  lemma {:induction false} OneSaleMore(parties: map<int, CustomerLedger>, sales: seq<Sale>, payments: seq<Payment>, s: Sale)
    requires AllBilled(parties, sales, payments)
    ensures var cur := if s.party in parties then parties[s.party] else CustomerLedger(s.party, [], 0, NO_BALANCE, 0);
      AllBilled(parties[s.party := cur.(invoices := cur.invoices + [InvoiceFor(s, ForSale(payments, s.id))], lastBilledAt := Later(cur.lastBilledAt, s.createdAt))], sales + [s], payments)
  {
    var cur := if s.party in parties then parties[s.party] else CustomerLedger(s.party, [], 0, NO_BALANCE, 0);
    var more := parties[s.party := cur.(invoices := cur.invoices + [InvoiceFor(s, ForSale(payments, s.id))], lastBilledAt := Later(cur.lastBilledAt, s.createdAt))];
    assert (sales + [s])[..|sales|] == sales;
    forall party
      ensures Billed(more, party, sales + [s], payments)
    {
      assert Billed(parties, party, sales, payments);
      if party !in parties { NoneBilledYet(sales, payments, party); }
    }
  }

  method ReadSales(sales: seq<Sale>, ghost payments: seq<Payment>, bySale: map<int, seq<Payment>>) returns (parties: map<int, CustomerLedger>, order: seq<int>)
    requires GroupedBySale(bySale, payments)
    ensures AllBilled(parties, sales, payments)
    ensures order == Customers(sales) && forall party :: party in order <==> party in parties
  {
    parties, order := map[], [];
    for k := 0 to |sales|
      invariant order == Customers(sales[..k]) && forall party :: party in order <==> party in parties
      invariant AllBilled(parties, sales[..k], payments)
    {
      var s := sales[k];
      assert sales[..k + 1] == sales[..k] + [s];
      OneSaleMore(parties, sales[..k], payments, s);
      var ps := At(bySale, s.id);
      assert Groups(bySale, s.id, ForSale(payments, s.id));
      var inv := InvoiceFor(s, ps);
      var cur := if s.party in parties then parties[s.party] else CustomerLedger(s.party, [], 0, NO_BALANCE, 0);
      CustomersMore(sales[..k], s);
      order := if s.party in parties then order else order + [s.party];
      parties := parties[s.party := cur.(invoices := cur.invoices + [inv], lastBilledAt := Later(cur.lastBilledAt, s.createdAt))];
    }
    assert sales[..|sales|] == sales;
  }

  lemma {:induction false} NoneBilledYet(sales: seq<Sale>, payments: seq<Payment>, party: int)
    requires InvoicesOf(sales, payments, party) == []
    ensures LastBilled(sales, party) == 0
  {
    if sales != [] { NoneBilledYet(sales[..|sales| - 1], payments, party); }
  }

  lemma {:induction false} CustomersDistinct(sales: seq<Sale>, payments: seq<Payment>)
    ensures Distinct(Customers(sales))
    ensures forall party :: party in Customers(sales) <==> InvoicesOf(sales, payments, party) != []
  {
    if sales != [] { CustomersDistinct(sales[..|sales| - 1], payments); }
  }

  /** buildLedgers: one entry for every customer with a sale, in the order of their first sales, and it is that customer's ledger. */
  method BuildLedgers(sales: seq<Sale>, payments: seq<Payment>, now: int) returns (ledgers: seq<CustomerLedger>)
    ensures |ledgers| == |Customers(sales)|
    ensures forall i :: 0 <= i < |ledgers| ==> ledgers[i] == LedgerOf(sales, payments, Customers(sales)[i], now)
  {
    var bySale, loose, givers := GroupPayments(payments);
    var billed, order := ReadSales(sales, payments, bySale);
    var parties := FillCredit(sales, payments, billed, loose, givers);
    ledgers := FillBalances(sales, payments, parties, order, now);
  }

  /** The last loop: the balances. */
  method FillBalances(ghost sales: seq<Sale>, ghost payments: seq<Payment>, parties: map<int, CustomerLedger>, order: seq<int>, now: int)
    returns (ledgers: seq<CustomerLedger>)
    requires AllCredited(parties, sales, payments) && order == Customers(sales)
    ensures |ledgers| == |order| && forall i :: 0 <= i < |ledgers| ==> ledgers[i] == LedgerOf(sales, payments, order[i], now)
  {
    CustomersDistinct(sales, payments);
    ledgers := [];
    for k := 0 to |order|
      invariant |ledgers| == k && forall i :: 0 <= i < k ==> ledgers[i] == LedgerOf(sales, payments, order[i], now)
    {
      assert order[k] in order && Credited(parties, order[k], sales, payments);
      var l := parties[order[k]];
      var balance := CustomerBalance(l.invoices, l.credit, now);
      ledgers := ledgers + [l.(balance := balance)];
    }
  }

  /** The ledger before its balance is filled in. */
  predicate Credited(parties: map<int, CustomerLedger>, party: int, sales: seq<Sale>, payments: seq<Payment>) {
    var invoices := InvoicesOf(sales, payments, party);
    && (party in parties <==> invoices != [])
    && (party in parties ==> parties[party] == CustomerLedger(party, invoices, CreditOf(payments, party), NO_BALANCE, LastBilled(sales, party)))
  }

  ghost predicate AllCredited(parties: map<int, CustomerLedger>, sales: seq<Sale>, payments: seq<Payment>) {
    forall party :: Credited(parties, party, sales, payments)
  }

  method FillCredit(ghost sales: seq<Sale>, ghost payments: seq<Payment>, billed: map<int, CustomerLedger>, loose: map<int, seq<Payment>>, givers: seq<int>)
    returns (parties: map<int, CustomerLedger>)
    requires AllBilled(billed, sales, payments) && GroupedByParty(loose, payments)
    requires forall id :: id in givers <==> id in loose
    ensures AllCredited(parties, sales, payments)
  {
    parties := billed;
    assert forall party :: party in billed ==> Billed(billed, party, sales, payments);
    for k := 0 to |givers|
      invariant parties.Keys == billed.Keys
      invariant forall party :: party in parties ==>
        parties[party] == billed[party].(credit := if party in givers[..k] then LiveSum(loose[party]) else 0)
    {
      var party := givers[k];
      assert party in givers;
      if party in parties {
        parties := parties[party := parties[party].(credit := LiveSum(loose[party]))];
      }
    }
    assert givers[..|givers|] == givers;
    forall party
      ensures Credited(parties, party, sales, payments)
    {
      assert Billed(billed, party, sales, payments) && Groups(loose, party, LooseOf(payments, party));
    }
  }

  // ---- recording a payment ------------------------------------------------------------------

  function RowFor(a: Allocation, party: int): Payment { Payment(party, Some(a.invoice), None, MinorToString(a.amount), false, Waiting) }

  /** The rows written for a shared payment: one per invoice served, and one for what is left. */
  function RowsFor(allocations: seq<Allocation>, party: int): seq<Payment> {
    if allocations == [] then [] else
    RowsFor(allocations[..|allocations| - 1], party) + [RowFor(allocations[|allocations| - 1], party)]
  }

  function Recorded(payments: seq<Payment>, shared: Shared, party: int): seq<Payment> {
    payments + RowsFor(shared.allocations, party) + if shared.credit > 0 then [Payment(party, None, None, MinorToString(shared.credit), false, Waiting)] else []
  }

  ghost predicate SaleIds(sales: seq<Sale>) { forall i, j :: 0 <= i < j < |sales| ==> sales[i].id != sales[j].id }

  predicate Positive(allocations: seq<Allocation>) { forall a :: a in allocations ==> a.amount > 0 }

  lemma {:induction false} PaymentMore(payments: seq<Payment>, p: Payment, id: int)
    ensures ForSale(payments + [p], id) == if p.sale == Some(id) then ForSale(payments, id) + [p] else ForSale(payments, id)
    ensures LooseOf(payments + [p], id) == if IsLoose(p) && p.party == id then LooseOf(payments, id) + [p] else LooseOf(payments, id)
    ensures LiveSum(payments + [p]) == LiveSum(payments) + if IsLive(p) then ParseMinor(p.amount) else 0
  {
    assert (payments + [p])[..|payments|] == payments;
  }

  lemma {:induction false} RowMore(payments: seq<Payment>, front: seq<Allocation>, a: Allocation, party: int)
    ensures payments + RowsFor(front + [a], party) == payments + RowsFor(front, party) + [RowFor(a, party)]
  {
    assert (front + [a])[..|front|] == front;
  }

  lemma {:induction false} OneRow(rows: seq<Payment>, a: Allocation, party: int, id: int)
    requires a.amount > 0
    ensures var after := rows + [RowFor(a, party)];
      && LiveSum(ForSale(after, id)) == LiveSum(ForSale(rows, id)) + (if a.invoice == id then a.amount else 0)
      && LooseOf(after, id) == LooseOf(rows, id)
      && (ForSale(after, id) == [] <==> ForSale(rows, id) == [] && a.invoice != id)
  {
    PaymentMore(rows, RowFor(a, party), id);
    PaymentMore(ForSale(rows, id), RowFor(a, party), id);
    MinorRoundTrip(a.amount);
  }

  /** The rows for the invoices add to each sale what it was given, read back from the strings. */
  lemma {:induction false} RowsAddShares(payments: seq<Payment>, allocations: seq<Allocation>, party: int, id: int)
    requires Positive(allocations)
    ensures var after := payments + RowsFor(allocations, party);
      && LiveSum(ForSale(after, id)) == LiveSum(ForSale(payments, id)) + Share(allocations, id)
      && LooseOf(after, id) == LooseOf(payments, id)
      && (ForSale(after, id) == [] <==> ForSale(payments, id) == [] && forall a :: a in allocations ==> a.invoice != id)
  {
    if allocations == [] {
      assert payments + RowsFor(allocations, party) == payments;
    } else {
      var front, a := allocations[..|allocations| - 1], allocations[|allocations| - 1];
      assert allocations == front + [a] && a in allocations;
      RowsAddShares(payments, front, party, id);
      RowMore(payments, front, a, party);
      OneRow(payments + RowsFor(front, party), a, party, id);
    }
  }

  /** All the rows: each sale gets its share and the customer the credit. */
  lemma {:induction false} RecordedAdds(payments: seq<Payment>, shared: Shared, party: int, id: int)
    requires Positive(shared.allocations) && shared.credit >= 0
    ensures var after := Recorded(payments, shared, party);
      && LiveSum(ForSale(after, id)) == LiveSum(ForSale(payments, id)) + Share(shared.allocations, id)
      && CreditOf(after, id) == CreditOf(payments, id) + (if id == party then shared.credit else 0)
      && (ForSale(after, id) == [] <==> ForSale(payments, id) == [] && forall a :: a in shared.allocations ==> a.invoice != id)
  {
    var rows := payments + RowsFor(shared.allocations, party);
    RowsAddShares(payments, shared.allocations, party, id);
    if shared.credit > 0 {
      var p := Payment(party, None, None, MinorToString(shared.credit), false, Waiting);
      PaymentMore(rows, p, id);
      PaymentMore(LooseOf(rows, id), p, id);
      MinorRoundTrip(shared.credit);
    } else {
      assert rows + [] == rows;
    }
  }

  /** A sale settled from the start, without payment rows, owes nothing and so is given nothing. */
  predicate SettledUntouched(s: Sale, payments: seq<Payment>, allocations: seq<Allocation>) {
    s.settled && ForSale(payments, s.id) == [] ==> forall a :: a in allocations ==> a.invoice != s.id
  }

  lemma {:induction false} NoShare(allocations: seq<Allocation>, id: int)
    requires forall a :: a in allocations ==> a.invoice != id
    ensures Share(allocations, id) == 0
  {
    if allocations != [] {
      assert allocations[|allocations| - 1] in allocations;
      NoShare(allocations[..|allocations| - 1], id);
    }
  }

  lemma {:induction false} InvoiceAfter(s: Sale, payments: seq<Payment>, shared: Shared, party: int)
    requires Positive(shared.allocations) && shared.credit >= 0 && SettledUntouched(s, payments, shared.allocations)
    ensures InvoiceFor(s, ForSale(Recorded(payments, shared, party), s.id)) == PaidMore(InvoiceFor(s, ForSale(payments, s.id)), shared.allocations)
  {
    RecordedAdds(payments, shared, party, s.id);
    if s.settled && ForSale(payments, s.id) == [] { NoShare(shared.allocations, s.id); }
  }

  lemma {:induction false} PaidMoreLast(invoices: seq<LedgerInvoice>, i: LedgerInvoice, allocations: seq<Allocation>)
    ensures AllPaidMore(invoices + [i], allocations) == AllPaidMore(invoices, allocations) + [PaidMore(i, allocations)]
  {
    assert (invoices + [i])[..|invoices|] == invoices;
  }

  /** Rebuilding gives the same invoices, with what each was given added to what was paid. */
  lemma {:induction false} InvoicesAfter(sales: seq<Sale>, payments: seq<Payment>, after: seq<Payment>, shared: Shared, party: int, q: int)
    requires Positive(shared.allocations) && shared.credit >= 0 && after == Recorded(payments, shared, party)
    requires forall s :: s in sales ==> SettledUntouched(s, payments, shared.allocations)
    ensures InvoicesOf(sales, after, q) == AllPaidMore(InvoicesOf(sales, payments, q), shared.allocations)
  {
    if sales != [] {
      var front, s := sales[..|sales| - 1], sales[|sales| - 1];
      assert s in sales;
      InvoicesAfter(front, payments, after, shared, party, q);
      InvoiceAfter(s, payments, shared, party);
      PaidMoreLast(InvoicesOf(front, payments, q), InvoiceFor(s, ForSale(payments, s.id)), shared.allocations);
    }
  }

  lemma {:induction false} InvoiceOrigin(sales: seq<Sale>, payments: seq<Payment>, party: int)
    ensures forall i :: i in InvoicesOf(sales, payments, party) ==> exists s :: s in sales && s.party == party && i == InvoiceFor(s, ForSale(payments, s.id))
  {
    if sales != [] {
      InvoiceOrigin(sales[..|sales| - 1], payments, party);
      assert sales[|sales| - 1] in sales;
    }
  }

  lemma {:induction false} DistinctMore(invoices: seq<LedgerInvoice>, i: LedgerInvoice)
    requires DistinctIds(invoices)
    ensures (forall x :: x in invoices ==> x.id != i.id) ==> DistinctIds(invoices + [i])
  {}

  lemma {:induction false} InvoicesDistinct(sales: seq<Sale>, payments: seq<Payment>, party: int)
    requires SaleIds(sales)
    ensures DistinctIds(InvoicesOf(sales, payments, party))
  {
    if sales != [] {
      var front, s := sales[..|sales| - 1], sales[|sales| - 1];
      InvoicesDistinct(front, payments, party);
      InvoiceOrigin(front, payments, party);
      assert forall x :: x in front ==> x.id != s.id;
      DistinctMore(InvoicesOf(front, payments, party), InvoiceFor(s, ForSale(payments, s.id)));
    }
  }

  // ---- the conservation law -----------------------------------------------------------------

  /** The invoices a payment may go to: some of the customer's own. */
  ghost predicate PoolOf(pool: seq<LedgerInvoice>, invoices: seq<LedgerInvoice>) { DistinctIds(pool) && forall i :: i in pool ==> i in invoices }

  lemma {:induction false} AllocationsArePositive(amount: nat, served: seq<LedgerInvoice>)
    requires forall i :: i in served ==> DueOf(i) > 0
    ensures Positive(Allocations(amount, served))
  {
    if served != [] {
      AllocationsArePositive(amount, served[..|served| - 1]);
      MoneyIsShared(amount, served[..|served| - 1]);
    }
  }

  lemma {:induction false} AllocationsReachPool(amount: nat, pool: seq<LedgerInvoice>, notAfter: (string, string) -> bool)
    requires DistinctIds(pool)
    ensures var r := SharedOldestFirst(amount, pool, notAfter);
      Positive(r.allocations) && r.credit >= 0 && forall a :: a in r.allocations ==> exists i :: i in pool && DueOf(i) > 0 && i.id == a.invoice
  {
    var served := OldestFirst(pool, notAfter);
    ServedAre(pool, notAfter);
    AllocationsArePositive(amount, served);
    AllocatedToServed(amount, served);
    MoneyIsShared(amount, served);
  }

  /** A share is within what is due also for the invoices that were not in the pool: they get nothing. */
  lemma {:induction false} ShareWithinDue(amount: nat, pool: seq<LedgerInvoice>, invoices: seq<LedgerInvoice>, notAfter: (string, string) -> bool, i: LedgerInvoice)
    requires DistinctIds(invoices) && PoolOf(pool, invoices) && i in invoices
    ensures 0 <= Share(SharedOldestFirst(amount, pool, notAfter).allocations, i.id) <= DueOf(i)
  {
    if i in pool {
      NeverPastDue(amount, pool, notAfter, i);
    } else {
      AllocationsReachPool(amount, pool, notAfter);
      NoShare(SharedOldestFirst(amount, pool, notAfter).allocations, i.id);
    }
  }

  lemma {:induction false} SettledAreUntouched(sales: seq<Sale>, payments: seq<Payment>, party: int, allocations: seq<Allocation>)
    requires SaleIds(sales)
    requires forall a :: a in allocations ==> exists i :: i in InvoicesOf(sales, payments, party) && DueOf(i) > 0 && i.id == a.invoice
    ensures forall s :: s in sales ==> SettledUntouched(s, payments, allocations)
  {
    InvoiceOrigin(sales, payments, party);
    forall s, a | s in sales && s.settled && ForSale(payments, s.id) == [] && a in allocations
      ensures a.invoice != s.id
    {
      var i :| i in InvoicesOf(sales, payments, party) && DueOf(i) > 0 && i.id == a.invoice;
      var t :| t in sales && t.party == party && i == InvoiceFor(t, ForSale(payments, t.id));
    }
  }

  /** Someone else's invoices get nothing. */
  lemma {:induction false} OthersGetNothing(sales: seq<Sale>, payments: seq<Payment>, party: int, q: int, allocations: seq<Allocation>)
    requires SaleIds(sales) && q != party
    requires forall a :: a in allocations ==> exists i :: i in InvoicesOf(sales, payments, party) && DueOf(i) > 0 && i.id == a.invoice
    ensures forall i :: i in InvoicesOf(sales, payments, q) ==> Share(allocations, i.id) == 0
  {
    InvoiceOrigin(sales, payments, party);
    InvoiceOrigin(sales, payments, q);
    forall i | i in InvoicesOf(sales, payments, q)
      ensures Share(allocations, i.id) == 0
    {
      NoShare(allocations, i.id);
    }
  }

  lemma {:induction false} PaidNothingMore(invoices: seq<LedgerInvoice>, allocations: seq<Allocation>)
    requires forall i :: i in invoices ==> Share(allocations, i.id) == 0
    ensures AllPaidMore(invoices, allocations) == invoices
  {
    if invoices != [] {
      assert invoices[|invoices| - 1] in invoices;
      PaidNothingMore(invoices[..|invoices| - 1], allocations);
      assert invoices == invoices[..|invoices| - 1] + [invoices[|invoices| - 1]];
    }
  }

  /** After a payment the rebuilt ledger has the same invoices with their shares paid, and the credit in addition. */
  lemma {:induction false} LedgerAfterPayment(sales: seq<Sale>, payments: seq<Payment>, party: int, pool: seq<LedgerInvoice>, amount: nat, notAfter: (string, string) -> bool, now: int)
    requires SaleIds(sales) && PoolOf(pool, InvoicesOf(sales, payments, party))
    ensures var shared := SharedOldestFirst(amount, pool, notAfter);
      var l, l' := LedgerOf(sales, payments, party, now), LedgerOf(sales, Recorded(payments, shared, party), party, now);
      l'.invoices == AllPaidMore(l.invoices, shared.allocations) && l'.credit == l.credit + shared.credit
  {
    var shared := SharedOldestFirst(amount, pool, notAfter);
    AllocationsReachPool(amount, pool, notAfter);
    SettledAreUntouched(sales, payments, party, shared.allocations);
    InvoicesAfter(sales, payments, Recorded(payments, shared, party), shared, party, party);
    RecordedAdds(payments, shared, party, party);
  }

  /** Recording a payment lowers what the customer owes, less the credit, by exactly the amount. */
  lemma {:induction false} PaymentLowersBalance(sales: seq<Sale>, payments: seq<Payment>, party: int, pool: seq<LedgerInvoice>, amount: nat, notAfter: (string, string) -> bool, now: int)
    requires SaleIds(sales) && PoolOf(pool, InvoicesOf(sales, payments, party))
    ensures var after := Recorded(payments, SharedOldestFirst(amount, pool, notAfter), party);
      var b, b' := LedgerOf(sales, payments, party, now).balance, LedgerOf(sales, after, party, now).balance;
      b'.owed - b'.credit == b.owed - b.credit - amount
  {
    var shared := SharedOldestFirst(amount, pool, notAfter);
    var l, l' := LedgerOf(sales, payments, party, now), LedgerOf(sales, Recorded(payments, shared, party), party, now);
    InvoicesDistinct(sales, payments, party);
    LedgerAfterPayment(sales, payments, party, pool, amount, notAfter, now);
    DebtGoesDown(l.invoices, pool, amount, notAfter);
    BalanceIsSound(l.invoices, l.credit, now);
    BalanceIsSound(l'.invoices, l'.credit, now);
  }

  lemma {:induction false} DebtGoesDown(invoices: seq<LedgerInvoice>, pool: seq<LedgerInvoice>, amount: nat, notAfter: (string, string) -> bool)
    requires DistinctIds(invoices) && PoolOf(pool, invoices)
    ensures var shared := SharedOldestFirst(amount, pool, notAfter);
      SumDue(AllPaidMore(invoices, shared.allocations)) == SumDue(invoices) - (amount - shared.credit)
  {
    var shared := SharedOldestFirst(amount, pool, notAfter);
    forall i | i in invoices
      ensures 0 <= Share(shared.allocations, i.id) <= DueOf(i)
    {
      ShareWithinDue(amount, pool, invoices, notAfter, i);
    }
    DueAfterwards(invoices, shared.allocations);
    AllocationsReachPool(amount, pool, notAfter);
    SharesAddUp(invoices, shared.allocations);
    NothingIsLost(amount, pool, notAfter);
  }

  /** Nobody else's ledger changes. */
  lemma {:induction false} OthersUnchanged(sales: seq<Sale>, payments: seq<Payment>, party: int, q: int, pool: seq<LedgerInvoice>, amount: nat, notAfter: (string, string) -> bool, now: int)
    requires SaleIds(sales) && PoolOf(pool, InvoicesOf(sales, payments, party)) && q != party
    ensures LedgerOf(sales, Recorded(payments, SharedOldestFirst(amount, pool, notAfter), party), q, now) == LedgerOf(sales, payments, q, now)
  {
    var shared := SharedOldestFirst(amount, pool, notAfter);
    AllocationsReachPool(amount, pool, notAfter);
    SettledAreUntouched(sales, payments, party, shared.allocations);
    InvoicesAfter(sales, payments, Recorded(payments, shared, party), shared, party, q);
    RecordedAdds(payments, shared, party, q);
    OthersGetNothing(sales, payments, party, q, shared.allocations);
    PaidNothingMore(InvoicesOf(sales, payments, q), shared.allocations);
  }

  /** Credit is added only when none of the invoices the payment could go to owes anything any more. */
  lemma {:induction false} CreditOnlyWhenAllPaid(sales: seq<Sale>, payments: seq<Payment>, party: int, pool: seq<LedgerInvoice>, amount: nat, notAfter: (string, string) -> bool, now: int, i: LedgerInvoice)
    requires SaleIds(sales) && PoolOf(pool, InvoicesOf(sales, payments, party)) && i in pool
    ensures var shared := SharedOldestFirst(amount, pool, notAfter);
      var l, l' := LedgerOf(sales, payments, party, now), LedgerOf(sales, Recorded(payments, shared, party), party, now);
      l'.credit > l.credit ==> DueOf(PaidMore(i, shared.allocations)) == 0
  {
    LedgerAfterPayment(sales, payments, party, pool, amount, notAfter, now);
    NeverPastDue(amount, pool, notAfter, i);
  }

  // ---- oldest first, after rebuilding -------------------------------------------------------

  lemma {:induction false} PaidMoreAt(invoices: seq<LedgerInvoice>, allocations: seq<Allocation>, k: nat)
    requires k < |invoices|
    ensures |AllPaidMore(invoices, allocations)| == |invoices| && AllPaidMore(invoices, allocations)[k] == PaidMore(invoices[k], allocations)
  {
    if k < |invoices| - 1 {
      PaidMoreAt(invoices[..|invoices| - 1], allocations, k);
    } else if k > 0 {
      PaidMoreAt(invoices[..|invoices| - 1], allocations, k - 1);
    }
  }

  /** In the rebuilt ledger too: where a payment has reached an invoice, every older one it could go to is settled. */
  lemma {:induction false} OlderIsSettledFirst(sales: seq<Sale>, payments: seq<Payment>, party: int, pool: seq<LedgerInvoice>, amount: nat, notAfter: (string, string) -> bool, now: int, a: nat, b: nat)
    requires SaleIds(sales) && PoolOf(pool, InvoicesOf(sales, payments, party)) && TotalPreorder(notAfter)
    requires var l := LedgerOf(sales, payments, party, now).invoices;
      && a < |l| && b < |l| && l[a] in pool && l[b] in pool
      && (l[a].issuedAt < l[b].issuedAt || (l[a].issuedAt == l[b].issuedAt && !notAfter(l[b].number, l[a].number)))
    ensures var l := LedgerOf(sales, payments, party, now).invoices;
      var l' := LedgerOf(sales, Recorded(payments, SharedOldestFirst(amount, pool, notAfter), party), party, now).invoices;
      |l'| == |l| && (l'[b].paid > l[b].paid ==> DueOf(l'[a]) == 0)
  {
    LedgerAfterPayment(sales, payments, party, pool, amount, notAfter, now);
    SettledInOrder(LedgerOf(sales, payments, party, now).invoices, pool, amount, notAfter, a, b);
  }

  lemma {:induction false} SettledInOrder(l: seq<LedgerInvoice>, pool: seq<LedgerInvoice>, amount: nat, notAfter: (string, string) -> bool, a: nat, b: nat)
    requires DistinctIds(pool) && TotalPreorder(notAfter) && a < |l| && b < |l| && l[a] in pool && l[b] in pool
    requires l[a].issuedAt < l[b].issuedAt || (l[a].issuedAt == l[b].issuedAt && !notAfter(l[b].number, l[a].number))
    ensures var l' := AllPaidMore(l, SharedOldestFirst(amount, pool, notAfter).allocations);
      |l'| == |l| && (l'[b].paid > l[b].paid ==> DueOf(l'[a]) == 0)
  {
    var allocations := SharedOldestFirst(amount, pool, notAfter).allocations;
    PaidMoreAt(l, allocations, a);
    PaidMoreAt(l, allocations, b);
    OlderFillsFirst(amount, pool, notAfter, l[a], l[b]);
    FilledOwesNothing(l[a], l[b], allocations);
  }

  lemma {:induction false} FilledOwesNothing(i: LedgerInvoice, j: LedgerInvoice, allocations: seq<Allocation>)
    requires Share(allocations, j.id) > 0 ==> Share(allocations, i.id) == DueOf(i)
    ensures PaidMore(j, allocations).paid > j.paid ==> DueOf(PaidMore(i, allocations)) == 0
  {}

  // ---- what an invoice of the ledger shows --------------------------------------------------

  /** A sale appears in its own customer's ledger, once, with its number, dates, total and what was received on it and not
      taken back: a sale settled in full on the spot counts as paid while it has no payments of its own. */
  lemma {:induction false} SaleIsShown(sales: seq<Sale>, payments: seq<Payment>, k: nat, now: int)
    requires k < |sales|
    ensures exists i :: i in LedgerOf(sales, payments, sales[k].party, now).invoices && Shows(i, sales[k], payments)
  {
    var s := sales[k];
    ShownAt(sales, payments, k);
    NoPayments(payments, s.id);
    assert Shows(InvoiceFor(s, ForSale(payments, s.id)), s, payments);
  }

  predicate Shows(i: LedgerInvoice, s: Sale, payments: seq<Payment>) {
    && i.id == s.id && i.number == s.number && i.issuedAt == s.createdAt && i.dueAt == s.dueAt && i.cancelled == s.cancelled
    && i.total == (if s.serverTotal == "" then s.issued else ParseMinor(s.serverTotal))
    && i.paid == (if s.settled && (forall p :: p in payments ==> p.sale != Some(s.id)) then i.total else LiveSum(ForSale(payments, s.id)))
  }

  lemma {:induction false} ShownAt(sales: seq<Sale>, payments: seq<Payment>, k: nat)
    requires k < |sales|
    ensures InvoiceFor(sales[k], ForSale(payments, sales[k].id)) in InvoicesOf(sales, payments, sales[k].party)
  {
    if k < |sales| - 1 { ShownAt(sales[..|sales| - 1], payments, k); }
  }

  lemma {:induction false} NoPayments(payments: seq<Payment>, sale: int)
    ensures ForSale(payments, sale) == [] <==> forall p :: p in payments ==> p.sale != Some(sale)
  {
    if payments != [] {
      var front, last := payments[..|payments| - 1], payments[|payments| - 1];
      NoPayments(front, sale);
      assert forall p :: p in payments <==> p in front || p == last;
    }
  }

  // ---- a payment taken back -----------------------------------------------------------------

  /** The payment as it stands after it was reversed, or voided. */
  predicate TakenBack(p: Payment, p': Payment) { p'.reversed && p' == p.(reversed := true, state := p'.state) }

  lemma {:induction false} LiveOfMore(payments: seq<Payment>, p: Payment, sale: int, party: int)
    ensures LiveSum(ForSale(payments + [p], sale)) == LiveSum(ForSale(payments, sale)) + if p.sale == Some(sale) && !p.reversed && p.state != Void then ParseMinor(p.amount) else 0
    ensures CreditOf(payments + [p], party) == CreditOf(payments, party) + if p.sale.None? && p.serverDoc.None? && p.party == party && !p.reversed && p.state != Void then ParseMinor(p.amount) else 0
    ensures ForSale(payments + [p], sale) == [] <==> ForSale(payments, sale) == [] && p.sale != Some(sale)
  {
    assert (payments + [p])[..|payments|] == payments;
    var f, l := ForSale(payments, sale), LooseOf(payments, party);
    assert (f + [p])[..|f|] == f && (l + [p])[..|l|] == l;
  }

  /** A live payment taken back: its amount goes off the sale it was for, or off the credit of its customer, and nothing else changes. */
  lemma {:induction false} TakenBackSums(payments: seq<Payment>, i: nat, p': Payment, sale: int, party: int)
    requires i < |payments| && IsLive(payments[i]) && TakenBack(payments[i], p')
    ensures var p, after := payments[i], payments[i := p'];
      && LiveSum(ForSale(after, sale)) == LiveSum(ForSale(payments, sale)) - (if p.sale == Some(sale) then ParseMinor(p.amount) else 0)
      && CreditOf(after, party) == CreditOf(payments, party) - (if p.sale.None? && p.serverDoc.None? && p.party == party then ParseMinor(p.amount) else 0)
      && (ForSale(after, sale) == [] <==> ForSale(payments, sale) == [])
    decreases |payments|
  {
    var n := |payments| - 1;
    var front, last := payments[..n], payments[n];
    assert payments == front + [last];
    LiveOfMore(front, last, sale, party);
    if i < n {
      TakenBackSums(front, i, p', sale, party);
      assert payments[i := p'] == front[i := p'] + [last];
      LiveOfMore(front[i := p'], last, sale, party);
    } else {
      assert payments[i := p'] == front + [p'];
      LiveOfMore(front, p', sale, party);
    }
  }

  /** What a customer owes, less the credit. */
  function Net(sales: seq<Sale>, payments: seq<Payment>, party: int): int { SumDue(InvoicesOf(sales, payments, party)) - CreditOf(payments, party) }

  lemma {:induction false} NetIsBalance(sales: seq<Sale>, payments: seq<Payment>, party: int, now: int)
    ensures var b := LedgerOf(sales, payments, party, now).balance; b.owed - b.credit == Net(sales, payments, party)
  {}

  /** A payment that was money on account, taken back, raises what its customer owes by its amount, synced or not. */
  lemma {:induction false} TakingCreditBack(sales: seq<Sale>, payments: seq<Payment>, i: nat, p': Payment, party: int, now: int)
    requires i < |payments| && IsLive(payments[i]) && TakenBack(payments[i], p') && payments[i].sale.None? && payments[i].serverDoc.None?
    ensures var b, b' := LedgerOf(sales, payments, party, now).balance, LedgerOf(sales, payments[i := p'], party, now).balance;
      b'.owed - b'.credit == b.owed - b.credit + if payments[i].party == party then ParseMinor(payments[i].amount) else 0
  {
    SameInvoices(sales, payments, i, p', party);
    TakenBackSums(payments, i, p', 0, party);
    NetIsBalance(sales, payments, party, now);
    NetIsBalance(sales, payments[i := p'], party, now);
  }

  lemma {:induction false} SameInvoices(sales: seq<Sale>, payments: seq<Payment>, i: nat, p': Payment, party: int)
    requires i < |payments| && IsLive(payments[i]) && TakenBack(payments[i], p') && forall s :: s in sales ==> payments[i].sale != Some(s.id)
    ensures InvoicesOf(sales, payments[i := p'], party) == InvoicesOf(sales, payments, party)
  {
    if sales != [] {
      var s := sales[|sales| - 1];
      SameInvoices(sales[..|sales| - 1], payments, i, p', party);
      TakenBackSums(payments, i, p', s.id, party);
    }
  }

  lemma {:induction false} DueMore(sales: seq<Sale>, s: Sale, payments: seq<Payment>, party: int)
    ensures SumDue(InvoicesOf(sales + [s], payments, party)) == SumDue(InvoicesOf(sales, payments, party)) + if s.party == party then DueOf(InvoiceFor(s, ForSale(payments, s.id))) else 0
  {
    assert (sales + [s])[..|sales|] == sales;
    var front, inv := InvoicesOf(sales, payments, party), InvoiceFor(s, ForSale(payments, s.id));
    assert (front + [inv])[..|front|] == front;
  }

  /** A payment for a sale, taken back, raises what that sale's customer owes by its amount, as far as the sale was not overpaid. */
  lemma {:induction false} TakingPaymentBack(sales: seq<Sale>, payments: seq<Payment>, i: nat, p': Payment, k: nat, party: int, now: int)
    requires SaleIds(sales) && i < |payments| && IsLive(payments[i]) && TakenBack(payments[i], p')
    requires k < |sales| && payments[i].sale == Some(sales[k].id) && !sales[k].cancelled
    requires LiveSum(ForSale(payments, sales[k].id)) <= SaleTotal(sales[k])
    ensures var b, b' := LedgerOf(sales, payments, party, now).balance, LedgerOf(sales, payments[i := p'], party, now).balance;
      b'.owed - b'.credit == b.owed - b.credit + if sales[k].party == party then ParseMinor(payments[i].amount) else 0
  {
    TakingBackRaisesDue(sales, payments, i, p', k, party);
    TakenBackSums(payments, i, p', 0, party);
    NetIsBalance(sales, payments, party, now);
    NetIsBalance(sales, payments[i := p'], party, now);
  }

  lemma {:induction false} TakingBackRaisesDue(sales: seq<Sale>, payments: seq<Payment>, i: nat, p': Payment, k: nat, party: int)
    requires SaleIds(sales) && i < |payments| && IsLive(payments[i]) && TakenBack(payments[i], p')
    requires k < |sales| && payments[i].sale == Some(sales[k].id) && !sales[k].cancelled
    requires LiveSum(ForSale(payments, sales[k].id)) <= SaleTotal(sales[k])
    ensures SumDue(InvoicesOf(sales, payments[i := p'], party))
      == SumDue(InvoicesOf(sales, payments, party)) + if sales[k].party == party then ParseMinor(payments[i].amount) else 0
  {
    var front, s := sales[..|sales| - 1], sales[|sales| - 1];
    assert sales == front + [s];
    DueMore(front, s, payments, party);
    DueMore(front, s, payments[i := p'], party);
    if k < |front| {
      SaleUntouched(payments, i, p', s);
      TakingBackRaisesDue(front, payments, i, p', k, party);
    } else {
      SaleTakenBack(payments, i, p', s);
      SameInvoices(front, payments, i, p', party);
    }
  }

  lemma {:induction false} SaleUntouched(payments: seq<Payment>, i: nat, p': Payment, s: Sale)
    requires i < |payments| && IsLive(payments[i]) && TakenBack(payments[i], p') && payments[i].sale != Some(s.id)
    ensures InvoiceFor(s, ForSale(payments[i := p'], s.id)) == InvoiceFor(s, ForSale(payments, s.id))
  {
    TakenBackSums(payments, i, p', s.id, 0);
  }

  lemma {:induction false} SaleTakenBack(payments: seq<Payment>, i: nat, p': Payment, s: Sale)
    requires i < |payments| && IsLive(payments[i]) && TakenBack(payments[i], p') && payments[i].sale == Some(s.id)
    requires !s.cancelled && LiveSum(ForSale(payments, s.id)) <= SaleTotal(s)
    ensures DueOf(InvoiceFor(s, ForSale(payments[i := p'], s.id))) == DueOf(InvoiceFor(s, ForSale(payments, s.id))) + ParseMinor(payments[i].amount)
  {
    TakenBackSums(payments, i, p', s.id, 0);
    NoPayments(payments, s.id);
    PaidIsLive(s, ForSale(payments, s.id));
    PaidIsLive(s, ForSale(payments[i := p'], s.id));
  }

  lemma {:induction false} PaidIsLive(s: Sale, ps: seq<Payment>)
    requires ps != [] && !s.cancelled
    ensures DueOf(InvoiceFor(s, ps)) == Max0(SaleTotal(s) - LiveSum(ps))
  {}


  /** A customer was last billed on the latest of the sales. */
  lemma {:induction false} LastBilledIsLatest(sales: seq<Sale>, party: int)
    ensures forall s :: s in sales && s.party == party ==> s.createdAt <= LastBilled(sales, party)
    ensures LastBilled(sales, party) == 0 || exists s :: s in sales && s.party == party && s.createdAt == LastBilled(sales, party)
  {
    if sales != [] {
      var front, last := sales[..|sales| - 1], sales[|sales| - 1];
      LastBilledIsLatest(front, party);
      assert forall s :: s in sales <==> s in front || s == last;
    }
  }
}
