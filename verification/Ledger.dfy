/** Payments on invoices (apps/mobile/src/lib/ledger.ts). */
module Ledger {
  // Money is in minor units.

  import opened Wrappers
  import opened Sorting
  import opened Decimals

  datatype LedgerInvoice = LedgerInvoice(id: int, number: string, issuedAt: int, total: int, paid: int, dueAt: Option<int>, cancelled: bool)

  datatype Allocation = Allocation(invoice: int, amount: int)

  datatype Shared = Shared(allocations: seq<Allocation>, credit: int)

  datatype Sharing = Done(shared: Shared) | NoAmount | UnknownInvoice(id: int) | MoreThanDue(id: int) | MoreThanPaid

  datatype Balance = Balance(owed: int, credit: int, overdue: int, invoicesDue: nat)

  function Max0(n: int): nat { if n > 0 then n else 0 }

  function Min(a: int, b: int): int { if a < b then a else b }

  function DueOf(i: LedgerInvoice): nat { if i.cancelled then 0 else Max0(i.total - i.paid) }

  // ---- oldest first -------------------------------------------------------------------------

  /** The order of payment: by date, then by number as the locale compares numbers. */
  function PaidBefore(notAfter: (string, string) -> bool): (LedgerInvoice, LedgerInvoice) -> bool {
    (a: LedgerInvoice, b: LedgerInvoice) => a.issuedAt < b.issuedAt || (a.issuedAt == b.issuedAt && notAfter(a.number, b.number))
  }

  function Owing(invoices: seq<LedgerInvoice>): (r: seq<LedgerInvoice>)
    ensures forall i :: i in r <==> i in invoices && DueOf(i) > 0
  {
    if invoices == [] then [] else
    assert invoices == invoices[..|invoices| - 1] + [invoices[|invoices| - 1]];
    Owing(invoices[..|invoices| - 1]) + if DueOf(invoices[|invoices| - 1]) > 0 then [invoices[|invoices| - 1]] else []
  }

  function OldestFirst(invoices: seq<LedgerInvoice>, notAfter: (string, string) -> bool): seq<LedgerInvoice> {
    SortBy(Owing(invoices), PaidBefore(notAfter))
  }

  /** What is left of the money after these invoices were served in turn. */
  function Left(amount: int, served: seq<LedgerInvoice>): int {
    if served == [] then amount else
    var left := Left(amount, served[..|served| - 1]);
    left - Min(left, DueOf(served[|served| - 1]))
  }

  function Allocations(amount: int, served: seq<LedgerInvoice>): seq<Allocation> {
    if served == [] then [] else
    var left, inv := Left(amount, served[..|served| - 1]), served[|served| - 1];
    Allocations(amount, served[..|served| - 1]) + if left == 0 then [] else [Allocation(inv.id, Min(left, DueOf(inv)))]
  }

  /** What allocatePayment promises without chosen invoices. */
  function SharedOldestFirst(amount: int, invoices: seq<LedgerInvoice>, notAfter: (string, string) -> bool): Shared {
    var served := OldestFirst(invoices, notAfter);
    Shared(Allocations(amount, served), Left(amount, served))
  }

  method AllocatePayment(amount: int, invoices: seq<LedgerInvoice>, notAfter: (string, string) -> bool) returns (r: Sharing)
    ensures r == if amount <= 0 then NoAmount else Done(SharedOldestFirst(amount, invoices, notAfter))
  {
    if amount <= 0 {
      return NoAmount;
    }
    var served := OldestFirst(invoices, notAfter);
    var allocations, left := [], amount;
    for k := 0 to |served|
      invariant left == Left(amount, served[..k]) >= 0 && allocations == Allocations(amount, served[..k])
    {
      if left == 0 {
        NothingLeft(amount, served, k);
        break;
      }
      assert served[..k + 1][..k] == served[..k];
      var take := if left < DueOf(served[k]) then left else DueOf(served[k]);
      allocations := allocations + [Allocation(served[k].id, take)];
      left := left - take;
    }
    assert served[..|served|] == served;
    return Done(Shared(allocations, left));
  }

  lemma {:induction false} NothingLeft(amount: int, served: seq<LedgerInvoice>, k: nat)
    requires k <= |served| && Left(amount, served[..k]) == 0
    ensures Left(amount, served) == 0 && Allocations(amount, served) == Allocations(amount, served[..k])
    decreases |served|
  {
    if k < |served| {
      assert served[..|served| - 1][..k] == served[..k];
      NothingLeft(amount, served[..|served| - 1], k);
    } else {
      assert served[..k] == served;
    }
  }

  // ---- what it gives to whom ----------------------------------------------------------------

  /** What an invoice gets. */
  function Share(allocations: seq<Allocation>, id: int): int {
    if allocations == [] then 0 else
    Share(allocations[..|allocations| - 1], id) + if allocations[|allocations| - 1].invoice == id then allocations[|allocations| - 1].amount else 0
  }

  function AmountOf(allocations: seq<Allocation>): int {
    if allocations == [] then 0 else AmountOf(allocations[..|allocations| - 1]) + allocations[|allocations| - 1].amount
  }

  function SumDue(invoices: seq<LedgerInvoice>): nat { if invoices == [] then 0 else SumDue(invoices[..|invoices| - 1]) + DueOf(invoices[|invoices| - 1]) }

  /** No two invoices share an id. */
  ghost predicate DistinctIds(invoices: seq<LedgerInvoice>) {
    Distinct(invoices) && forall a, b :: a in invoices && b in invoices && a.id == b.id ==> a == b
  }

  lemma {:induction false} ShareMore(allocations: seq<Allocation>, a: Allocation, id: int)
    ensures Share(allocations + [a], id) == Share(allocations, id) + (if a.invoice == id then a.amount else 0)
    ensures AmountOf(allocations + [a]) == AmountOf(allocations) + a.amount && allocations + [] == allocations
  {
    assert (allocations + [a])[..|allocations|] == allocations;
  }

  /** All the money is accounted for, and credit is left only when everything was paid. */
  lemma {:induction false} MoneyIsShared(amount: nat, served: seq<LedgerInvoice>)
    ensures Left(amount, served) == Max0(amount - SumDue(served))
    ensures AmountOf(Allocations(amount, served)) + Left(amount, served) == amount
  {
    if served != [] {
      var front, inv := served[..|served| - 1], served[|served| - 1];
      MoneyIsShared(amount, front);
      ShareMore(Allocations(amount, front), Allocation(inv.id, Min(Left(amount, front), DueOf(inv))), inv.id);
    }
  }

  lemma {:induction false} NotServedGetsNothing(amount: nat, served: seq<LedgerInvoice>, id: int)
    requires forall i :: i in served ==> i.id != id
    ensures Share(Allocations(amount, served), id) == 0
  {
    if served != [] {
      var front, inv := served[..|served| - 1], served[|served| - 1];
      NotServedGetsNothing(amount, front, id);
      ShareMore(Allocations(amount, front), Allocation(inv.id, Min(Left(amount, front), DueOf(inv))), id);
    }
  }

  lemma {:induction false} LastServed(amount: nat, served: seq<LedgerInvoice>, id: int)
    requires served != []
    ensures var front, inv := served[..|served| - 1], served[|served| - 1];
      Share(Allocations(amount, served), id) == Share(Allocations(amount, front), id) + if inv.id == id then Min(Max0(amount - SumDue(front)), DueOf(inv)) else 0
  {
    var front, inv := served[..|served| - 1], served[|served| - 1];
    MoneyIsShared(amount, front);
    ShareOfLast(Allocations(amount, front), Left(amount, front), inv, id);
  }

  lemma {:induction false} ShareOfLast(before: seq<Allocation>, left: nat, inv: LedgerInvoice, id: int)
    ensures Share(before + (if left == 0 then [] else [Allocation(inv.id, Min(left, DueOf(inv)))]), id)
      == Share(before, id) + if inv.id == id then Min(left, DueOf(inv)) else 0
  {
    ShareMore(before, Allocation(inv.id, Min(left, DueOf(inv))), id);
  }

  lemma {:induction false} DistinctFront(served: seq<LedgerInvoice>)
    requires DistinctIds(served) && served != []
    ensures DistinctIds(served[..|served| - 1]) && forall i :: i in served[..|served| - 1] ==> i.id != served[|served| - 1].id
  {}

  lemma {:induction false} LastIsServed(amount: nat, served: seq<LedgerInvoice>)
    requires served != [] && forall i :: i in served[..|served| - 1] ==> i.id != served[|served| - 1].id
    ensures var front, inv := served[..|served| - 1], served[|served| - 1];
      Share(Allocations(amount, served), inv.id) == Min(Max0(amount - SumDue(front)), DueOf(inv))
  {
    LastServed(amount, served, served[|served| - 1].id);
    NotServedGetsNothing(amount, served[..|served| - 1], served[|served| - 1].id);
  }

  lemma {:induction false} EarlierIsServed(amount: nat, served: seq<LedgerInvoice>, k: nat)
    requires k < |served| - 1 && DistinctIds(served)
    requires var front := served[..|served| - 1];
      Share(Allocations(amount, front), front[k].id) == Min(Max0(amount - SumDue(front[..k])), DueOf(front[k]))
    ensures Share(Allocations(amount, served), served[k].id) == Min(Max0(amount - SumDue(served[..k])), DueOf(served[k]))
  {
    LastServed(amount, served, served[k].id);
    assert served[..|served| - 1][..k] == served[..k];
  }

  /** Invoice k is paid from what the invoices before it leave: fully, or with all that is left. */
  lemma {:induction false} EachIsServedInTurn(amount: nat, served: seq<LedgerInvoice>, k: nat)
    requires k < |served| && DistinctIds(served)
    ensures Share(Allocations(amount, served), served[k].id) == Min(Max0(amount - SumDue(served[..k])), DueOf(served[k]))
    decreases |served|
  {
    DistinctFront(served);
    if k == |served| - 1 {
      LastIsServed(amount, served);
    } else {
      EachIsServedInTurn(amount, served[..|served| - 1], k);
      EarlierIsServed(amount, served, k);
    }
  }

  lemma {:induction false} EarlierDue(served: seq<LedgerInvoice>, j: nat, k: nat)
    requires j < k <= |served|
    ensures SumDue(served[..j]) + DueOf(served[j]) <= SumDue(served[..k])
    decreases k
  {
    assert served[..k][..k - 1] == served[..k - 1];
    if j < k - 1 { EarlierDue(served, j, k - 1); }
  }

  lemma {:induction false} SumOfInsert(x: LedgerInvoice, xs: seq<LedgerInvoice>, le: (LedgerInvoice, LedgerInvoice) -> bool)
    ensures SumDue(InsertBy(x, xs, le)) == SumDue(xs) + DueOf(x)
  {
    if xs != [] {
      var front, last := xs[..|xs| - 1], xs[|xs| - 1];
      SumMore(xs, x);
      SumMore(InsertBy(x, front, le), last);
      SumOfInsert(x, front, le);
    }
  }

  lemma {:induction false} SumMore(xs: seq<LedgerInvoice>, x: LedgerInvoice)
    ensures SumDue(xs + [x]) == SumDue(xs) + DueOf(x) && xs + [] == xs
  {
    assert (xs + [x])[..|xs|] == xs;
  }

  lemma {:induction false} SumOfSort(xs: seq<LedgerInvoice>, le: (LedgerInvoice, LedgerInvoice) -> bool)
    ensures SumDue(SortBy(xs, le)) == SumDue(xs)
  {
    if xs != [] {
      SumOfSort(xs[..|xs| - 1], le);
      SumOfInsert(xs[|xs| - 1], SortBy(xs[..|xs| - 1], le), le);
    }
  }

  lemma {:induction false} SumOfOwing(invoices: seq<LedgerInvoice>)
    ensures SumDue(Owing(invoices)) == SumDue(invoices)
  {
    if invoices != [] {
      var front, inv := invoices[..|invoices| - 1], invoices[|invoices| - 1];
      SumOfOwing(front);
      SumMore(Owing(front), inv);
      assert Owing(invoices) == if DueOf(inv) > 0 then Owing(front) + [inv] else Owing(front);
    }
  }

  lemma {:induction false} OwingDistinct(invoices: seq<LedgerInvoice>)
    requires DistinctIds(invoices)
    ensures DistinctIds(Owing(invoices))
  {
    if invoices != [] {
      var front, inv := invoices[..|invoices| - 1], invoices[|invoices| - 1];
      OwingDistinct(front);
    }
  }

  /** served are the invoices that owe something, in whatever order, each once. */
  ghost predicate Serves(served: seq<LedgerInvoice>, invoices: seq<LedgerInvoice>) {
    DistinctIds(served) && SumDue(served) == SumDue(invoices) && forall i :: i in served <==> i in invoices && DueOf(i) > 0
  }

  /** The served invoices: those that owe something, in order, each once. */
  lemma {:induction false} ServedAre(invoices: seq<LedgerInvoice>, notAfter: (string, string) -> bool)
    requires DistinctIds(invoices)
    ensures Serves(OldestFirst(invoices, notAfter), invoices)
  {
    OwingDistinct(invoices);
    SortKeepsDistinct(Owing(invoices), PaidBefore(notAfter));
    SameMembers(Owing(invoices), PaidBefore(notAfter));
    SumOfSort(Owing(invoices), PaidBefore(notAfter));
    SumOfOwing(invoices);
  }

  /** The money is all accounted for; credit is exactly what exceeds the debt. */
  lemma {:induction false} NothingIsLost(amount: nat, invoices: seq<LedgerInvoice>, notAfter: (string, string) -> bool)
    requires DistinctIds(invoices)
    ensures var r := SharedOldestFirst(amount, invoices, notAfter);
      AmountOf(r.allocations) + r.credit == amount && r.credit == Max0(amount - SumDue(invoices))
  {
    var served := OldestFirst(invoices, notAfter);
    ServedAre(invoices, notAfter);
    MoneyIsShared(amount, served);
  }

  lemma {:induction false} ServedAt(amount: nat, served: seq<LedgerInvoice>, k: nat)
    requires k < |served| && DistinctIds(served)
    ensures var share := Share(Allocations(amount, served), served[k].id);
      0 <= share <= DueOf(served[k]) && (Left(amount, served) > 0 ==> share == DueOf(served[k]))
  {
    EachIsServedInTurn(amount, served, k);
    EarlierDue(served, k, |served|);
    assert served[..|served|] == served;
    MoneyIsShared(amount, served);
  }

  lemma {:induction false} ServedWithinDue(amount: nat, served: seq<LedgerInvoice>, invoices: seq<LedgerInvoice>, i: LedgerInvoice)
    requires Serves(served, invoices) && DistinctIds(invoices) && i in invoices
    ensures var share := Share(Allocations(amount, served), i.id);
      0 <= share <= DueOf(i) && (Left(amount, served) > 0 ==> share == DueOf(i))
  {
    if DueOf(i) > 0 {
      var k :| 0 <= k < |served| && served[k] == i;
      ServedAt(amount, served, k);
    } else {
      assert forall x :: x in served ==> x in invoices && DueOf(x) > 0;
      NotServedGetsNothing(amount, served, i.id);
    }
  }

  /** No invoice gets more than it owes; and all get everything when credit is left. */
  lemma {:induction false} NeverPastDue(amount: nat, invoices: seq<LedgerInvoice>, notAfter: (string, string) -> bool, i: LedgerInvoice)
    requires DistinctIds(invoices) && i in invoices
    ensures var r := SharedOldestFirst(amount, invoices, notAfter);
      0 <= Share(r.allocations, i.id) <= DueOf(i) && (r.credit > 0 ==> Share(r.allocations, i.id) == DueOf(i))
  {
    ServedAre(invoices, notAfter);
    ServedWithinDue(amount, OldestFirst(invoices, notAfter), invoices, i);
  }

  lemma {:induction false} EarlierFillsFirst(amount: nat, served: seq<LedgerInvoice>, k: nat, l: nat)
    requires DistinctIds(served) && k < l < |served|
    ensures Share(Allocations(amount, served), served[l].id) > 0 ==> Share(Allocations(amount, served), served[k].id) == DueOf(served[k])
  {
    EachIsServedInTurn(amount, served, k);
    EachIsServedInTurn(amount, served, l);
    EarlierDue(served, k, l);
  }

  lemma {:induction false} ServedInOrder(amount: nat, served: seq<LedgerInvoice>, before: (LedgerInvoice, LedgerInvoice) -> bool, i: LedgerInvoice, j: LedgerInvoice)
    requires DistinctIds(served) && Sorted(served, before) && i in served && j in served && !before(j, i) && before(i, j)
    ensures Share(Allocations(amount, served), j.id) > 0 ==> Share(Allocations(amount, served), i.id) == DueOf(i)
  {
    var k :| 0 <= k < |served| && served[k] == i;
    var l :| 0 <= l < |served| && served[l] == j;
    assert k <= l;
    if k < l { EarlierFillsFirst(amount, served, k, l); }
  }

  lemma {:induction false} PaymentOrder(notAfter: (string, string) -> bool)
    requires TotalPreorder(notAfter)
    ensures TotalPreorder(PaidBefore(notAfter))
  {
    var before := PaidBefore(notAfter);
    forall a, b
      ensures before(a, b) || before(b, a)
    {
      assert notAfter(a.number, b.number) || notAfter(b.number, a.number);
    }
    forall a, b, c | before(a, b) && before(b, c)
      ensures before(a, c)
    {
      assert notAfter(a.number, b.number) && notAfter(b.number, c.number) ==> notAfter(a.number, c.number);
    }
  }

  /** The older of two invoices, and of two issued together the one whose number comes first, is paid in full before the
      other gets anything. */
  lemma {:induction false} OlderFillsFirst(amount: nat, invoices: seq<LedgerInvoice>, notAfter: (string, string) -> bool, i: LedgerInvoice, j: LedgerInvoice)
    requires DistinctIds(invoices) && i in invoices && j in invoices && TotalPreorder(notAfter)
    requires i.issuedAt < j.issuedAt || (i.issuedAt == j.issuedAt && !notAfter(j.number, i.number))
    ensures var r := SharedOldestFirst(amount, invoices, notAfter);
      Share(r.allocations, j.id) > 0 ==> Share(r.allocations, i.id) == DueOf(i)
  {
    PaymentOrder(notAfter);
    ServedAre(invoices, notAfter);
    SortSorts(Owing(invoices), PaidBefore(notAfter));
    NeverPastDue(amount, invoices, notAfter, i);
    NeverPastDue(amount, invoices, notAfter, j);
    assert PaidBefore(notAfter)(i, j) && !PaidBefore(notAfter)(j, i);
    if DueOf(i) > 0 && DueOf(j) > 0 {
      ServedInOrder(amount, OldestFirst(invoices, notAfter), PaidBefore(notAfter), i, j);
    }
  }

  // ---- the invoices afterwards --------------------------------------------------------------

  function PaidMore(i: LedgerInvoice, allocations: seq<Allocation>): LedgerInvoice { i.(paid := i.paid + Share(allocations, i.id)) }

  function AllPaidMore(invoices: seq<LedgerInvoice>, allocations: seq<Allocation>): seq<LedgerInvoice> {
    if invoices == [] then [] else AllPaidMore(invoices[..|invoices| - 1], allocations) + [PaidMore(invoices[|invoices| - 1], allocations)]
  }

  function SumShares(invoices: seq<LedgerInvoice>, allocations: seq<Allocation>): int {
    if invoices == [] then 0 else SumShares(invoices[..|invoices| - 1], allocations) + Share(allocations, invoices[|invoices| - 1].id)
  }

  /** Whatever is shared out within what is due lowers the debt by exactly that. */
  lemma {:induction false} DueAfterwards(invoices: seq<LedgerInvoice>, allocations: seq<Allocation>)
    requires forall i :: i in invoices ==> 0 <= Share(allocations, i.id) <= DueOf(i)
    ensures SumDue(AllPaidMore(invoices, allocations)) == SumDue(invoices) - SumShares(invoices, allocations)
  {
    if invoices != [] {
      var front, inv := invoices[..|invoices| - 1], invoices[|invoices| - 1];
      assert inv in invoices;
      DueAfterwards(front, allocations);
      SumMore(AllPaidMore(front, allocations), PaidMore(inv, allocations));
    }
  }

  lemma {:induction false} OneShareMore(invoices: seq<LedgerInvoice>, allocations: seq<Allocation>, a: Allocation)
    requires DistinctIds(invoices)
    ensures SumShares(invoices, allocations + [a])
         == SumShares(invoices, allocations) + if exists i :: i in invoices && i.id == a.invoice then a.amount else 0
  {
    if invoices != [] {
      var front, inv := invoices[..|invoices| - 1], invoices[|invoices| - 1];
      OneShareMore(front, allocations, a);
      ShareMore(allocations, a, inv.id);
      assert inv in invoices;
    }
  }

  /** Every allocation reaches one of the invoices. */
  lemma {:induction false} SharesAddUp(invoices: seq<LedgerInvoice>, allocations: seq<Allocation>)
    requires DistinctIds(invoices) && forall a :: a in allocations ==> exists i :: i in invoices && i.id == a.invoice
    ensures SumShares(invoices, allocations) == AmountOf(allocations)
  {
    if allocations == [] {
      NoShares(invoices);
    } else {
      var front, a := allocations[..|allocations| - 1], allocations[|allocations| - 1];
      assert a in allocations && allocations == front + [a];
      SharesAddUp(invoices, front);
      OneShareMore(invoices, front, a);
    }
  }

  lemma {:induction false} NoShares(invoices: seq<LedgerInvoice>)
    ensures SumShares(invoices, []) == 0
  {
    if invoices != [] { NoShares(invoices[..|invoices| - 1]); }
  }

  lemma {:induction false} AllocatedToServed(amount: int, served: seq<LedgerInvoice>)
    ensures forall a :: a in Allocations(amount, served) ==> exists i :: i in served && i.id == a.invoice
  {
    if served != [] {
      AllocatedToServed(amount, served[..|served| - 1]);
      assert served[|served| - 1] in served;
    }
  }

  // ---- the balance --------------------------------------------------------------------------

  predicate Overdue(i: LedgerInvoice, now: int) { i.dueAt.Some? && i.dueAt.value < now }

  function SumOverdue(invoices: seq<LedgerInvoice>, now: int): nat {
    if invoices == [] then 0 else SumOverdue(invoices[..|invoices| - 1], now) + if Overdue(invoices[|invoices| - 1], now) then DueOf(invoices[|invoices| - 1]) else 0
  }

  /** customerBalance, on the sums. */
  function BalanceOf(invoices: seq<LedgerInvoice>, credit: int, now: int): Balance {
    var net := SumDue(invoices) - credit;
    Balance(Max0(net), Max0(-net), Min(SumOverdue(invoices, now), Max0(net)), |Owing(invoices)|)
  }

  method CustomerBalance(invoices: seq<LedgerInvoice>, credit: int, now: int) returns (b: Balance)
    ensures b == BalanceOf(invoices, credit, now)
  {
    var due, overdue, n := AddUpDue(invoices, now);
    var net := due - credit;
    return Balance(if net > 0 then net else 0, if net < 0 then -net else 0, if overdue > net then (if net > 0 then net else 0) else overdue, n);
  }

  /** The loop over the invoices. */
  method AddUpDue(invoices: seq<LedgerInvoice>, now: int) returns (due: nat, overdue: nat, n: nat)
    ensures due == SumDue(invoices) && overdue == SumOverdue(invoices, now) && n == |Owing(invoices)|
  {
    due, overdue, n := 0, 0, 0;
    for k := 0 to |invoices|
      invariant due == SumDue(invoices[..k]) && overdue == SumOverdue(invoices[..k], now) && n == |Owing(invoices[..k])|
    {
      var i := invoices[k];
      assert invoices[..k + 1][..k] == invoices[..k];
      var d := DueOf(i);
      if d == 0 {
        continue;
      }
      due := due + d;
      n := n + 1;
      if i.dueAt.Some? && i.dueAt.value < now {
        overdue := overdue + d;
      }
    }
    assert invoices[..|invoices|] == invoices;
  }

  /** Owed and credit are the two sides of one number, and overdue is part of owed, and of what is overdue. */
  lemma {:induction false} BalanceIsSound(invoices: seq<LedgerInvoice>, credit: int, now: int)
    ensures var b := BalanceOf(invoices, credit, now);
      && b.owed - b.credit == SumDue(invoices) - credit && (b.owed == 0 || b.credit == 0)
      && 0 <= b.overdue <= b.owed && b.overdue <= SumOverdue(invoices, now) <= SumDue(invoices)
      && (b.overdue < SumOverdue(invoices, now) ==> b.overdue == b.owed)
  {
    if invoices != [] {
      BalanceIsSound(invoices[..|invoices| - 1], credit, now);
    }
  }

  // ---- chosen invoices ----------------------------------------------------------------------

  function FindLast(invoices: seq<LedgerInvoice>, id: int): (i: Option<LedgerInvoice>)
    ensures i.Some? ==> i.value in invoices && i.value.id == id
    ensures i.None? ==> forall x :: x in invoices ==> x.id != id
  {
    if invoices == [] then None
    else if invoices[|invoices| - 1].id == id then Some(invoices[|invoices| - 1]) else FindLast(invoices[..|invoices| - 1], id)
  }

  /** allocatePayment with the amounts chosen by hand: each entry is checked on its own. */
  function SharedAsChosen(amount: int, invoices: seq<LedgerInvoice>, chosen: seq<Allocation>): (r: Sharing)
    ensures r.Done? || r.UnknownInvoice? || r.MoreThanDue? || r.MoreThanPaid?
  {
    if chosen == [] then Done(Shared([], amount)) else
    var r, c := SharedAsChosen(amount, invoices, chosen[..|chosen| - 1]), chosen[|chosen| - 1];
    if !r.Done? then r
    else match FindLast(invoices, c.invoice)
      case None => UnknownInvoice(c.invoice)
      case Some(inv) =>
        if c.amount <= 0 then r
        else if c.amount > DueOf(inv) then MoreThanDue(c.invoice)
        else if c.amount > r.shared.credit then MoreThanPaid
        else Done(Shared(r.shared.allocations + [c], r.shared.credit - c.amount))
  }

  lemma {:induction false} StaysRefused(amount: int, invoices: seq<LedgerInvoice>, chosen: seq<Allocation>, k: nat)
    requires k <= |chosen|
    ensures !SharedAsChosen(amount, invoices, chosen[..k]).Done? ==> SharedAsChosen(amount, invoices, chosen) == SharedAsChosen(amount, invoices, chosen[..k])
    decreases |chosen|
  {
    if k < |chosen| {
      assert chosen[..|chosen| - 1][..k] == chosen[..k];
      StaysRefused(amount, invoices, chosen[..|chosen| - 1], k);
    } else {
      assert chosen[..k] == chosen;
    }
  }

  method AllocateChosen(amount: int, invoices: seq<LedgerInvoice>, chosen: seq<Allocation>) returns (r: Sharing)
    ensures r == if amount <= 0 then NoAmount else SharedAsChosen(amount, invoices, chosen)
  {
    if amount <= 0 {
      return NoAmount;
    }
    var allocations, left := [], amount;
    for k := 0 to |chosen|
      invariant SharedAsChosen(amount, invoices, chosen[..k]) == Done(Shared(allocations, left))
    {
      var c := chosen[k];
      assert chosen[..k + 1][..k] == chosen[..k];
      StaysRefused(amount, invoices, chosen, k + 1);
      var inv := FindLast(invoices, c.invoice);
      if inv.None? {
        return UnknownInvoice(c.invoice);
      }
      if c.amount <= 0 {
        continue;
      }
      if c.amount > DueOf(inv.value) {
        return MoreThanDue(c.invoice);
      }
      if c.amount > left {
        return MoreThanPaid;
      }
      allocations := allocations + [c];
      left := left - c.amount;
    }
    assert chosen[..|chosen|] == chosen;
    return Done(Shared(allocations, left));
  }

  predicate ChosenOnce(chosen: seq<Allocation>) { forall i, j :: 0 <= i < j < |chosen| ==> chosen[i].invoice != chosen[j].invoice }

  /** With every invoice chosen at most once none is paid past what it owes, and the money is all accounted for. */
  lemma {:induction false} ChosenNeverPastDue(amount: nat, invoices: seq<LedgerInvoice>, chosen: seq<Allocation>, id: int)
    requires SharedAsChosen(amount, invoices, chosen).Done? && ChosenOnce(chosen)
    ensures var s := SharedAsChosen(amount, invoices, chosen).shared;
      && AmountOf(s.allocations) + s.credit == amount && s.credit >= 0
      && ((forall c :: c in chosen ==> c.invoice != id) ==> Share(s.allocations, id) == 0)
      && (FindLast(invoices, id).Some? ==> 0 <= Share(s.allocations, id) <= DueOf(FindLast(invoices, id).value))
  {
    if chosen != [] {
      var front, c := chosen[..|chosen| - 1], chosen[|chosen| - 1];
      LastChosenIsNew(chosen);
      ChosenNeverPastDue(amount, invoices, front, id);
      ShareMore(SharedAsChosen(amount, invoices, front).shared.allocations, c, id);
    }
  }

  lemma {:induction false} LastChosenIsNew(chosen: seq<Allocation>)
    requires ChosenOnce(chosen) && chosen != []
    ensures var front, c := chosen[..|chosen| - 1], chosen[|chosen| - 1];
      ChosenOnce(front) && c in chosen && (forall x :: x in front ==> x in chosen && x.invoice != c.invoice)
      && forall x :: x in chosen ==> x == c || x in front
  {}

  /** No invoice gets more than it owes. */
  ghost predicate NoneOverpaid(invoices: seq<LedgerInvoice>, allocations: seq<Allocation>) {
    forall id :: FindLast(invoices, id).Some? ==> Share(allocations, id) <= DueOf(FindLast(invoices, id).value)
  }

  function IdsOf(chosen: seq<Allocation>): seq<int> { seq(|chosen|, i requires 0 <= i < |chosen| => chosen[i].invoice) }

  /** Whatever the payment, the invoices and the amounts: choosing these ids in this order never overpays an invoice. */
  ghost predicate NeverOverpays(ids: seq<int>) {
    forall amount: nat, invoices: seq<LedgerInvoice>, chosen: seq<Allocation> ::
      IdsOf(chosen) == ids && SharedAsChosen(amount, invoices, chosen).Done? ==>
        NoneOverpaid(invoices, SharedAsChosen(amount, invoices, chosen).shared.allocations)
  }

  lemma {:induction false} DistinctNeverOverpays(ids: seq<int>)
    requires Distinct(ids)
    ensures NeverOverpays(ids)
  {
    forall amount: nat, invoices: seq<LedgerInvoice>, chosen: seq<Allocation> | IdsOf(chosen) == ids && SharedAsChosen(amount, invoices, chosen).Done?
      ensures NoneOverpaid(invoices, SharedAsChosen(amount, invoices, chosen).shared.allocations)
    {
      assert forall i :: 0 <= i < |chosen| ==> ids[i] == chosen[i].invoice;
      forall id | FindLast(invoices, id).Some?
        ensures Share(SharedAsChosen(amount, invoices, chosen).shared.allocations, id) <= DueOf(FindLast(invoices, id).value)
      {
        ChosenNeverPastDue(amount, invoices, chosen, id);
      }
    }
  }

  /** An invoice of one minor unit for every id, and an entry of one for every id. */
  function OneEach(ids: seq<int>): seq<LedgerInvoice> {
    if ids == [] then [] else OneEach(ids[..|ids| - 1]) + [LedgerInvoice(ids[|ids| - 1], "", 0, 1, 0, None, false)]
  }

  function Ones(ids: seq<int>): seq<Allocation> { if ids == [] then [] else Ones(ids[..|ids| - 1]) + [Allocation(ids[|ids| - 1], 1)] }

  lemma {:induction false} OneEachOwesOne(ids: seq<int>, id: int)
    requires id in ids
    ensures FindLast(OneEach(ids), id).Some? && DueOf(FindLast(OneEach(ids), id).value) == 1
  {
    if ids[|ids| - 1] != id {
      assert id in ids[..|ids| - 1];
      OneEachOwesOne(ids[..|ids| - 1], id);
    }
  }

  lemma {:induction false} OnesAreShared(amount: nat, invoices: seq<LedgerInvoice>, ids: seq<int>)
    requires |ids| <= amount && forall id :: id in ids ==> FindLast(invoices, id).Some? && DueOf(FindLast(invoices, id).value) == 1
    ensures SharedAsChosen(amount, invoices, Ones(ids)) == Done(Shared(Ones(ids), amount - |ids|))
  {
    if ids != [] {
      assert ids[|ids| - 1] in ids;
      OnesAreShared(amount, invoices, ids[..|ids| - 1]);
    }
  }

  lemma {:induction false} OnesName(ids: seq<int>)
    ensures |Ones(ids)| == |ids| && IdsOf(Ones(ids)) == ids
  {
    if ids != [] { OnesName(ids[..|ids| - 1]); }
  }

  lemma {:induction false} OnesAddUp(ids: seq<int>, id: int)
    ensures Share(Ones(ids), id) == multiset(ids)[id]
  {
    if ids != [] {
      var front, last := ids[..|ids| - 1], ids[|ids| - 1];
      assert ids == front + [last];
      OnesAddUp(front, id);
      ShareMore(Ones(front), Allocation(last, 1), id);
    }
  }

  lemma {:induction false} TwiceOverpays(ids: seq<int>, id: int)
    requires multiset(ids)[id] > 1
    ensures !NeverOverpays(ids)
  {
    var invoices := OneEach(ids);
    assert id in multiset(ids);
    forall x | x in ids
      ensures FindLast(invoices, x).Some? && DueOf(FindLast(invoices, x).value) == 1
    {
      OneEachOwesOne(ids, x);
    }
    OnesAreShared(|ids|, invoices, ids);
    OnesName(ids);
    OnesAddUp(ids, id);
    assert !NoneOverpaid(invoices, Ones(ids));
  }

  /** Each entry is only held against the whole debt, so choosing is safe exactly when no invoice is named twice. */
  lemma {:induction false} OverpaysExactly(ids: seq<int>)
    ensures NeverOverpays(ids) <==> Distinct(ids)
  {
    DistinctMeansOnce(ids);
    if forall id :: id in ids ==> multiset(ids)[id] == 1 {
      DistinctNeverOverpays(ids);
    } else {
      var id :| id in ids && multiset(ids)[id] != 1;
      TwiceOverpays(ids, id);
    }
  }

  /** An invoice chosen twice can be paid twice over. */
  lemma {:induction false} ChosenTwiceOverpays(i: LedgerInvoice)
    requires DueOf(i) > 0
    ensures var c := Allocation(i.id, DueOf(i));
      SharedAsChosen(2 * DueOf(i), [i], [c, c]) == Done(Shared([c, c], 0)) && Share([c, c], i.id) == 2 * DueOf(i)
  {
    var c := Allocation(i.id, DueOf(i));
    assert [c, c][..1] == [c] && [c][..0] == [];
    ShareMore([c], c, i.id);
    ShareMore([], c, i.id);
    assert [c] + [c] == [c, c] && [] + [c] == [c];
    assert FindLast([i], i.id) == Some(i);
    assert SharedAsChosen(2 * DueOf(i), [i], [c]) == Done(Shared([c], DueOf(i)));
  }

  // ---- what counts for nothing --------------------------------------------------------------

  /** Cancelled, or paid in full. */
  predicate Settled(i: LedgerInvoice) { i.cancelled || i.paid >= i.total }

  lemma {:induction false} OwingMore(invoices: seq<LedgerInvoice>, i: LedgerInvoice, now: int)
    ensures Owing(invoices + [i]) == Owing(invoices) + (if Settled(i) then [] else [i])
    ensures SumDue(invoices + [i]) == SumDue(invoices) + (if Settled(i) then 0 else i.total - i.paid)
    ensures SumOverdue(invoices + [i], now) == SumOverdue(invoices, now) + (if !Settled(i) && i.dueAt.Some? && i.dueAt.value < now then i.total - i.paid else 0)
  {
    assert (invoices + [i])[..|invoices|] == invoices;
    assert Owing(invoices) + [] == Owing(invoices);
  }

  lemma {:induction false} OwingWithout(a: seq<LedgerInvoice>, i: LedgerInvoice, b: seq<LedgerInvoice>, now: int)
    requires Settled(i)
    ensures Owing(a + [i] + b) == Owing(a + b) && SumDue(a + [i] + b) == SumDue(a + b) && SumOverdue(a + [i] + b, now) == SumOverdue(a + b, now)
  {
    if b == [] {
      assert a + [i] + b == a + [i] && a + b == a;
      OwingMore(a, i, now);
    } else {
      var front, last := b[..|b| - 1], b[|b| - 1];
      assert a + [i] + b == a + [i] + front + [last] && a + b == a + front + [last];
      OwingWithout(a, i, front, now);
      OwingMore(a + [i] + front, last, now);
      OwingMore(a + front, last, now);
    }
  }

  /** An invoice that is cancelled, or paid, gets no part of a payment and changes no balance: it might as well not be there. */
  lemma {:induction false} SettledCountsForNothing(amount: nat, a: seq<LedgerInvoice>, i: LedgerInvoice, b: seq<LedgerInvoice>, notAfter: (string, string) -> bool, credit: int, now: int)
    requires i.cancelled || i.paid >= i.total
    ensures SharedOldestFirst(amount, a + [i] + b, notAfter) == SharedOldestFirst(amount, a + b, notAfter)
    ensures BalanceOf(a + [i] + b, credit, now) == BalanceOf(a + b, credit, now)
  {
    OwingWithout(a, i, b, now);
  }

  /** Something is overdue exactly when an invoice with money due has passed its date and credit does not cover everything. */
  lemma {:induction false} OverdueExactly(invoices: seq<LedgerInvoice>, credit: int, now: int)
    ensures BalanceOf(invoices, credit, now).overdue > 0 <==>
      BalanceOf(invoices, credit, now).owed > 0 && exists i :: i in invoices && !i.cancelled && i.paid < i.total && i.dueAt.Some? && i.dueAt.value < now
  {
    LateInvoices(invoices, now);
  }

  lemma {:induction false} LateInvoices(invoices: seq<LedgerInvoice>, now: int)
    ensures SumOverdue(invoices, now) > 0 <==> exists i :: i in invoices && !Settled(i) && i.dueAt.Some? && i.dueAt.value < now
  {
    if invoices != [] {
      var front, last := invoices[..|invoices| - 1], invoices[|invoices| - 1];
      LateInvoices(front, now);
      assert forall i :: i in invoices <==> i in front || i == last;
    }
  }
}
