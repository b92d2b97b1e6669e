/** The phone's own database: sales, payments, stock (apps/mobile/src/db/repo.ts). */
module PhoneDb {
  // Quantities and stock are in ten-thousandths, the four decimals adjustStock keeps.

  import opened Wrappers
  import opened Rounding
  import opened Decimals
  import opened Receivables

  datatype Line = Line(variant: int, qty: int)

  /** What an edit replaces. */
  datatype Content = Content(party: int, lines: seq<Line>)

  datatype SaleState = Queued | Sending | Sent | Rejected

  datatype SaleRow = SaleRow(id: int, state: SaleState, onServer: bool, cancelled: bool, revision: nat, content: Content)

  datatype Revision = Revision(sale: int, number: nat, snapshot: Content, reason: string)

  datatype PayRow = PayRow(id: int, row: Payment)

  datatype Outcome = Done | AlreadyThere | NotFound | NotEditable | NotANumber | MoreMoneyThanTotal | NoReason | OnServer | AlreadyReversed

  // ---- money read by truncating -------------------------------------------------------------

  /** toMinorStr: the first two decimals, the rest cut off; None where BigInt throws. */
  function ToMinorStr(s: string): Option<nat> {
    var (w, rest) := SplitDot(s);
    var f := if rest.Some? then SplitDot(rest.value).0 else "";
    var two := (f + "00")[..2];
    if AllDigits(w) && AllDigits(two) then Some(DigitsValue(w) * 100 + DigitsValue(two)) else None
  }

  lemma {:induction false} DigitsBound(s: string)
    requires AllDigits(s)
    ensures DigitsValue(s) < Pow10(|s|)
  {
    if s != "" { DigitsBound(s[..|s| - 1]); }
  }

  lemma {:induction false} FirstDigit(s: string)
    requires AllDigits(s) && |s| == 8
    ensures DigitsValue(s) < 100_000_000 && (DigitsValue(s) >= 50_000_000 <==> s[0] >= '5')
  {
    var d, t := s[..1], s[1..];
    assert s == d + t && d[..0] == "";
    ValueOfConcat(d, t);
    DigitsBound(t);
    assert Pow10(7) == 10_000_000;
  }

  lemma {:induction false} MinorOfParts(w: nat, two: nat, rest: nat)
    requires two < 100 && rest < 100_000_000
    ensures ToMinor(w * SCALE + (two * 100_000_000 + rest)) == w * 100 + two + if rest >= 50_000_000 then 1 else 0
  {
    RoundUnique((w * SCALE + (two * 100_000_000 + rest)) * 100, SCALE, w * 100 + two + if rest >= 50_000_000 then 1 else 0);
  }

  /** Rounding and truncating read a plain amount alike exactly when its third decimal is below 5. */
  lemma {:induction false} TruncatingAgrees(w: string, f: string)
    requires w != "" && f != "" && AllDigits(w) && AllDigits(f) && |f| <= SCALE_DIGITS
    ensures ToMinorStr(w + "." + f).Some?
    ensures ParseMinor(w + "." + f) == ToMinorStr(w + "." + f).value + if |f| > 2 && f[2] >= '5' then 1 else 0
  {
    var two, rest := (f + "00")[..2], PadEnd(f, SCALE_DIGITS)[2..];
    ReadsCut(w, f);
    PaddedInTwo(f);
    DigitsBound(two);
    FirstDigit(rest);
    ParsePlain(w, f);
    assert Pow10(2) == 100;
    MinorOfParts(DigitsValue(w), DigitsValue(two), DigitsValue(rest));
  }

  lemma {:induction false} ReadsCut(w: string, f: string)
    requires AllDigits(w) && AllDigits(f)
    ensures AllDigits((f + "00")[..2]) && ToMinorStr(w + "." + f) == Some(DigitsValue(w) * 100 + DigitsValue((f + "00")[..2]))
  {
    SplitDotPlain(w, f);
    SplitDotPlain(f, "");
  }

  lemma {:induction false} PaddedInTwo(f: string)
    requires f != "" && AllDigits(f) && |f| <= SCALE_DIGITS
    ensures var p, two := PadEnd(f, SCALE_DIGITS), (f + "00")[..2];
      && |p| == SCALE_DIGITS && AllDigits(p) && AllDigits(two) && AllDigits(p[2..])
      && DigitsValue(p) == DigitsValue(two) * 100_000_000 + DigitsValue(p[2..])
      && (p[2] >= '5' <==> |f| > 2 && f[2] >= '5')
  {
    var p, two := PadEnd(f, SCALE_DIGITS), (f + "00")[..2];
    assert p == two + p[2..];
    ValueOfConcat(two, p[2..]);
    assert Pow10(8) == 100_000_000;
  }

  /** Rounding and truncating read the amount alike. */
  predicate Printed(amount: string) { ToMinorStr(amount) == Some(ParseMinor(amount)) }

  /** So they agree on every amount the app writes. */
  lemma {:induction false} TruncatingReadsMinor(m: nat)
    ensures ToMinorStr(MinorToString(m)) == Some(m) && Printed(MinorToString(m))
  {
    MinorShape(m);
    PadStartValue(m % 100, 2);
    assert Pow10(2) == 100;
    TruncatingAgrees(Print(m / 100), PadStart(Print(m % 100), 2));
    MinorRoundTrip(m);
  }

  // ---- stock --------------------------------------------------------------------------------

  /** What lines take of an item. */
  function Taken(lines: seq<Line>, variant: int): int {
    if lines == [] then 0 else
    Taken(lines[..|lines| - 1], variant) + if lines[|lines| - 1].variant == variant then lines[|lines| - 1].qty else 0
  }

  function Sold(s: SaleRow, variant: int): int { if s.cancelled then 0 else Taken(s.content.lines, variant) }

  /** What all sales that count take of an item. */
  function SoldAll(sales: seq<SaleRow>, variant: int): int {
    if sales == [] then 0 else SoldAll(sales[..|sales| - 1], variant) + Sold(sales[|sales| - 1], variant)
  }

  lemma {:induction false} SoldChanged(sales: seq<SaleRow>, i: nat, s: SaleRow, variant: int)
    requires i < |sales|
    ensures SoldAll(sales[i := s], variant) == SoldAll(sales, variant) - Sold(sales[i], variant) + Sold(s, variant)
    decreases |sales|
  {
    var front := sales[..|sales| - 1];
    if i < |front| {
      SoldChanged(front, i, s, variant);
      assert sales[i := s][..|sales| - 1] == front[i := s];
    } else {
      assert sales[i := s][..|sales| - 1] == front;
    }
  }

  /** adjustStock: an item that is not tracked, or not known, is left alone. */
  function Adjusted(products: map<int, Option<int>>, variant: int, delta: int): map<int, Option<int>> {
    if variant in products && products[variant].Some? then products[variant := Some(products[variant].value + delta)] else products
  }

  function AdjustedAll(products: map<int, Option<int>>, lines: seq<Line>, sign: int): map<int, Option<int>> {
    if lines == [] then products else
    Adjusted(AdjustedAll(products, lines[..|lines| - 1], sign), lines[|lines| - 1].variant, sign * lines[|lines| - 1].qty)
  }

  lemma {:induction false} AdjustedBy(products: map<int, Option<int>>, lines: seq<Line>, sign: int)
    requires sign == 1 || sign == -1
    ensures var after := AdjustedAll(products, lines, sign);
      after.Keys == products.Keys && forall v :: v in products ==> after[v] == if products[v].Some? then Some(products[v].value + sign * Taken(lines, v)) else None
  {
    if lines != [] {
      AdjustedBy(products, lines[..|lines| - 1], sign);
    }
  }

  // ---- revisions ----------------------------------------------------------------------------

  function Numbers(revisions: seq<Revision>, sale: int): seq<nat> {
    if revisions == [] then [] else
    var r, front := revisions[|revisions| - 1], Numbers(revisions[..|revisions| - 1], sale);
    if r.sale == sale then front + [r.number] else front
  }

  function Upto(n: nat): seq<nat> { if n == 0 then [] else Upto(n - 1) + [n - 1] }

  lemma {:induction false} NoNumbers(revisions: seq<Revision>, sale: int)
    requires forall r :: r in revisions ==> r.sale != sale
    ensures Numbers(revisions, sale) == []
  {
    if revisions != [] {
      assert revisions[|revisions| - 1] in revisions;
      NoNumbers(revisions[..|revisions| - 1], sale);
    }
  }

  // ---- what always holds --------------------------------------------------------------------

  /** The tables, with the stock each tracked item was opened with. */
  datatype Books = Books(products: map<int, Option<int>>, sales: seq<SaleRow>, revisions: seq<Revision>, opening: map<int, int>)

  /** Every tracked item's stock is its opening stock less what the sales that count took. */
  predicate StockOk(b: Books) {
    forall v :: v in b.opening ==> v in b.products && b.products[v] == Some(b.opening[v] - SoldAll(b.sales, v))
  }

  predicate TrackedOk(b: Books) { forall v :: v in b.products ==> (v in b.opening <==> b.products[v].Some?) }

  ghost predicate IdsOk(sales: seq<SaleRow>) { forall i, j :: 0 <= i < j < |sales| ==> sales[i].id != sales[j].id }

  predicate Known(sales: seq<SaleRow>, id: int) { exists i :: 0 <= i < |sales| && sales[i].id == id }

  /** The revisions kept of a sale are numbered 0 up to its own, without a gap. */
  ghost predicate RevisionsOk(b: Books) {
    && (forall i :: 0 <= i < |b.sales| ==> Numbers(b.revisions, b.sales[i].id) == Upto(b.sales[i].revision))
    && (forall r :: r in b.revisions ==> Known(b.sales, r.sale))
  }

  ghost predicate BooksOk(b: Books) { StockOk(b) && TrackedOk(b) && IdsOk(b.sales) && RevisionsOk(b) }

  // ---- the steps ----------------------------------------------------------------------------

  function Inserted(b: Books, s: SaleRow): Books {
    b.(sales := b.sales + [s], products := AdjustedAll(b.products, s.content.lines, -1))
  }

  function Edited(b: Books, i: nat, content: Content, reason: string): Books
    requires i < |b.sales|
  {
    var s := b.sales[i];
    b.(sales := b.sales[i := s.(content := content, revision := s.revision + 1, state := Queued)],
       revisions := b.revisions + [Revision(s.id, s.revision, s.content, reason)],
       products := AdjustedAll(AdjustedAll(b.products, s.content.lines, 1), content.lines, -1))
  }

  function Cancelled(b: Books, i: nat): Books
    requires i < |b.sales|
  {
    b.(sales := b.sales[i := b.sales[i].(cancelled := true)], products := AdjustedAll(b.products, b.sales[i].content.lines, 1))
  }

  lemma {:induction false} InsertKeeps(b: Books, s: SaleRow)
    requires BooksOk(b) && !Known(b.sales, s.id) && !s.cancelled && s.revision == 0
    ensures BooksOk(Inserted(b, s))
  {
    var b' := Inserted(b, s);
    AdjustedBy(b.products, s.content.lines, -1);
    assert forall v :: v in b.opening ==> v in b'.products && b'.products[v] == Some(b.opening[v] - SoldAll(b'.sales, v));
    NoNumbers(b.revisions, s.id);
    forall id | Known(b.sales, id)
      ensures Known(b'.sales, id)
    {
      var i :| 0 <= i < |b.sales| && b.sales[i].id == id;
      assert b'.sales[i].id == id;
    }
  }

  lemma {:induction false} SameIds(sales: seq<SaleRow>, i: nat, s: SaleRow)
    requires i < |sales| && s.id == sales[i].id && IdsOk(sales)
    ensures IdsOk(sales[i := s]) && forall id :: Known(sales, id) ==> Known(sales[i := s], id)
  {
    forall id | Known(sales, id)
      ensures Known(sales[i := s], id)
    {
      var k :| 0 <= k < |sales| && sales[k].id == id;
      assert sales[i := s][k].id == id;
    }
  }

  lemma {:induction false} EditKeepsStock(b: Books, i: nat, content: Content, reason: string)
    requires StockOk(b) && TrackedOk(b) && i < |b.sales| && !b.sales[i].cancelled
    ensures StockOk(Edited(b, i, content, reason)) && TrackedOk(Edited(b, i, content, reason))
  {
    var b' := Edited(b, i, content, reason);
    var back := AdjustedAll(b.products, b.sales[i].content.lines, 1);
    AdjustedBy(b.products, b.sales[i].content.lines, 1);
    AdjustedBy(back, content.lines, -1);
    forall v | v in b.opening
      ensures v in b'.products && b'.products[v] == Some(b.opening[v] - SoldAll(b'.sales, v))
    {
      SoldChanged(b.sales, i, b'.sales[i], v);
    }
  }

  lemma {:induction false} EditKeepsRevisions(b: Books, i: nat, content: Content, reason: string)
    requires IdsOk(b.sales) && RevisionsOk(b) && i < |b.sales|
    ensures IdsOk(Edited(b, i, content, reason).sales) && RevisionsOk(Edited(b, i, content, reason))
  {
    var b' := Edited(b, i, content, reason);
    var r := Revision(b.sales[i].id, b.sales[i].revision, b.sales[i].content, reason);
    SameIds(b.sales, i, b'.sales[i]);
    assert forall k :: 0 <= k < |b.sales| ==> Numbers(b'.revisions, b'.sales[k].id) == Upto(b'.sales[k].revision);
    assert Known(b.sales, r.sale);
  }

  lemma {:induction false} EditKeeps(b: Books, i: nat, content: Content, reason: string)
    requires BooksOk(b) && i < |b.sales| && !b.sales[i].cancelled
    ensures BooksOk(Edited(b, i, content, reason))
  {
    EditKeepsStock(b, i, content, reason);
    EditKeepsRevisions(b, i, content, reason);
  }

  lemma {:induction false} CancelKeeps(b: Books, i: nat)
    requires BooksOk(b) && i < |b.sales| && !b.sales[i].cancelled
    ensures BooksOk(Cancelled(b, i))
  {
    var b' := Cancelled(b, i);
    AdjustedBy(b.products, b.sales[i].content.lines, 1);
    SameIds(b.sales, i, b'.sales[i]);
    forall v | v in b.opening
      ensures v in b'.products && b'.products[v] == Some(b.opening[v] - SoldAll(b'.sales, v))
    {
      SoldChanged(b.sales, i, b'.sales[i], v);
    }
  }

  /** Counting starts again: the opening stock is what explains the new figure with the sales there are. */
  function Reopened(b: Books, variant: int, stock: Option<int>): Books {
    b.(products := b.products[variant := stock],
       opening := if stock.Some? then b.opening[variant := stock.value + SoldAll(b.sales, variant)] else b.opening - {variant})
  }

  lemma {:induction false} ReopenKeeps(b: Books, variant: int, stock: Option<int>)
    requires BooksOk(b)
    ensures BooksOk(Reopened(b, variant, stock))
  {}

  /** Progress reported by the queue changes neither contents nor the cancel mark. */
  lemma {:induction false} ProgressKeeps(b: Books, i: nat, state: SaleState, onServer: bool)
    requires BooksOk(b) && i < |b.sales|
    ensures BooksOk(b.(sales := b.sales[i := b.sales[i].(state := state, onServer := onServer)]))
  {
    var s := b.sales[i].(state := state, onServer := onServer);
    SameIds(b.sales, i, s);
    forall v | v in b.opening
      ensures SoldAll(b.sales[i := s], v) == SoldAll(b.sales, v)
    {
      SoldChanged(b.sales, i, s, v);
    }
  }

  function FindSale(sales: seq<SaleRow>, id: int): (i: Option<nat>)
    ensures i.Some? ==> i.value < |sales| && sales[i.value].id == id
    ensures i.None? <==> !Known(sales, id)
  {
    if sales == [] then None
    else if sales[|sales| - 1].id == id then Some(|sales| - 1)
    else
      assert Known(sales, id) ==> Known(sales[..|sales| - 1], id);
      assert Known(sales[..|sales| - 1], id) ==> Known(sales, id) by {
        if Known(sales[..|sales| - 1], id) {
          var k :| 0 <= k < |sales| - 1 && sales[..|sales| - 1][k].id == id;
          assert sales[k].id == id;
        }
      }
      FindSale(sales[..|sales| - 1], id)
  }

  predicate CanEdit(s: SaleRow) { (s.state == Queued || s.state == Rejected) && !s.onServer && !s.cancelled }

  // ---- payments -----------------------------------------------------------------------------

  function Rows(payments: seq<PayRow>): (ps: seq<Payment>) {
    if payments == [] then [] else Rows(payments[..|payments| - 1]) + [payments[|payments| - 1].row]
  }

  predicate Counts(p: PayRow, sale: int) { p.row.sale == Some(sale) && IsLive(p.row) }

  /** The live payments of a sale, as updateSaleContent adds them up. */
  function PaidStr(payments: seq<PayRow>, sale: int): Option<nat> {
    if payments == [] then Some(0) else
    var p, front := payments[|payments| - 1], PaidStr(payments[..|payments| - 1], sale);
    if !Counts(p, sale) then front
    else if front.None? || ToMinorStr(p.row.amount).None? then None
    else Some(front.value + ToMinorStr(p.row.amount).value)
  }

  lemma {:induction false} StaysUnreadable(payments: seq<PayRow>, sale: int, k: nat)
    requires k <= |payments|
    ensures PaidStr(payments[..k], sale).None? ==> PaidStr(payments, sale).None?
    decreases |payments|
  {
    if k < |payments| {
      assert payments[..|payments| - 1][..k] == payments[..k];
      StaysUnreadable(payments[..|payments| - 1], sale, k);
    } else {
      assert payments[..k] == payments;
    }
  }

  /** The live payments of a sale, as the ledger reads each of them. */
  function PaidRounded(payments: seq<PayRow>, sale: int): nat {
    if payments == [] then 0 else
    PaidRounded(payments[..|payments| - 1], sale) + if Counts(payments[|payments| - 1], sale) then ParseMinor(payments[|payments| - 1].row.amount) else 0
  }

  lemma {:induction false} SameReading(payments: seq<PayRow>, sale: int)
    requires forall p :: p in payments ==> Printed(p.row.amount)
    ensures PaidStr(payments, sale) == Some(PaidRounded(payments, sale))
  {
    if payments != [] {
      assert payments[|payments| - 1] in payments;
      SameReading(payments[..|payments| - 1], sale);
      SameNext(payments, sale);
    }
  }

  lemma {:induction false} SameNext(payments: seq<PayRow>, sale: int)
    requires payments != [] && Printed(payments[|payments| - 1].row.amount)
    requires var front := payments[..|payments| - 1]; PaidStr(front, sale) == Some(PaidRounded(front, sale))
    ensures PaidStr(payments, sale) == Some(PaidRounded(payments, sale))
  {}

  lemma {:induction false} LedgerReads(payments: seq<PayRow>, sale: int)
    ensures PaidRounded(payments, sale) == LiveSum(ForSale(Rows(payments), sale))
  {
    if payments != [] {
      var p, rows := payments[|payments| - 1], Rows(payments[..|payments| - 1]);
      LedgerReads(payments[..|payments| - 1], sale);
    }
  }

  /** When every amount was printed by the app the check before an edit and the customer's ledger see the same sum. */
  lemma {:induction false} PaidStrIsLiveSum(payments: seq<PayRow>, sale: int)
    requires forall p :: p in payments ==> Printed(p.row.amount)
    ensures PaidStr(payments, sale) == Some(LiveSum(ForSale(Rows(payments), sale)))
  {
    SameReading(payments, sale);
    LedgerReads(payments, sale);
  }

  /** Not every sum that is written is read alike: 0.005 counts as a cent in the ledger and as nothing in the check. */
  lemma {:induction false} HalfCentReadsTwoWays()
    ensures ParseMinor("0.005") == 1 && ToMinorStr("0.005") == Some(0)
  {
    assert "0.005" == "0" + "." + "005";
    TruncatingAgrees("0", "005");
    ReadsCut("0", "005");
    assert ("005" + "00")[..2] == "00" && "00"[..1] == "0" && "0"[..0] == "";
  }

  function VoidFor(p: PayRow, sale: int): PayRow {
    if p.row.sale == Some(sale) && !p.row.reversed && p.row.state != Synced then p.(row := p.row.(reversed := true, state := Void)) else p
  }

  function Voided(payments: seq<PayRow>, sale: int): (r: seq<PayRow>)
    ensures |r| == |payments| && forall i :: 0 <= i < |r| ==> r[i] == VoidFor(payments[i], sale)
  {
    seq(|payments|, i requires 0 <= i < |payments| => VoidFor(payments[i], sale))
  }

  /** After a local cancel only payments the server has booked still count. */
  lemma {:induction false} OnlyBookedPaymentsCount(payments: seq<PayRow>, sale: int, p: PayRow)
    requires p in Voided(payments, sale) && Counts(p, sale)
    ensures p in payments && p.row.state == Synced
  {
    var i :| 0 <= i < |payments| && Voided(payments, sale)[i] == p;
    assert payments[i] in payments;
  }

  function FindPayment(payments: seq<PayRow>, id: int): (i: Option<nat>)
    ensures i.Some? ==> i.value < |payments| && payments[i.value].id == id
    ensures i.None? ==> forall p :: p in payments ==> p.id != id
  {
    if payments == [] then None
    else if payments[|payments| - 1].id == id then Some(|payments| - 1) else FindPayment(payments[..|payments| - 1], id)
  }

  /** A synced payment stays on the books, marked for reversal at the server; any other is void. */
  function Reversed(p: PayRow): PayRow { p.(row := p.row.(reversed := true, state := if p.row.state == Synced then Synced else Void)) }

  // ---- what an edit or a cancel answers -----------------------------------------------------

  function EditVerdict(sales: seq<SaleRow>, payments: seq<PayRow>, id: int, total: int): Outcome {
    match FindSale(sales, id)
    case None => NotFound
    case Some(i) =>
      if !CanEdit(sales[i]) then NotEditable
      else match PaidStr(payments, id)
        case None => NotANumber
        case Some(paid) => if paid > total then MoreMoneyThanTotal else Done
  }

  function CancelVerdict(sales: seq<SaleRow>, id: int, reason: string): Outcome {
    if Trim(reason) == "" then NoReason
    else match FindSale(sales, id)
      case None => NotFound
      case Some(i) => if !sales[i].cancelled && sales[i].onServer then OnServer else Done
  }

  // ---- the database -------------------------------------------------------------------------

  class Database {
    var products: map<int, Option<int>>
    var sales: seq<SaleRow>
    var revisions: seq<Revision>
    var payments: seq<PayRow>
    ghost var opening: map<int, int>

    ghost function Abs(): Books
      reads this
    {
      Books(products, sales, revisions, opening)
    }

    ghost predicate Valid()
      reads this
    {
      BooksOk(Abs())
    }

    constructor (products: map<int, Option<int>>)
      ensures Valid() && this.products == products && sales == [] && revisions == [] && payments == []
    {
      this.products, sales, revisions, payments := products, [], [], [];
      opening := map v | v in products && products[v].Some? :: products[v].value;
    }

    /** createItem: a new item, with the stock counted or not tracked. */
    method CreateItem(variant: int, stock: Option<int>) returns (r: Outcome)
      requires Valid()
      modifies this`products, this`opening
      ensures Valid()
      ensures r == if variant in old(products) then AlreadyThere else Done
      ensures Abs() == if r == Done then Reopened(old(Abs()), variant, stock) else old(Abs())
    {
      if variant in products {
        return AlreadyThere;
      }
      SetStock(variant, stock);
      return Done;
    }

    /** updateItem: only an item made on this phone and not yet sent; its stock figure is replaced. */
    method UpdateItem(variant: int, ownAndUnsent: bool, stock: Option<int>)
      requires Valid()
      modifies this`products, this`opening
      ensures Valid()
      ensures Abs() == if variant in old(products) && ownAndUnsent then Reopened(old(Abs()), variant, stock) else old(Abs())
    {
      if variant in products && ownAndUnsent {
        SetStock(variant, stock);
      }
    }

    method SetStock(variant: int, stock: Option<int>)
      requires Valid()
      modifies this`products, this`opening
      ensures Valid() && Abs() == Reopened(old(Abs()), variant, stock)
    {
      ReopenKeeps(Abs(), variant, stock);
      products := products[variant := stock];
      opening := if stock.Some? then opening[variant := stock.value + SoldAll(sales, variant)] else opening - {variant};
    }

    method AdjustStock(variant: int, delta: int)
      modifies this`products
      ensures products == Adjusted(old(products), variant, delta)
    {
      if variant in products && products[variant].Some? {
        products := products[variant := Some(products[variant].value + delta)];
      }
    }

    /** Puts the lines' quantities back (sign 1) or takes them (sign -1). */
    method AdjustLines(lines: seq<Line>, sign: int)
      modifies this`products
      ensures products == AdjustedAll(old(products), lines, sign)
    {
      for k := 0 to |lines|
        invariant products == AdjustedAll(old(products), lines[..k], sign)
      {
        assert lines[..k + 1][..k] == lines[..k];
        AdjustStock(lines[k].variant, sign * lines[k].qty);
      }
      assert lines[..|lines|] == lines;
    }

    /** insertSale: the sale and what it takes from stock, in one step. */
    method InsertSale(id: int, content: Content) returns (r: Outcome)
      requires Valid()
      modifies this`products, this`sales
      ensures Valid()
      ensures r == if Known(old(sales), id) then AlreadyThere else Done
      ensures Abs() == if r == Done then Inserted(old(Abs()), SaleRow(id, Queued, false, false, 0, content)) else old(Abs())
    {
      if FindSale(sales, id).Some? {
        return AlreadyThere;
      }
      var s := SaleRow(id, Queued, false, false, 0, content);
      InsertKeeps(Abs(), s);
      AdjustLines(content.lines, -1);
      sales := sales + [s];
      return Done;
    }

    /** The sum of the live payments of a sale; None if an amount cannot be read. */
    method AddUpPayments(sale: int) returns (paid: Option<nat>)
      ensures paid == PaidStr(payments, sale)
    {
      paid := Some(0);
      for k := 0 to |payments|
        invariant paid.Some? && paid == PaidStr(payments[..k], sale)
      {
        assert payments[..k + 1][..k] == payments[..k];
        if Counts(payments[k], sale) {
          var minor := ToMinorStr(payments[k].row.amount);
          if minor.None? {
            StaysUnreadable(payments, sale, k + 1);
            return None;
          }
          paid := Some(paid.value + minor.value);
        }
      }
      assert payments[..|payments|] == payments;
    }

    method Replace(i: nat, content: Content, reason: string)
      requires i < |sales|
      modifies this`products, this`sales, this`revisions
      ensures Abs() == Edited(old(Abs()), i, content, reason)
    {
      var s := sales[i];
      revisions := revisions + [Revision(s.id, s.revision, s.content, reason)];
      AdjustLines(s.content.lines, 1);
      AdjustLines(content.lines, -1);
      sales := sales[i := s.(content := content, revision := s.revision + 1, state := Queued)];
    }

    /** updateSaleContent: only an invoice the server has never seen, and never below what was received for it. */
    method UpdateSaleContent(id: int, content: Content, reason: string, total: int) returns (r: Outcome)
      requires Valid()
      modifies this`products, this`sales, this`revisions
      ensures Valid()
      ensures r == EditVerdict(old(sales), payments, id, total)
      ensures Abs() == if r == Done then Edited(old(Abs()), FindSale(old(sales), id).value, content, Trim(reason)) else old(Abs())
    {
      var i := FindSale(sales, id);
      if i.None? {
        return NotFound;
      }
      if !CanEdit(sales[i.value]) {
        return NotEditable;
      }
      var paid := AddUpPayments(id);
      if paid.None? {
        return NotANumber;
      }
      if paid.value > total {
        return MoreMoneyThanTotal;
      }
      EditKeeps(Abs(), i.value, content, Trim(reason));
      Replace(i.value, content, Trim(reason));
      return Done;
    }

    method MarkCancelled(i: nat)
      requires i < |sales|
      modifies this`products, this`sales
      ensures Abs() == Cancelled(old(Abs()), i)
    {
      AdjustLines(sales[i].content.lines, 1);
      sales := sales[i := sales[i].(cancelled := true)];
    }

    /** cancelLocalSale: the stock goes back, and payments not yet booked by the server are void; a second cancel does nothing. */
    method CancelLocalSale(id: int, reason: string) returns (r: Outcome)
      requires Valid()
      modifies this`products, this`sales, this`payments
      ensures Valid()
      ensures r == CancelVerdict(old(sales), id, reason)
      ensures var cancels := r == Done && !old(sales)[FindSale(old(sales), id).value].cancelled;
        && Abs() == (if cancels then Cancelled(old(Abs()), FindSale(old(sales), id).value) else old(Abs()))
        && payments == if cancels then Voided(old(payments), id) else old(payments)
    {
      if Trim(reason) == "" {
        return NoReason;
      }
      var i := FindSale(sales, id);
      if i.None? {
        return NotFound;
      }
      if sales[i.value].cancelled {
        return Done;
      }
      if sales[i.value].onServer {
        return OnServer;
      }
      CancelKeeps(Abs(), i.value);
      MarkCancelled(i.value);
      payments := Voided(payments, id);
      return Done;
    }

    /** insertPayments: all the parts of a payment, or none. */
    method InsertPayments(parts: seq<PayRow>) returns (r: Outcome)
      requires Valid()
      modifies this`payments
      ensures Valid()
      ensures r == AlreadyThere || (r == Done && payments == old(payments) + parts)
      ensures r == AlreadyThere <==> exists i, j :: 0 <= i < j < |old(payments) + parts| && |old(payments)| <= j && (old(payments) + parts)[i].id == (old(payments) + parts)[j].id
      ensures r != Done ==> payments == old(payments)
    {
      var all := payments;
      for k := 0 to |parts|
        invariant all == old(payments) + parts[..k] && payments == old(payments)
        invariant forall i, j :: 0 <= i < j < |all| && |old(payments)| <= j ==> all[i].id != all[j].id
      {
        if FindPayment(all, parts[k].id).Some? {
          ghost var i, whole := FindPayment(all, parts[k].id).value, old(payments) + parts;
          assert whole[i] == all[i] && whole[|old(payments)| + k] == parts[k];
          return AlreadyThere;
        }
        all := all + [parts[k]];
      }
      assert parts[..|parts|] == parts;
      payments := all;
      return Done;
    }

    /** reversePayment: corrected, never erased. */
    method ReversePayment(id: int, reason: string) returns (r: Outcome)
      requires Valid()
      modifies this`payments
      ensures Valid()
      ensures r == if Trim(reason) == "" then NoReason else match FindPayment(old(payments), id)
        case None => NotFound
        case Some(i) => if old(payments)[i].row.reversed then AlreadyReversed else Done
      ensures payments == if r == Done then var i := FindPayment(old(payments), id).value; old(payments)[i := Reversed(old(payments)[i])] else old(payments)
    {
      if Trim(reason) == "" {
        return NoReason;
      }
      var i := FindPayment(payments, id);
      if i.None? {
        return NotFound;
      }
      if payments[i.value].row.reversed {
        return AlreadyReversed;
      }
      payments := payments[i.value := Reversed(payments[i.value])];
      return Done;
    }

    /** markState and saveProgress: how far the queue has got with a sale. */
    method SaveProgress(i: nat, state: SaleState, onServer: bool)
      requires Valid() && i < |sales|
      modifies this`sales
      ensures Valid() && sales == old(sales)[i := old(sales)[i].(state := state, onServer := onServer)]
    {
      ProgressKeeps(Abs(), i, state, onServer);
      sales := sales[i := sales[i].(state := state, onServer := onServer)];
    }
  }

  // ---- what an edit leaves behind ------------------------------------------------------------

  /** Right after an edit the ledger's live payments do not exceed the new total. */
  lemma {:induction false} EditLeavesNothingOverpaid(sales: seq<SaleRow>, payments: seq<PayRow>, id: int, total: int)
    requires EditVerdict(sales, payments, id, total) == Done && forall p :: p in payments ==> Printed(p.row.amount)
    ensures LiveSum(ForSale(Rows(payments), id)) <= total
  {
    PaidStrIsLiveSum(payments, id);
  }

  /** Digits, a point and at most d more digits. */
  ghost predicate PlainWithin(amount: string, d: nat) {
    exists w, f :: Plain(amount, w, f) && |f| <= d
  }

  predicate Plain(amount: string, w: string, f: string) { w != "" && f != "" && AllDigits(w) && AllDigits(f) && amount == w + "." + f }

  /** The live payments never exceed the total an edit was accepted with, whatever the amounts with up to d decimals. */
  ghost predicate NeverOverpaid(d: nat) {
    forall sales, payments: seq<PayRow>, id, total ::
      AllWithin(payments, d) && EditVerdict(sales, payments, id, total) == Done ==> LiveSum(ForSale(Rows(payments), id)) <= total
  }

  ghost predicate AllWithin(payments: seq<PayRow>, d: nat) { forall p :: p in payments ==> PlainWithin(p.row.amount, d) }

  lemma {:induction false} TwoDecimalsArePrinted(amount: string)
    requires PlainWithin(amount, 2)
    ensures Printed(amount)
  {
    var w, f :| Plain(amount, w, f) && |f| <= 2;
    TruncatingAgrees(w, f);
  }

  function SmallPayment(amount: string): PayRow { PayRow(1, Payment(1, Some(1), None, amount, false, Waiting)) }

  lemma {:induction false} SmallPaymentIsChecked(amount: string)
    requires ToMinorStr(amount) == Some(0)
    ensures PaidStr([SmallPayment(amount)], 1) == Some(0)
    ensures EditVerdict([SaleRow(1, Queued, false, false, 0, Content(1, []))], [SmallPayment(amount)], 1, 0) == Done
  {
    assert [SmallPayment(amount)][..0] == [];
  }

  lemma {:induction false} SmallPaymentCounts(amount: string)
    ensures LiveSum(ForSale(Rows([SmallPayment(amount)]), 1)) == ParseMinor(amount)
  {
    var pay := SmallPayment(amount);
    assert [pay][..0] == [] && Rows([pay]) == [pay.row] && [pay.row][..0] == [];
    assert ForSale([pay.row], 1) == [pay.row];
  }

  lemma {:induction false} OneOverpaidIsEnough(sales: seq<SaleRow>, pay: PayRow, id: int, total: int, d: nat)
    requires PlainWithin(pay.row.amount, d) && EditVerdict(sales, [pay], id, total) == Done && LiveSum(ForSale(Rows([pay]), id)) > total
    ensures !NeverOverpaid(d)
  {
    assert AllWithin([pay], d);
  }

  lemma {:induction false} HalfCentOverpays(d: nat)
    requires d >= 3
    ensures !NeverOverpaid(d)
  {
    HalfCentReadsTwoWays();
    assert Plain("0.005", "0", "005");
    SmallPaymentIsChecked("0.005");
    SmallPaymentCounts("0.005");
    OneOverpaidIsEnough([SaleRow(1, Queued, false, false, 0, Content(1, []))], SmallPayment("0.005"), 1, 0, d);
  }

  /** So the check before an edit protects the ledger exactly for amounts of at most two decimals. */
  lemma {:induction false} OverpaidExactly(d: nat)
    ensures NeverOverpaid(d) <==> d <= 2
  {
    if d <= 2 {
      forall sales, payments: seq<PayRow>, id, total | AllWithin(payments, d) && EditVerdict(sales, payments, id, total) == Done
        ensures LiveSum(ForSale(Rows(payments), id)) <= total
      {
        forall p | p in payments
          ensures Printed(p.row.amount)
        {
          assert PlainWithin(p.row.amount, 2);
          TwoDecimalsArePrinted(p.row.amount);
        }
        EditLeavesNothingOverpaid(sales, payments, id, total);
      }
    } else {
      HalfCentOverpays(d);
    }
  }

  predicate SameStock(p: map<int, Option<int>>, q: map<int, Option<int>>) { p.Keys == q.Keys && forall v :: v in p ==> p[v] == q[v] }

  lemma {:induction false} TakenAndPutBack(products: map<int, Option<int>>, lines: seq<Line>, sign: int)
    requires sign == 1 || sign == -1
    ensures SameStock(AdjustedAll(AdjustedAll(products, lines, sign), lines, -sign), products)
  {
    AdjustedBy(products, lines, sign);
    AdjustedBy(AdjustedAll(products, lines, sign), lines, -sign);
  }

  lemma {:induction false} SameAdjusted(p: map<int, Option<int>>, q: map<int, Option<int>>, lines: seq<Line>, sign: int)
    requires SameStock(p, q) && (sign == 1 || sign == -1)
    ensures SameStock(AdjustedAll(p, lines, sign), AdjustedAll(q, lines, sign))
  {
    AdjustedBy(p, lines, sign);
    AdjustedBy(q, lines, sign);
  }

  /** A sale that was cancelled moves no stock any more: with one inserted and cancelled, stock is what it was. */
  lemma {:induction false} CancelUndoesInsert(b: Books, s: SaleRow)
    requires BooksOk(b) && !s.cancelled
    ensures SameStock(Cancelled(Inserted(b, s), |b.sales|).products, b.products)
  {
    TakenAndPutBack(b.products, s.content.lines, -1);
  }

  /** Nor does it matter how often a sale was edited before: an edit back to the old content restores the stock. */
  lemma {:induction false} EditUndoesEdit(b: Books, i: nat, content: Content, r1: string, r2: string)
    requires BooksOk(b) && i < |b.sales|
    ensures var once := Edited(b, i, content, r1); SameStock(Edited(once, i, b.sales[i].content, r2).products, b.products)
  {
    var back := AdjustedAll(b.products, b.sales[i].content.lines, 1);
    TakenAndPutBack(back, content.lines, -1);
    SameAdjusted(AdjustedAll(AdjustedAll(back, content.lines, -1), content.lines, 1), back, b.sales[i].content.lines, -1);
    TakenAndPutBack(b.products, b.sales[i].content.lines, 1);
  }


  // ---- which sales and payments are touched -------------------------------------------------

  /** An edit is accepted exactly for a known sale that waits to be sent or was refused, that the server has not seen and
      nobody has cancelled, when what was paid on it can be read and is no more than the new total. */
  lemma {:induction false} EditExactly(sales: seq<SaleRow>, payments: seq<PayRow>, id: int, total: int)
    requires IdsOk(sales)
    ensures EditVerdict(sales, payments, id, total) == Done <==>
      && (exists i :: 0 <= i < |sales| && sales[i].id == id && !sales[i].onServer && !sales[i].cancelled && sales[i].state != Sending && sales[i].state != Sent)
      && PaidStr(payments, id).Some? && PaidStr(payments, id).value <= total
  {
    if FindSale(sales, id).Some? {
      OneSale(sales, FindSale(sales, id).value);
    }
  }

  lemma {:induction false} OneSale(sales: seq<SaleRow>, k: nat)
    requires IdsOk(sales) && k < |sales|
    ensures forall i :: 0 <= i < |sales| && sales[i].id == sales[k].id ==> i == k
  {}

  /** A cancellation needs a reason and a sale the server has not seen; one already cancelled is left as it is. */
  lemma {:induction false} CancelExactly(sales: seq<SaleRow>, id: int, reason: string)
    requires IdsOk(sales)
    ensures CancelVerdict(sales, id, reason) == Done <==>
      Trim(reason) != "" && exists i :: 0 <= i < |sales| && sales[i].id == id && (sales[i].cancelled || !sales[i].onServer)
  {
    if FindSale(sales, id).Some? {
      OneSale(sales, FindSale(sales, id).value);
    }
  }

  /** A cancelled sale keeps the payments the server has booked and loses the others; other sales keep theirs. */
  lemma {:induction false} BookedSurvive(payments: seq<PayRow>, sale: int, i: nat)
    requires i < |payments|
    ensures var p, p' := payments[i], Voided(payments, sale)[i];
      && (p.row.state == Synced || p.row.sale != Some(sale) ==> p' == p)
      && (p.row.state != Synced && p.row.sale == Some(sale) ==> p'.row.reversed)
      && p'.id == p.id && p'.row.amount == p.row.amount && p'.row.party == p.row.party && p'.row.sale == p.row.sale
  {}

  lemma {:induction false} RowsAt(payments: seq<PayRow>, i: nat, p: PayRow)
    requires i < |payments|
    ensures |Rows(payments)| == |payments| && Rows(payments)[i] == payments[i].row && Rows(payments[i := p]) == Rows(payments)[i := p.row]
    decreases |payments|
  {
    var n := |payments| - 1;
    if i < n {
      RowsAt(payments[..n], i, p);
      assert payments[i := p][..n] == payments[..n][i := p];
    } else {
      assert payments[i := p][..n] == payments[..n];
      RowsLength(payments[..n]);
    }
  }

  lemma {:induction false} RowsLength(payments: seq<PayRow>)
    ensures |Rows(payments)| == |payments|
  {
    if payments != [] { RowsLength(payments[..|payments| - 1]); }
  }

  /** Reversing a payment for a sale, one the server has booked too, raises what its customer owes by its amount,
      as far as the sale was not overpaid; it stays booked until the server reverses it. */
  lemma {:induction false} ReversingRaisesOwed(sales: seq<Sale>, payments: seq<PayRow>, i: nat, k: nat, party: int, now: int)
    requires SaleIds(sales) && i < |payments| && IsLive(payments[i].row) && k < |sales| && payments[i].row.sale == Some(sales[k].id)
    requires !sales[k].cancelled && LiveSum(ForSale(Rows(payments), sales[k].id)) <= SaleTotal(sales[k])
    ensures var after := payments[i := Reversed(payments[i])];
      var b, b' := LedgerOf(sales, Rows(payments), party, now).balance, LedgerOf(sales, Rows(after), party, now).balance;
      && b'.owed - b'.credit == b.owed - b.credit + (if sales[k].party == party then ParseMinor(payments[i].row.amount) else 0)
      && (after[i].row.state == Synced <==> payments[i].row.state == Synced) && after[i].row.reversed
  {
    RowsAt(payments, i, Reversed(payments[i]));
    TakingPaymentBack(sales, Rows(payments), i, Reversed(payments[i]).row, k, party, now);
  }
}
