/** The phone's tax engine (apps/mobile/src/lib/tax.ts). */
module PhoneTax {
  import opened Wrappers
  import opened Rounding
  import opened Decimals
  import opened Sorting

  datatype PricingMode = INCLUSIVE | EXCLUSIVE

  datatype TaxLineIn = TaxLineIn(qty: string, price: string, discount: string, gstRate: Option<string>)

  datatype TaxLineOut = TaxLineOut(rate: string, taxable: int, tax: int, gross: int, cgst: int, sgst: int, igst: int, invalid: bool)

  datatype Label = CGST | SGST | IGST

  datatype TaxComponent = TaxComponent(kind: Label, minor: int)

  datatype RateGroup = RateGroup(rate: string, taxable: int, tax: int, gross: int)

  datatype InvoiceCalc = InvoiceCalc(mode: PricingMode, interState: bool, lines: seq<TaxLineOut>,
                                     taxable: int, tax: int, total: int, components: seq<TaxComponent>, byRate: seq<RateGroup>)

  // ---- one line -----------------------------------------------------------------------------

  /** The line amount: quantity x price - discount, at ten decimals; negative when the discount is too big. */
  function LineAmount(l: TaxLineIn): int { MulDec(Dec(l.qty), Dec(l.price)) - Dec(l.discount) }

  function LineRate(l: TaxLineIn): nat { if l.gstRate.Some? then Dec(l.gstRate.value) else 0 }

  /** One component of the tax on amount G at rate R, rounded once: `share` 1 is the whole rate, 2 half of it. */
  function Component(G: nat, R: nat, mode: PricingMode, share: nat): nat
    requires share > 0
  {
    match mode
    case INCLUSIVE => RoundHalfUp(100 * (G * R), SCALE * (share * (100 * SCALE + R)))
    case EXCLUSIVE => RoundHalfUp(100 * (G * R), share * 100 * SCALE * SCALE)
  }

  /** The figures of a line, from its amount and rate. */
  function Figures(G: nat, R: nat, mode: PricingMode, interState: bool, invalid: bool): TaxLineOut {
    var half := if R == 0 || interState then 0 else Component(G, R, mode, 2);
    var igst := if R == 0 || !interState then 0 else Component(G, R, mode, 1);
    var tax := half + half + igst;
    var entered := ToMinor(G);
    match mode
    case INCLUSIVE => TaxLineOut(DecToRate(R), entered - tax, tax, entered, half, half, igst, invalid)
    case EXCLUSIVE => TaxLineOut(DecToRate(R), entered, tax, entered + tax, half, half, igst, invalid)
  }

  /** The pattern of digits with at most one point that an entered number has to match. */
  predicate LooksNumeric(v: string) {
    var (w, f) := SplitDot(Trim(v));
    AllDigits(w) && (f.Some? ==> AllDigits(f.value))
  }

  function CalcLine(l: TaxLineIn, mode: PricingMode, interState: bool): TaxLineOut {
    var G := LineAmount(l);
    var bad := (l.qty != "" && !LooksNumeric(l.qty)) || (l.price != "" && !LooksNumeric(l.price))
               || (l.discount != "" && !LooksNumeric(l.discount));
    Figures(if G < 0 then 0 else G, LineRate(l), mode, interState, bad || G < 0)
  }

  // ---- the whole invoice --------------------------------------------------------------------

  function CalcLines(lines: seq<TaxLineIn>, mode: PricingMode, interState: bool): (out: seq<TaxLineOut>)
    ensures |out| == |lines| && forall i :: 0 <= i < |lines| ==> out[i] == CalcLine(lines[i], mode, interState)
  {
    seq(|lines|, i requires 0 <= i < |lines| => CalcLine(lines[i], mode, interState))
  }

  /** The money figures of a line, by name. */
  datatype Figure = Taxable | Tax | Gross | Cgst | Sgst | Igst

  function Pick(l: TaxLineOut, f: Figure): int {
    match f
    case Taxable => l.taxable
    case Tax => l.tax
    case Gross => l.gross
    case Cgst => l.cgst
    case Sgst => l.sgst
    case Igst => l.igst
  }

  function Sum(out: seq<TaxLineOut>, f: Figure): int {
    if out == [] then 0 else Sum(out[..|out| - 1], f) + Pick(out[|out| - 1], f)
  }

  /** The part of a sum that the lines at one rate contribute. */
  function SumAt(out: seq<TaxLineOut>, rate: string, f: Figure): int {
    if out == [] then 0 else
    SumAt(out[..|out| - 1], rate, f) + if out[|out| - 1].rate == rate then Pick(out[|out| - 1], f) else 0
  }

  function Group(out: seq<TaxLineOut>, rate: string): RateGroup {
    RateGroup(rate, SumAt(out, rate, Taxable), SumAt(out, rate, Tax), SumAt(out, rate, Gross))
  }

  /** The rates on the lines, each once, in the order they first appear. */
  function Rates(out: seq<TaxLineOut>): (rs: seq<string>)
    ensures forall r :: r in rs <==> exists i :: 0 <= i < |out| && out[i].rate == r
    ensures Distinct(rs)
  {
    if out == [] then [] else
    var rs, r := Rates(out[..|out| - 1]), out[|out| - 1].rate;
    if r in rs then rs else rs + [r]
  }

  function Groups(out: seq<TaxLineOut>, rs: seq<string>): seq<RateGroup> {
    seq(|rs|, i requires 0 <= i < |rs| => Group(out, rs[i]))
  }

  predicate ByRate(a: RateGroup, b: RateGroup) { Dec(a.rate) <= Dec(b.rate) }

  function Components(cgst: int, sgst: int, igst: int, interState: bool): seq<TaxComponent> {
    if interState then (if igst > 0 then [TaxComponent(IGST, igst)] else [])
    else if cgst + sgst > 0 then [TaxComponent(CGST, cgst), TaxComponent(SGST, sgst)] else []
  }

  /** What calcInvoice returns, as sums over the lines. */
  function InvoiceOf(lines: seq<TaxLineIn>, mode: PricingMode, interState: bool): InvoiceCalc {
    var out := CalcLines(lines, mode, interState);
    InvoiceCalc(mode, interState, out, Sum(out, Taxable), Sum(out, Tax), Sum(out, Gross),
                Components(Sum(out, Cgst), Sum(out, Sgst), Sum(out, Igst), interState),
                SortBy(Groups(out, Rates(out)), ByRate))
  }

  lemma {:induction false} GroupOfNewRate(out: seq<TaxLineOut>, rate: string)
    requires forall i :: 0 <= i < |out| ==> out[i].rate != rate
    ensures Group(out, rate) == RateGroup(rate, 0, 0, 0)
  {
    if out != [] {
      GroupOfNewRate(out[..|out| - 1], rate);
    }
  }

  datatype Totals = Totals(taxable: int, tax: int, total: int, cgst: int, sgst: int, igst: int)

  function TotalsOf(out: seq<TaxLineOut>): Totals {
    Totals(Sum(out, Taxable), Sum(out, Tax), Sum(out, Gross), Sum(out, Cgst), Sum(out, Sgst), Sum(out, Igst))
  }

  function AddLine(g: RateGroup, l: TaxLineOut): RateGroup {
    RateGroup(g.rate, g.taxable + l.taxable, g.tax + l.tax, g.gross + l.gross)
  }

  lemma {:induction false} GroupsAdvance(out: seq<TaxLineOut>, l: TaxLineOut)
    ensures forall r :: Group(out + [l], r) == if r == l.rate then AddLine(Group(out, r), l) else Group(out, r)
  {
    assert (out + [l])[..|out|] == out;
  }

  lemma {:induction false} TotalsAdvance(out: seq<TaxLineOut>, l: TaxLineOut)
    ensures var t := TotalsOf(out);
            TotalsOf(out + [l]) == Totals(t.taxable + l.taxable, t.tax + l.tax, t.total + l.gross, t.cgst + l.cgst, t.sgst + l.sgst, t.igst + l.igst)
  {
    assert (out + [l])[..|out|] == out;
  }

  lemma {:induction false} RatesAdvance(out: seq<TaxLineOut>, l: TaxLineOut)
    ensures Rates(out + [l]) == if l.rate in Rates(out) then Rates(out) else Rates(out) + [l.rate]
  {
    assert (out + [l])[..|out|] == out;
  }

  /** The Map of rate groups after some lines: its keys in order of insertion, its values the sums so far. */
  ghost predicate Tracks(order: seq<string>, groups: map<string, RateGroup>, out: seq<TaxLineOut>) {
    && order == Rates(out)
    && (forall r :: r in groups <==> r in order)
    && (forall r :: r in groups ==> groups[r] == Group(out, r))
  }

  method AddToGroup(order: seq<string>, groups: map<string, RateGroup>, l: TaxLineOut, ghost out: seq<TaxLineOut>)
    returns (order': seq<string>, groups': map<string, RateGroup>)
    requires Tracks(order, groups, out)
    ensures Tracks(order', groups', out + [l])
  {
    var g := if l.rate in groups then groups[l.rate] else RateGroup(l.rate, 0, 0, 0);
    order' := if l.rate in groups then order else order + [l.rate];
    groups' := groups[l.rate := AddLine(g, l)];
    if l.rate !in groups {
      GroupOfNewRate(out, l.rate);
    }
    GroupsAdvance(out, l);
    RatesAdvance(out, l);
  }

  /** The loop of calcInvoice: six accumulators and a map of rate groups updated in place. */
  method AddUp(out: seq<TaxLineOut>) returns (t: Totals, values: seq<RateGroup>)
    ensures t == TotalsOf(out)
    ensures values == Groups(out, Rates(out))
  {
    t := Totals(0, 0, 0, 0, 0, 0);
    var groups: map<string, RateGroup> := map[];
    var order: seq<string> := [];  // a JavaScript Map remembers the order of insertion
    for i := 0 to |out|
      invariant t == TotalsOf(out[..i])
      invariant Tracks(order, groups, out[..i])
    {
      var l := out[i];
      assert out[..i + 1] == out[..i] + [l];
      TotalsAdvance(out[..i], l);
      t := Totals(t.taxable + l.taxable, t.tax + l.tax, t.total + l.gross, t.cgst + l.cgst, t.sgst + l.sgst, t.igst + l.igst);
      order, groups := AddToGroup(order, groups, l, out[..i]);
    }
    assert out[..|out|] == out;
    values := seq(|order|, i requires 0 <= i < |order| => groups[order[i]]);
  }

  method CalcInvoice(lines: seq<TaxLineIn>, mode: PricingMode, interState: bool) returns (c: InvoiceCalc)
    ensures c == InvoiceOf(lines, mode, interState)
  {
    var out := CalcLines(lines, mode, interState);
    var t, values := AddUp(out);
    c := InvoiceCalc(mode, interState, out, t.taxable, t.tax, t.total, Components(t.cgst, t.sgst, t.igst, interState), SortBy(values, ByRate));
  }
}
