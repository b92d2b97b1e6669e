/** What every invoice figured on the phone satisfies (apps/mobile/src/lib/tax.ts). */
module InvoiceLaws {
  // And what the stored copy of its figures keeps: calcInvoice, snapshot, fromSnapshot.

  import opened Wrappers
  import opened Rounding
  import opened Decimals
  import opened Sorting
  import opened PhoneTax

  // ---- sums ---------------------------------------------------------------------------------

  function GroupFigure(g: RateGroup, f: Figure): int {
    match f
    case Taxable => g.taxable
    case Tax => g.tax
    case Gross => g.gross
    case _ => 0
  }

  function SumGroups(gs: seq<RateGroup>, f: Figure): int {
    if gs == [] then 0 else SumGroups(gs[..|gs| - 1], f) + GroupFigure(gs[|gs| - 1], f)
  }

  function SumComponents(cs: seq<TaxComponent>): int {
    if cs == [] then 0 else SumComponents(cs[..|cs| - 1]) + cs[|cs| - 1].minor
  }

  function SumOver(out: seq<TaxLineOut>, rs: seq<string>, f: Figure): int {
    if rs == [] then 0 else SumOver(out, rs[..|rs| - 1], f) + SumAt(out, rs[|rs| - 1], f)
  }

  /** One more line adds its figure to the sum of exactly one of the distinct rates. */
  lemma {:induction false} SumOverStep(out: seq<TaxLineOut>, l: TaxLineOut, rs: seq<string>, f: Figure)
    requires Distinct(rs)
    ensures SumOver(out + [l], rs, f) == SumOver(out, rs, f) + if l.rate in rs then Pick(l, f) else 0
  {
    if rs != [] {
      var front, r := rs[..|rs| - 1], rs[|rs| - 1];
      SumOverStep(out, l, front, f);
      assert (out + [l])[..|out|] == out;
      assert r !in front;
      assert l.rate in rs <==> l.rate in front || l.rate == r;
    }
  }

  lemma {:induction false} SumOverNothing(rs: seq<string>, f: Figure)
    ensures SumOver([], rs, f) == 0
  {
    if rs != [] { SumOverNothing(rs[..|rs| - 1], f); }
  }

  /** Summing per rate and then over the rates is summing over the lines. */
  lemma {:induction false} RatesPartitionTheLines(out: seq<TaxLineOut>, rs: seq<string>, f: Figure)
    requires Distinct(rs) && forall i :: 0 <= i < |out| ==> out[i].rate in rs
    ensures SumOver(out, rs, f) == Sum(out, f)
  {
    if out == [] {
      SumOverNothing(rs, f);
    } else {
      var front, l := out[..|out| - 1], out[|out| - 1];
      assert out == front + [l];
      RatesPartitionTheLines(front, rs, f);
      SumOverStep(front, l, rs, f);
    }
  }

  lemma {:induction false} SumOfGroups(out: seq<TaxLineOut>, rs: seq<string>, f: Figure)
    requires f.Taxable? || f.Tax? || f.Gross?
    ensures SumGroups(Groups(out, rs), f) == SumOver(out, rs, f)
  {
    if rs != [] {
      SumOfGroups(out, rs[..|rs| - 1], f);
      assert Groups(out, rs)[..|rs| - 1] == Groups(out, rs[..|rs| - 1]);
    }
  }

  lemma {:induction false} SumOfInserted(g: RateGroup, gs: seq<RateGroup>, f: Figure)
    ensures SumGroups(InsertBy(g, gs, ByRate), f) == SumGroups(gs, f) + GroupFigure(g, f)
  {
    if gs != [] && !ByRate(gs[|gs| - 1], g) {
      SumOfInserted(g, gs[..|gs| - 1], f);
      var r := InsertBy(g, gs, ByRate);
      assert r[..|r| - 1] == InsertBy(g, gs[..|gs| - 1], ByRate);
    } else {
      assert (gs + [g])[..|gs|] == gs;
    }
  }

  lemma {:induction false} SumOfSorted(gs: seq<RateGroup>, f: Figure)
    ensures SumGroups(SortBy(gs, ByRate), f) == SumGroups(gs, f)
  {
    if gs != [] {
      SumOfSorted(gs[..|gs| - 1], f);
      SumOfInserted(gs[|gs| - 1], SortBy(gs[..|gs| - 1], ByRate), f);
    }
  }

  /** The rate groups of an invoice add up to its totals, figure by figure. */
  lemma {:induction false} GroupsAddUp(lines: seq<TaxLineIn>, mode: PricingMode, interState: bool)
    ensures var c := InvoiceOf(lines, mode, interState);
            SumGroups(c.byRate, Taxable) == c.taxable && SumGroups(c.byRate, Tax) == c.tax && SumGroups(c.byRate, Gross) == c.total
  {
    var out := CalcLines(lines, mode, interState);
    var rs := Rates(out);
    forall f: Figure | f.Taxable? || f.Tax? || f.Gross?
      ensures SumGroups(SortBy(Groups(out, rs), ByRate), f) == Sum(out, f)
    {
      SumOfSorted(Groups(out, rs), f);
      SumOfGroups(out, rs, f);
      RatesPartitionTheLines(out, rs, f);
    }
  }

  /** The groups shown are one per rate on the lines, each with the sums of its lines, in ascending order. */
  lemma {:induction false} GroupsAreTheRates(lines: seq<TaxLineIn>, mode: PricingMode, interState: bool)
    ensures var c := InvoiceOf(lines, mode, interState);
            && (forall i, j :: 0 <= i < j < |c.byRate| ==> Dec(c.byRate[i].rate) <= Dec(c.byRate[j].rate))
            && multiset(c.byRate) == multiset(Groups(c.lines, Rates(c.lines)))
            && Distinct(Rates(c.lines))
  {
    SortSorts(Groups(CalcLines(lines, mode, interState), Rates(CalcLines(lines, mode, interState))), ByRate);
  }

  /** Two lines are counted in the same group exactly when their rates are equal numbers. */
  lemma {:induction false} SameGroupSameRate(a: TaxLineIn, b: TaxLineIn, mode: PricingMode, interState: bool)
    ensures CalcLine(a, mode, interState).rate == CalcLine(b, mode, interState).rate <==> LineRate(a) == LineRate(b)
  {
    RateIsInjective(LineRate(a), LineRate(b));
  }

  predicate LineReconciles(l: TaxLineOut, interState: bool) {
    && l.taxable + l.tax == l.gross && l.cgst + l.sgst + l.igst == l.tax
    && l.cgst >= 0 && l.sgst >= 0 && l.igst >= 0
    && if interState then l.cgst == l.sgst == 0 else l.igst == 0
  }

  lemma {:induction false} SumsReconcile(out: seq<TaxLineOut>, interState: bool)
    requires forall i :: 0 <= i < |out| ==> LineReconciles(out[i], interState)
    ensures Sum(out, Taxable) + Sum(out, Tax) == Sum(out, Gross)
    ensures Sum(out, Cgst) + Sum(out, Sgst) + Sum(out, Igst) == Sum(out, Tax)
    ensures Sum(out, Cgst) >= 0 && Sum(out, Sgst) >= 0 && Sum(out, Igst) >= 0
    ensures if interState then Sum(out, Cgst) == Sum(out, Sgst) == 0 else Sum(out, Igst) == 0
  {
    if out != [] {
      SumsReconcile(out[..|out| - 1], interState);
    }
  }

  lemma {:induction false} ComponentsAddUp(cgst: int, sgst: int, igst: int, interState: bool)
    requires cgst >= 0 && sgst >= 0 && igst >= 0 && if interState then cgst == sgst == 0 else igst == 0
    ensures SumComponents(Components(cgst, sgst, igst, interState)) == cgst + sgst + igst
  {
    var cs := Components(cgst, sgst, igst, interState);
    if |cs| == 2 {
      assert cs[..1] == [cs[0]];
      assert SumComponents([cs[0]]) == SumComponents([]) + cs[0].minor;
    }
  }

  /** The components shown, the totals and the rate groups of an invoice tell one story. */
  lemma {:induction false} InvoiceReconciles(lines: seq<TaxLineIn>, mode: PricingMode, interState: bool)
    ensures var c := InvoiceOf(lines, mode, interState);
            && c.taxable + c.tax == c.total
            && SumComponents(c.components) == c.tax
            && SumGroups(c.byRate, Taxable) + SumGroups(c.byRate, Tax) == SumGroups(c.byRate, Gross)
  {
    var out := CalcLines(lines, mode, interState);
    forall i | 0 <= i < |out|
      ensures LineReconciles(out[i], interState)
    {
      assert out[i] == CalcLine(lines[i], mode, interState);
    }
    SumsReconcile(out, interState);
    ComponentsAddUp(Sum(out, Cgst), Sum(out, Sgst), Sum(out, Igst), interState);
    GroupsAddUp(lines, mode, interState);
  }

  // ---- the labels of the tax ----------------------------------------------------------------

  /** What is shown under a label. */
  function Shown(cs: seq<TaxComponent>, kind: Label): int {
    if cs == [] then 0 else Shown(cs[..|cs| - 1], kind) + if cs[|cs| - 1].kind == kind then cs[|cs| - 1].minor else 0
  }

  lemma {:induction false} ShownFew(cs: seq<TaxComponent>, kind: Label)
    requires |cs| <= 2
    ensures Shown(cs, kind) == (if |cs| >= 1 && cs[0].kind == kind then cs[0].minor else 0) + if |cs| == 2 && cs[1].kind == kind then cs[1].minor else 0
  {
    if |cs| == 2 {
      assert cs[..1] == [cs[0]];
      assert Shown([cs[0]], kind) == Shown([], kind) + if cs[0].kind == kind then cs[0].minor else 0;
    }
  }

  lemma {:induction false} HalvesAreEqual(out: seq<TaxLineOut>)
    requires forall i :: 0 <= i < |out| ==> out[i].cgst == out[i].sgst
    ensures Sum(out, Cgst) == Sum(out, Sgst)
  {
    if out != [] { HalvesAreEqual(out[..|out| - 1]); }
  }

  lemma {:induction false} SumsOfLines(lines: seq<TaxLineIn>, mode: PricingMode, interState: bool)
    ensures var out := CalcLines(lines, mode, interState);
      && Sum(out, Cgst) == Sum(out, Sgst) >= 0 && Sum(out, Igst) >= 0 && (if interState then Sum(out, Cgst) == 0 else Sum(out, Igst) == 0)
  {
    var out := CalcLines(lines, mode, interState);
    forall i | 0 <= i < |out|
      ensures LineReconciles(out[i], interState) && out[i].cgst == out[i].sgst
    {
      assert out[i] == CalcLine(lines[i], mode, interState);
    }
    SumsReconcile(out, interState);
    HalvesAreEqual(out);
  }

  /** Under each label stands what the lines have of it: two equal halves inside a state, CGST and SGST, and IGST across states only. */
  lemma {:induction false} LabelsAreRight(lines: seq<TaxLineIn>, mode: PricingMode, interState: bool)
    ensures var c := InvoiceOf(lines, mode, interState);
      && Shown(c.components, CGST) == Sum(c.lines, Cgst) && Shown(c.components, SGST) == Sum(c.lines, Sgst) && Shown(c.components, IGST) == Sum(c.lines, Igst)
      && Shown(c.components, CGST) == Shown(c.components, SGST)
      && (forall x :: x in c.components ==> if interState then x.kind == IGST else x.kind == CGST || x.kind == SGST)
  {
    var c := InvoiceOf(lines, mode, interState);
    SumsOfLines(lines, mode, interState);
    ShownFew(c.components, CGST);
    ShownFew(c.components, SGST);
    ShownFew(c.components, IGST);
  }

  // ---- what cannot be read ------------------------------------------------------------------

  function Points(s: string): nat { if s == "" then 0 else (if s[0] == '.' then 1 else 0) + Points(s[1..]) }

  predicate DigitsAndPoints(s: string) { forall i :: 0 <= i < |s| ==> '0' <= s[i] <= '9' || s[i] == '.' }

  /** Digits with at most one point among them, but for spaces around. */
  predicate IsNumeral(v: string) { DigitsAndPoints(Trim(v)) && Points(Trim(v)) <= 1 }

  lemma {:induction false} NoPoints(s: string)
    ensures DigitsAndPoints(s) && Points(s) == 0 <==> AllDigits(s)
  {
    if s != "" {
      NoPoints(s[1..]);
      CharFirst(s);
      DigitFirst(s[0], s[1..]);
      assert [s[0]] + s[1..] == s;
    }
  }

  lemma {:induction false} DigitFirst(c: char, w: string)
    ensures AllDigits([c] + w) <==> '0' <= c <= '9' && AllDigits(w)
  {
    var s := [c] + w;
    assert s[0] == c && forall j :: 0 <= j < |w| ==> w[j] == s[j + 1];
    assert forall j :: 1 <= j < |s| ==> s[j] == w[j - 1];
  }

  lemma {:induction false} CharFirst(s: string)
    requires s != ""
    ensures DigitsAndPoints(s) <==> ('0' <= s[0] <= '9' || s[0] == '.') && DigitsAndPoints(s[1..])
  {
    assert forall j :: 1 <= j < |s| ==> s[j] == s[1..][j - 1];
  }

  lemma {:induction false} SplitNumeral(s: string)
    ensures var (w, f) := SplitDot(s);
      (AllDigits(w) && (f.Some? ==> AllDigits(f.value))) <==> DigitsAndPoints(s) && Points(s) <= 1
  {
    if s != "" {
      CharFirst(s);
      if s[0] == '.' {
        NoPoints(s[1..]);
      } else {
        SplitNumeral(s[1..]);
        DigitFirst(s[0], SplitDot(s[1..]).0);
      }
    }
  }

  /** A line is marked invalid exactly when a field that is not empty is no numeral, or the discount exceeds the product. */
  lemma {:induction false} InvalidExactly(l: TaxLineIn, mode: PricingMode, interState: bool)
    ensures CalcLine(l, mode, interState).invalid <==>
      || (l.qty != "" && !IsNumeral(l.qty)) || (l.price != "" && !IsNumeral(l.price)) || (l.discount != "" && !IsNumeral(l.discount))
      || Dec(l.discount) > MulDec(Dec(l.qty), Dec(l.price))
  {
    SplitNumeral(Trim(l.qty));
    SplitNumeral(Trim(l.price));
    SplitNumeral(Trim(l.discount));
  }

  // ---- the sign of the taxable value --------------------------------------------------------

  /** 200.000004 %: the highest rate at which two rounded halves always fit into the price they are taken out of. */
  const HIGHEST: nat := 2_000_000_040_000

  /** Up to there the two rounded halves never exceed the rounded price. */
  lemma {:induction false} HalvesFit(G: nat, R: nat)
    requires R <= HIGHEST
    ensures 2 * Component(G, R, INCLUSIVE, 2) <= ToMinor(G)
  {
    var m, g := Component(G, R, INCLUSIVE, 2), ToMinor(G);
    var E := 100 * SCALE + R;
    assert m * (SCALE * (2 * E)) == 2 * SCALE * (m * E) by { Reassoc(m, 2 * SCALE, E); Commute(m, 2 * SCALE); Reassoc(2 * SCALE, m, E); }
    HalvesArithmetic(m, E, R, G, g);
  }

  lemma {:induction false} HalvesArithmetic(m: int, E: int, R: nat, G: nat, g: nat)
    requires E == 100 * SCALE + R && R <= HIGHEST
    requires 4 * SCALE * (m * E) - 2 * SCALE * E <= 200 * (G * R)
    requires 200 * G < 2 * (g * SCALE) + SCALE
    ensures 2 * m <= g
  {
    assert m * E == 100 * SCALE * m + m * R;
    var top := (4 * m - 1) * 50_000_000 - 1;
    assert top * R == 200_000_000 * (m * R) - 50_000_001 * R;
    if g < 2 * m { MulLe(G, top, R); }
  }

  /** Above it a price of 1.49999999 minor units loses two halves of one unit each. */
  lemma {:induction false} HalvesOverflow(R: nat)
    requires R > HIGHEST
    ensures 2 * Component(149_999_999, R, INCLUSIVE, 2) > ToMinor(149_999_999) == 1
  {
    var m, E := Component(149_999_999, R, INCLUSIVE, 2), 100 * SCALE + R;
    RoundUnique(14_999_999_900, SCALE, 1);
    assert 2 * (100 * (149_999_999 * R)) >= SCALE * (2 * E);
    assert m == 0 ==> m * (SCALE * (2 * E)) == 0;
  }

  /** An IGST never exceeds the price it is taken out of, whatever the rate. */
  lemma {:induction false} WholeFits(G: nat, R: nat)
    ensures Component(G, R, INCLUSIVE, 1) <= ToMinor(G)
  {
    var E := 100 * SCALE + R;
    RoundScale(G * 100, SCALE, E);
    Commute(E, SCALE);
    WholeArithmetic(G, R, E);
    RoundMonotone(100 * (G * R), E * (G * 100), SCALE * E);
    assert SCALE * (1 * E) == SCALE * E;
  }

  lemma {:induction false} WholeArithmetic(G: nat, R: nat, E: nat)
    requires E == 100 * SCALE + R
    ensures 100 * (G * R) <= E * (G * 100)
  {
    assert E * (G * 100) == 10000 * SCALE * G + 100 * (G * R);
  }

  predicate NonNegative(l: TaxLineOut) { l.taxable >= 0 && l.tax >= 0 && l.gross >= 0 }

  /** Rates at which no figure of any line is negative: two halves of a price that includes them are the only ones at risk. */
  predicate SafeRate(R: nat, mode: PricingMode, interState: bool) { R <= HIGHEST || interState || mode == EXCLUSIVE }

  lemma {:induction false} LineIsNonNegative(l: TaxLineIn, mode: PricingMode, interState: bool)
    requires SafeRate(LineRate(l), mode, interState)
    ensures NonNegative(CalcLine(l, mode, interState))
  {
    var G: nat := if LineAmount(l) < 0 then 0 else LineAmount(l);
    if mode == INCLUSIVE {
      if interState { WholeFits(G, LineRate(l)); } else { HalvesFit(G, LineRate(l)); }
    }
  }

  /** A line of 0.0149999999 at the given rate. */
  function SmallLine(R: nat): TaxLineIn { TaxLineIn(DecToRate(SCALE), DecToRate(149_999_999), DecToRate(0), Some(DecToRate(R))) }

  lemma {:induction false} SmallLineReads(R: nat)
    ensures LineRate(SmallLine(R)) == R && LineAmount(SmallLine(R)) == 149_999_999
  {
    RateRoundTrip(SCALE);
    RateRoundTrip(149_999_999);
    RateRoundTrip(0);
    RateRoundTrip(R);
    assert SCALE * 149_999_999 / SCALE == 149_999_999;
  }

  /** At any higher rate the taxable value of a price of 0.0149999999, inside a state, is negative. */
  lemma {:induction false} TaxableCanGoNegative(R: nat)
    requires R > HIGHEST
    ensures LineRate(SmallLine(R)) == R && CalcLine(SmallLine(R), INCLUSIVE, false).taxable < 0
  {
    SmallLineReads(R);
    HalvesOverflow(R);
    FiguresOverflow(149_999_999, R, CalcLine(SmallLine(R), INCLUSIVE, false).invalid);
  }

  lemma {:induction false} FiguresOverflow(G: nat, R: nat, invalid: bool)
    requires R > 0 && 2 * Component(G, R, INCLUSIVE, 2) > ToMinor(G)
    ensures Figures(G, R, INCLUSIVE, false, invalid).taxable < 0
  {}

  /** Every line at rate R is free of negative figures. */
  ghost predicate AllNonNegative(R: nat, mode: PricingMode, interState: bool) {
    forall l: TaxLineIn :: LineRate(l) == R ==> NonNegative(CalcLine(l, mode, interState))
  }

  /** So the taxable value is never negative exactly at the safe rates. */
  lemma {:induction false} NonNegativeExactly(R: nat, mode: PricingMode, interState: bool)
    ensures AllNonNegative(R, mode, interState) <==> SafeRate(R, mode, interState)
  {
    if SafeRate(R, mode, interState) {
      forall l: TaxLineIn | LineRate(l) == R
        ensures NonNegative(CalcLine(l, mode, interState))
      {
        LineIsNonNegative(l, mode, interState);
      }
    } else {
      TaxableCanGoNegative(R);
      assert !NonNegative(CalcLine(SmallLine(R), mode, interState));
    }
  }

  // ---- the stored copy ----------------------------------------------------------------------

  datatype StoredFigures = StoredFigures(rate: string, taxable: string, tax: string, gross: string)

  datatype StoredComponent = StoredComponent(kind: Label, amount: string)

  datatype CalcSnapshot = CalcSnapshot(mode: PricingMode, interState: bool, taxable: string, tax: string, total: string,
                                       components: seq<StoredComponent>, lines: seq<StoredFigures>, byRate: seq<StoredFigures>)

  function KeepLine(l: TaxLineOut): StoredFigures { StoredFigures(l.rate, MinorToString(l.taxable), MinorToString(l.tax), MinorToString(l.gross)) }

  function KeepGroup(g: RateGroup): StoredFigures { StoredFigures(g.rate, MinorToString(g.taxable), MinorToString(g.tax), MinorToString(g.gross)) }

  function KeepComponent(x: TaxComponent): StoredComponent { StoredComponent(x.kind, MinorToString(x.minor)) }

  /** The split of a line's tax and its validity are not stored: they come back as 0 and valid. */
  function ReadLine(s: StoredFigures): TaxLineOut { TaxLineOut(s.rate, ParseMinor(s.taxable), ParseMinor(s.tax), ParseMinor(s.gross), 0, 0, 0, false) }

  function ReadGroup(s: StoredFigures): RateGroup { RateGroup(s.rate, ParseMinor(s.taxable), ParseMinor(s.tax), ParseMinor(s.gross)) }

  function ReadComponent(s: StoredComponent): TaxComponent { TaxComponent(s.kind, ParseMinor(s.amount)) }

  function Snapshot(c: InvoiceCalc): CalcSnapshot {
    CalcSnapshot(c.mode, c.interState, MinorToString(c.taxable), MinorToString(c.tax), MinorToString(c.total),
                 seq(|c.components|, i requires 0 <= i < |c.components| => KeepComponent(c.components[i])),
                 seq(|c.lines|, i requires 0 <= i < |c.lines| => KeepLine(c.lines[i])),
                 seq(|c.byRate|, i requires 0 <= i < |c.byRate| => KeepGroup(c.byRate[i])))
  }

  function FromSnapshot(s: CalcSnapshot): InvoiceCalc {
    InvoiceCalc(s.mode, s.interState,
                seq(|s.lines|, i requires 0 <= i < |s.lines| => ReadLine(s.lines[i])),
                ParseMinor(s.taxable), ParseMinor(s.tax), ParseMinor(s.total),
                seq(|s.components|, i requires 0 <= i < |s.components| => ReadComponent(s.components[i])),
                seq(|s.byRate|, i requires 0 <= i < |s.byRate| => ReadGroup(s.byRate[i])))
  }

  /** Every figure the snapshot keeps has come back. */
  predicate SameFigures(b: InvoiceCalc, c: InvoiceCalc) {
    && b.mode == c.mode && b.interState == c.interState && b.taxable == c.taxable && b.tax == c.tax && b.total == c.total
    && b.components == c.components && b.byRate == c.byRate && |b.lines| == |c.lines|
    && forall i :: 0 <= i < |c.lines| ==> b.lines[i] == c.lines[i].(cgst := 0, sgst := 0, igst := 0, invalid := false)
  }

  predicate NonNegativeGroup(g: RateGroup) { g.taxable >= 0 && g.tax >= 0 && g.gross >= 0 }

  predicate NonNegativeInvoice(c: InvoiceCalc) {
    && c.taxable >= 0 && c.tax >= 0 && c.total >= 0
    && (forall x :: x in c.components ==> x.minor >= 0)
    && (forall l :: l in c.lines ==> NonNegative(l))
    && (forall g :: g in c.byRate ==> NonNegativeGroup(g))
  }

  lemma {:induction false} LineBack(l: TaxLineOut)
    ensures ReadLine(KeepLine(l)) == l.(cgst := 0, sgst := 0, igst := 0, invalid := false) <==> NonNegative(l)
  {
    MinorRoundTrip(l.taxable); MinorRoundTrip(l.tax); MinorRoundTrip(l.gross);
  }

  lemma {:induction false} GroupBack(g: RateGroup)
    ensures ReadGroup(KeepGroup(g)) == g <==> NonNegativeGroup(g)
  {
    MinorRoundTrip(g.taxable); MinorRoundTrip(g.tax); MinorRoundTrip(g.gross);
  }

  lemma {:induction false} ComponentBack(x: TaxComponent)
    ensures ReadComponent(KeepComponent(x)) == x <==> x.minor >= 0
  {
    MinorRoundTrip(x.minor);
  }

  lemma {:induction false} LinesBack(c: InvoiceCalc)
    ensures var b := FromSnapshot(Snapshot(c));
      |b.lines| == |c.lines| && forall i :: 0 <= i < |c.lines| ==>
        (b.lines[i] == c.lines[i].(cgst := 0, sgst := 0, igst := 0, invalid := false) <==> NonNegative(c.lines[i]))
  {
    forall i | 0 <= i < |c.lines|
      ensures ReadLine(Snapshot(c).lines[i]) == c.lines[i].(cgst := 0, sgst := 0, igst := 0, invalid := false) <==> NonNegative(c.lines[i])
    {
      LineBack(c.lines[i]);
    }
  }

  lemma {:induction false} ComponentsBack(c: InvoiceCalc)
    ensures FromSnapshot(Snapshot(c)).components == c.components <==> forall x :: x in c.components ==> x.minor >= 0
  {
    var b := FromSnapshot(Snapshot(c)).components;
    forall i | 0 <= i < |c.components|
      ensures b[i] == c.components[i] <==> c.components[i].minor >= 0
    {
      ComponentBack(c.components[i]);
    }
    SameExactly(b, c.components);
  }

  lemma {:induction false} GroupsBack(c: InvoiceCalc)
    ensures FromSnapshot(Snapshot(c)).byRate == c.byRate <==> forall g :: g in c.byRate ==> NonNegativeGroup(g)
  {
    var b := FromSnapshot(Snapshot(c)).byRate;
    forall i | 0 <= i < |c.byRate|
      ensures b[i] == c.byRate[i] <==> NonNegativeGroup(c.byRate[i])
    {
      GroupBack(c.byRate[i]);
    }
    SameExactly(b, c.byRate);
  }

  lemma {:induction false} SameExactly<T>(b: seq<T>, c: seq<T>)
    requires |b| == |c|
    ensures b == c <==> forall i :: 0 <= i < |c| ==> b[i] == c[i]
  {}

  /** A stored invoice reads back with every figure as issued exactly when no figure is negative. */
  lemma {:induction false} SnapshotRoundTrip(c: InvoiceCalc)
    ensures SameFigures(FromSnapshot(Snapshot(c)), c) <==> NonNegativeInvoice(c)
  {
    MinorRoundTrip(c.taxable); MinorRoundTrip(c.tax); MinorRoundTrip(c.total);
    LinesBack(c);
    ComponentsBack(c);
    GroupsBack(c);
  }

  lemma {:induction false} SumIsNonNegative(out: seq<TaxLineOut>, rate: string, f: Figure)
    requires forall i :: 0 <= i < |out| ==> NonNegative(out[i])
    requires f.Taxable? || f.Tax? || f.Gross?
    ensures Sum(out, f) >= 0 && SumAt(out, rate, f) >= 0
  {
    if out != [] { SumIsNonNegative(out[..|out| - 1], rate, f); }
  }

  lemma {:induction false} GroupsAreNonNegative(out: seq<TaxLineOut>, rs: seq<string>)
    requires forall i :: 0 <= i < |out| ==> NonNegative(out[i])
    ensures forall g :: g in Groups(out, rs) ==> NonNegativeGroup(g)
  {
    forall i | 0 <= i < |rs|
      ensures NonNegativeGroup(Group(out, rs[i]))
    {
      SumIsNonNegative(out, rs[i], Taxable); SumIsNonNegative(out, rs[i], Tax); SumIsNonNegative(out, rs[i], Gross);
    }
  }

  lemma {:induction false} GroupsShownAreNonNegative(out: seq<TaxLineOut>)
    requires forall l :: l in out ==> NonNegative(l)
    ensures forall g :: g in SortBy(Groups(out, Rates(out)), ByRate) ==> NonNegativeGroup(g)
  {
    GroupsAreNonNegative(out, Rates(out));
    SameMembers(Groups(out, Rates(out)), ByRate);
  }

  predicate OrdinaryRates(lines: seq<TaxLineIn>, mode: PricingMode, interState: bool) {
    forall i :: 0 <= i < |lines| ==> SafeRate(LineRate(lines[i]), mode, interState)
  }

  lemma {:induction false} LinesAreSound(lines: seq<TaxLineIn>, mode: PricingMode, interState: bool)
    requires OrdinaryRates(lines, mode, interState)
    ensures forall l :: l in CalcLines(lines, mode, interState) ==> NonNegative(l) && LineReconciles(l, interState)
  {
    forall i | 0 <= i < |lines|
      ensures var l := CalcLine(lines[i], mode, interState); NonNegative(l) && LineReconciles(l, interState)
    {
      LineIsNonNegative(lines[i], mode, interState);
    }
  }

  lemma {:induction false} SumsAreNonNegative(out: seq<TaxLineOut>, interState: bool)
    requires forall l :: l in out ==> NonNegative(l) && LineReconciles(l, interState)
    ensures Sum(out, Taxable) >= 0 && Sum(out, Tax) >= 0 && Sum(out, Gross) >= 0
    ensures forall x :: x in Components(Sum(out, Cgst), Sum(out, Sgst), Sum(out, Igst), interState) ==> x.minor >= 0
  {
    SumsReconcile(out, interState);
    SumIsNonNegative(out, "", Taxable); SumIsNonNegative(out, "", Tax); SumIsNonNegative(out, "", Gross);
  }

  /** Whatever is issued at rates up to 200.000004 % (or at any rate across states, or with tax on top) has no negative figure. */
  lemma {:induction false} IssuedIsNonNegative(lines: seq<TaxLineIn>, mode: PricingMode, interState: bool)
    requires OrdinaryRates(lines, mode, interState)
    ensures NonNegativeInvoice(InvoiceOf(lines, mode, interState))
  {
    LinesAreSound(lines, mode, interState);
    var out := CalcLines(lines, mode, interState);
    SumsAreNonNegative(out, interState);
    GroupsShownAreNonNegative(out);
  }

  /** So it is read back from its snapshot as issued. */
  lemma {:induction false} IssuedInvoiceReadsBack(lines: seq<TaxLineIn>, mode: PricingMode, interState: bool)
    requires OrdinaryRates(lines, mode, interState)
    ensures var c := InvoiceOf(lines, mode, interState); SameFigures(FromSnapshot(Snapshot(c)), c)
  {
    IssuedIsNonNegative(lines, mode, interState);
    SnapshotRoundTrip(InvoiceOf(lines, mode, interState));
  }

  /** Every invoice whose lines are all at rate R is read back from its snapshot as issued. */
  ghost predicate AllReadBack(R: nat, mode: PricingMode, interState: bool) {
    forall lines: seq<TaxLineIn> :: AllAtRate(lines, R) ==> ReadsBack(lines, mode, interState)
  }

  predicate AllAtRate(lines: seq<TaxLineIn>, R: nat) { forall i :: 0 <= i < |lines| ==> LineRate(lines[i]) == R }

  predicate ReadsBack(lines: seq<TaxLineIn>, mode: PricingMode, interState: bool) {
    var c := InvoiceOf(lines, mode, interState); SameFigures(FromSnapshot(Snapshot(c)), c)
  }

  lemma {:induction false} NegativeLineIsLost(l: TaxLineIn, mode: PricingMode, interState: bool)
    requires !NonNegative(CalcLine(l, mode, interState))
    ensures !ReadsBack([l], mode, interState)
  {
    var c := InvoiceOf([l], mode, interState);
    assert c.lines[0] == CalcLine(l, mode, interState) && c.lines[0] in c.lines;
    SnapshotRoundTrip(c);
  }

  /** The stored copy gives back every invoice at rate R exactly when R is safe. */
  lemma {:induction false} ReadsBackExactly(R: nat, mode: PricingMode, interState: bool)
    ensures AllReadBack(R, mode, interState) <==> SafeRate(R, mode, interState)
  {
    if SafeRate(R, mode, interState) {
      forall lines: seq<TaxLineIn> | AllAtRate(lines, R)
        ensures ReadsBack(lines, mode, interState)
      {
        IssuedInvoiceReadsBack(lines, mode, interState);
      }
    } else {
      TaxableCanGoNegative(R);
      NegativeLineIsLost(SmallLine(R), mode, interState);
      assert AllAtRate([SmallLine(R)], R);
    }
  }
}
