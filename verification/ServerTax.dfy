/** The server's tax engines: India's GST and the other countries'. */
module ServerTax {
  // internal/modules/gstindia/engine.go, and the arithmetic shared in internal/modules/taxregimes/common.go.
  //
  // Amounts count in 10^-10 of the currency.  Rates count in half units of 10^-12 percent, so the half of a
  // twelve-decimal GST rate is whole.  `Div` keeps 16 decimals; `Round` keeps the currency's.

  import opened Rounding
  import opened Decimals
  import opened PhoneTax

  const RATE_UNIT: int := 200_000_000_000_000  // 100 percent, twice, in 10^-12 percent
  const TO16: int := 1_000_000                 // 10^-10 to 10^-16

  datatype Result<+T> = Ok(value: T) | Err(error: TaxError)

  datatype TaxError = NoLines | UnknownState(code: string) | RateNotConfigured(hsn: string)

  datatype ComponentRate = ComponentRate(kind: string, rate: nat)

  datatype ServerComponent = ServerComponent(kind: string, rate: nat, amount: int)

  datatype ServerLine = ServerLine(gross: int, taxable: int, tax: int, components: seq<ServerComponent>)

  datatype RateRow = RateRow(gst: nat, cess: nat)  // 10^-12 percent

  datatype TaxableLine = TaxableLine(hsn: string, amount: int, mode: PricingMode)

  // ---- what a line comes to -----------------------------------------------------------------

  function Combined(rates: seq<ComponentRate>): nat {
    if rates == [] then 0 else Combined(rates[..|rates| - 1]) + rates[|rates| - 1].rate
  }

  /** The taxable value before rounding, at 16 decimals. */
  function Unrounded(amount: int, combined: nat, mode: PricingMode): int {
    match mode
    case INCLUSIVE => RoundAway(amount * TO16 * RATE_UNIT, RATE_UNIT + combined)
    case EXCLUSIVE => amount * TO16
  }

  /** taxable x rate / 100, divided at 16 decimals. */
  function UnroundedComponent(unrounded: int, rate: nat): int { RoundAway(unrounded * rate, RATE_UNIT) }

  function Round16(x: int, digits: nat): int
    requires digits <= 4
  {
    RoundAway(x, Pow10(16 - digits))
  }

  function Round10(x: int, digits: nat): int
    requires digits <= 4
  {
    RoundAway(x, Pow10(10 - digits))
  }

  function RoundedComponents(unrounded: int, rates: seq<ComponentRate>, digits: nat): (cs: seq<ServerComponent>)
    requires digits <= 4
    ensures |cs| == |rates|
  {
    seq(|rates|, i requires 0 <= i < |rates| =>
      ServerComponent(rates[i].kind, rates[i].rate, Round16(UnroundedComponent(unrounded, rates[i].rate), digits)))
  }

  function Total(cs: seq<ServerComponent>): int {
    if cs == [] then 0 else Total(cs[..|cs| - 1]) + cs[|cs| - 1].amount
  }

  /** The line both engines must produce for the same component rates. */
  function LineOf(amount: int, mode: PricingMode, rates: seq<ComponentRate>, digits: nat): ServerLine
    requires digits <= 4
  {
    var unrounded := Unrounded(amount, Combined(rates), mode);
    var cs := RoundedComponents(unrounded, rates, digits);
    match mode
    case INCLUSIVE => ServerLine(Round10(amount, digits), Round10(amount, digits) - Total(cs), Total(cs), cs)
    case EXCLUSIVE => ServerLine(Round16(unrounded, digits) + Total(cs), Round16(unrounded, digits), Total(cs), cs)
  }

  /** The component rates of Indian GST: two halves inside a state, one whole across states, cess on top. */
  function GstRates(row: RateRow, intraState: bool, unionTerritory: bool): seq<ComponentRate> {
    (if row.gst == 0 then []
     else if intraState then [ComponentRate("CGST", row.gst), ComponentRate(if unionTerritory then "UTGST" else "SGST", row.gst)]
     else [ComponentRate("IGST", 2 * row.gst)])
    + if row.cess == 0 then [] else [ComponentRate("CESS", 2 * row.cess)]
  }

  // ---- the two engines ----------------------------------------------------------------------

  lemma {:induction false} CombinedStep(rates: seq<ComponentRate>, i: nat)
    requires i < |rates|
    ensures Combined(rates[..i + 1]) == Combined(rates[..i]) + rates[i].rate
  {
    assert rates[..i + 1][..i] == rates[..i];
  }

  /** computeLine: any number of components, each rounded as it is appended. */
  method ComputeLine(amount: int, mode: PricingMode, rates: seq<ComponentRate>, digits: nat) returns (r: ServerLine)
    requires digits <= 4
    ensures r == LineOf(amount, mode, rates, digits)
  {
    var combined := 0;
    for i := 0 to |rates|
      invariant combined == Combined(rates[..i])
    {
      CombinedStep(rates, i);
      combined := combined + rates[i].rate;
    }
    assert rates[..|rates|] == rates;
    var unrounded := Unrounded(amount, combined, mode);
    var tax := 0;
    var cs: seq<ServerComponent> := [];
    ghost var all := RoundedComponents(unrounded, rates, digits);
    for i := 0 to |rates|
      invariant cs == all[..i]
      invariant tax == Total(cs)
    {
      var c := ServerComponent(rates[i].kind, rates[i].rate, Round16(UnroundedComponent(unrounded, rates[i].rate), digits));
      assert (cs + [c])[..i] == cs;
      cs := cs + [c];
      tax := tax + c.amount;
    }
    assert all[..|rates|] == all;
    match mode {
      case INCLUSIVE =>
        var gross := Round10(amount, digits);
        r := ServerLine(gross, gross - tax, tax, cs);
      case EXCLUSIVE =>
        var taxable := Round16(unrounded, digits);
        r := ServerLine(taxable + tax, taxable, tax, cs);
    }
  }

  lemma {:induction false} CombinedAppend(rates: seq<ComponentRate>, c: ComponentRate)
    ensures Combined(rates + [c]) == Combined(rates) + c.rate
  {
    assert (rates + [c])[..|rates|] == rates;
  }

  /** The two engines divide by the same thing: the component rates add up to GST plus cess. */
  lemma {:induction false} CombinedOfGst(row: RateRow, intraState: bool, unionTerritory: bool)
    ensures Combined(GstRates(row, intraState, unionTerritory)) == 2 * (row.gst + row.cess)
  {
    var gst := GstRates(row.(cess := 0), intraState, unionTerritory);
    if row.gst > 0 {
      CombinedAppend([], gst[0]);
      assert [] + [gst[0]] == [gst[0]];
      if intraState {
        CombinedAppend([gst[0]], gst[1]);
        assert [gst[0]] + [gst[1]] == gst;
      }
    }
    var cess := ComponentRate("CESS", 2 * row.cess);
    CombinedAppend(gst, cess);
    assert GstRates(row, intraState, unionTerritory) == if row.cess == 0 then gst else gst + [cess];
  }

  /** newComponent, for the components a GST row calls for: nothing is rounded to the currency yet. */
  method NewComponents(unrounded: int, row: RateRow, intraState: bool, unionTerritory: bool) returns (cs: seq<ServerComponent>)
    ensures var rates := GstRates(row, intraState, unionTerritory);
      |cs| == |rates| && forall k :: 0 <= k < |cs| ==> cs[k] == ServerComponent(rates[k].kind, rates[k].rate, UnroundedComponent(unrounded, rates[k].rate))
  {
    cs := [];
    if row.gst > 0 {
      if intraState {
        var second := if unionTerritory then "UTGST" else "SGST";
        cs := cs + [ServerComponent("CGST", row.gst, UnroundedComponent(unrounded, row.gst)), ServerComponent(second, row.gst, UnroundedComponent(unrounded, row.gst))];
      } else {
        cs := cs + [ServerComponent("IGST", 2 * row.gst, UnroundedComponent(unrounded, 2 * row.gst))];
      }
    }
    if row.cess > 0 {
      cs := cs + [ServerComponent("CESS", 2 * row.cess, UnroundedComponent(unrounded, 2 * row.cess))];
    }
  }

  function RoundOne(c: ServerComponent, digits: nat): ServerComponent
    requires digits <= 4
  {
    c.(amount := Round16(c.amount, digits))
  }

  /** The single rounding point: every component overwritten by its rounded amount and added to the tax. */
  method RoundComponents(unroundedComponents: seq<ServerComponent>, digits: nat) returns (cs: seq<ServerComponent>, tax: int)
    requires digits <= 4
    ensures |cs| == |unroundedComponents| && forall k :: 0 <= k < |cs| ==> cs[k] == RoundOne(unroundedComponents[k], digits)
    ensures tax == Total(cs)
  {
    cs, tax := unroundedComponents, 0;
    for i := 0 to |cs|
      invariant |cs| == |unroundedComponents|
      invariant forall k :: 0 <= k < i ==> cs[k] == RoundOne(unroundedComponents[k], digits)
      invariant forall k :: i <= k < |cs| ==> cs[k] == unroundedComponents[k]
      invariant tax == Total(cs[..i])
    {
      var rounded := Round16(cs[i].amount, digits);
      ghost var before := cs[..i];
      cs := cs[i := cs[i].(amount := rounded)];
      assert cs[..i + 1][..i] == before;
      tax := tax + rounded;
    }
    assert cs[..|cs|] == cs;
  }

  /** calculateLine */
  method CalculateLine(amount: int, mode: PricingMode, row: RateRow, intraState: bool, unionTerritory: bool, digits: nat) returns (r: ServerLine)
    requires digits <= 4
    ensures r == LineOf(amount, mode, GstRates(row, intraState, unionTerritory), digits)
  {
    CombinedOfGst(row, intraState, unionTerritory);
    var unrounded := Unrounded(amount, 2 * (row.gst + row.cess), mode);
    var raw := NewComponents(unrounded, row, intraState, unionTerritory);
    var cs, tax := RoundComponents(raw, digits);
    assert cs == RoundedComponents(unrounded, GstRates(row, intraState, unionTerritory), digits);
    match mode {
      case INCLUSIVE =>
        var gross := Round10(amount, digits);
        r := ServerLine(gross, gross - tax, tax, cs);
      case EXCLUSIVE =>
        var taxable := Round16(unrounded, digits);
        r := ServerLine(taxable + tax, taxable, tax, cs);
    }
  }

  // ---- a document ---------------------------------------------------------------------------

  datatype Document = Document(lines: seq<ServerLine>, taxable: int, tax: int, grand: int)

  function SumTaxable(ls: seq<ServerLine>): int { if ls == [] then 0 else SumTaxable(ls[..|ls| - 1]) + ls[|ls| - 1].taxable }

  function SumTax(ls: seq<ServerLine>): int { if ls == [] then 0 else SumTax(ls[..|ls| - 1]) + ls[|ls| - 1].tax }

  function SumGross(ls: seq<ServerLine>): int { if ls == [] then 0 else SumGross(ls[..|ls| - 1]) + ls[|ls| - 1].gross }

  /** The lines of a document, each figured at its own configured rate. */
  function LinesOf(lines: seq<TaxableLine>, rates: map<string, RateRow>, intraState: bool, unionTerritory: bool, digits: nat): (r: seq<ServerLine>)
    requires digits <= 4 && forall i :: 0 <= i < |lines| ==> lines[i].hsn in rates
    ensures |r| == |lines|
  {
    if lines == [] then [] else
    var l := lines[|lines| - 1];
    LinesOf(lines[..|lines| - 1], rates, intraState, unionTerritory, digits) + [LineOf(l.amount, l.mode, GstRates(rates[l.hsn], intraState, unionTerritory), digits)]
  }

  /** The first k lines have rates and are figured, with their sums. */
  predicate Figured(lines: seq<TaxableLine>, k: nat, rates: map<string, RateRow>, intraState: bool, unionTerritory: bool, digits: nat, out: seq<ServerLine>, taxable: int, tax: int)
    requires digits <= 4
  {
    && k <= |lines| && (forall i :: 0 <= i < k ==> lines[i].hsn in rates)
    && out == LinesOf(lines[..k], rates, intraState, unionTerritory, digits) && taxable == SumTaxable(out) && tax == SumTax(out)
  }

  /** One more line of a document. */
  method NextLine(lines: seq<TaxableLine>, k: nat, rates: map<string, RateRow>, intraState: bool, unionTerritory: bool, digits: nat) returns (l: ServerLine)
    requires digits <= 4 && k < |lines| && forall i :: 0 <= i <= k ==> lines[i].hsn in rates
    ensures LinesOf(lines[..k + 1], rates, intraState, unionTerritory, digits) == LinesOf(lines[..k], rates, intraState, unionTerritory, digits) + [l]
  {
    l := CalculateLine(lines[k].amount, lines[k].mode, rates[lines[k].hsn], intraState, unionTerritory, digits);
    assert lines[..k + 1][..k] == lines[..k];
  }

  lemma {:induction false} SumsMore(out: seq<ServerLine>, l: ServerLine)
    ensures SumTaxable(out + [l]) == SumTaxable(out) + l.taxable && SumTax(out + [l]) == SumTax(out) + l.tax
  {
    assert (out + [l])[..|out|] == out;
  }

  lemma {:induction false} FiguredMore(lines: seq<TaxableLine>, k: nat, rates: map<string, RateRow>, intraState: bool, unionTerritory: bool, digits: nat, out: seq<ServerLine>, taxable: int, tax: int, l: ServerLine)
    requires digits <= 4 && Figured(lines, k, rates, intraState, unionTerritory, digits, out, taxable, tax)
    requires k < |lines| && lines[k].hsn in rates
    requires LinesOf(lines[..k + 1], rates, intraState, unionTerritory, digits) == LinesOf(lines[..k], rates, intraState, unionTerritory, digits) + [l]
    ensures Figured(lines, k + 1, rates, intraState, unionTerritory, digits, out + [l], taxable + l.taxable, tax + l.tax)
  {
    SumsMore(out, l);
  }

  /** Line i is the first without a configured rate. */
  predicate FirstUnknown(lines: seq<TaxableLine>, rates: map<string, RateRow>, i: int) {
    0 <= i < |lines| && lines[i].hsn !in rates && forall k :: 0 <= k < i ==> lines[k].hsn in rates
  }

  method FigureNext(lines: seq<TaxableLine>, k: nat, rates: map<string, RateRow>, intraState: bool, unionTerritory: bool, digits: nat, ghost out: seq<ServerLine>, ghost taxable: int, ghost tax: int)
    returns (l: ServerLine)
    requires digits <= 4 && Figured(lines, k, rates, intraState, unionTerritory, digits, out, taxable, tax)
    requires k < |lines| && lines[k].hsn in rates
    ensures Figured(lines, k + 1, rates, intraState, unionTerritory, digits, out + [l], taxable + l.taxable, tax + l.tax)
  {
    l := NextLine(lines, k, rates, intraState, unionTerritory, digits);
    FiguredMore(lines, k, rates, intraState, unionTerritory, digits, out, taxable, tax, l);
  }

  /** The loop over the lines, up to the first without a rate. */
  method FigureLines(lines: seq<TaxableLine>, rates: map<string, RateRow>, intraState: bool, unionTerritory: bool, digits: nat)
    returns (out: seq<ServerLine>, taxable: int, tax: int, stopped: nat)
    requires digits <= 4
    ensures Figured(lines, stopped, rates, intraState, unionTerritory, digits, out, taxable, tax)
    ensures stopped < |lines| ==> lines[stopped].hsn !in rates
  {
    out, taxable, tax, stopped := [], 0, 0, 0;
    while stopped < |lines|
      invariant Figured(lines, stopped, rates, intraState, unionTerritory, digits, out, taxable, tax)
    {
      if lines[stopped].hsn !in rates {
        return;
      }
      var l := FigureNext(lines, stopped, rates, intraState, unionTerritory, digits, out, taxable, tax);
      out, taxable, tax := out + [l], taxable + l.taxable, tax + l.tax;
      stopped := stopped + 1;
    }
  }

  /** Calculate: the whole document, or a refusal naming the first line without a rate configured for its date. */
  method Calculate(lines: seq<TaxableLine>, rates: map<string, RateRow>, states: map<string, bool>, supplierState: string, place: string, digits: nat)
    returns (r: Result<Document>)
    requires digits <= 4
    ensures r.Ok? <==> lines != [] && place in states && forall i :: 0 <= i < |lines| ==> lines[i].hsn in rates
    ensures r.Ok? ==> var ls := LinesOf(lines, rates, supplierState == place, states[place], digits);
                      r.value == Document(ls, SumTaxable(ls), SumTax(ls), SumTaxable(ls) + SumTax(ls))
    ensures r == Err(NoLines) <==> lines == []
    ensures r == Err(UnknownState(place)) <==> lines != [] && place !in states
    ensures r.Err? && lines != [] && place in states ==> exists i :: FirstUnknown(lines, rates, i) && r == Err(RateNotConfigured(lines[i].hsn))
  {
    if lines == [] {
      return Err(NoLines);
    }
    if place !in states {
      return Err(UnknownState(place));
    }
    var out, taxable, tax, stopped := FigureLines(lines, rates, supplierState == place, states[place], digits);
    if stopped < |lines| {
      return Err(RateNotConfigured(lines[stopped].hsn));
    }
    assert lines[..stopped] == lines;
    r := Ok(Document(out, taxable, tax, taxable + tax));
  }

  // ---- laws ---------------------------------------------------------------------------------

  /** Whatever the number of components and the sign of the amount, a line reconciles to what was entered. */
  lemma {:induction false} LineReconcilesToEntry(amount: int, mode: PricingMode, rates: seq<ComponentRate>, digits: nat)
    requires digits <= 4
    ensures var l := LineOf(amount, mode, rates, digits);
      && l.taxable + l.tax == l.gross && l.tax == Total(l.components)
      && (if mode == INCLUSIVE then l.gross else l.taxable) == Round10(amount, digits)
  {
    if mode == EXCLUSIVE {
      RoundedAtBothScales(amount, digits);
    }
  }

  lemma {:induction false} RoundedAtBothScales(amount: int, digits: nat)
    requires digits <= 4
    ensures Round16(amount * TO16, digits) == Round10(amount, digits)
  {
    var a: nat := if amount < 0 then -amount else amount;
    PowSplit(digits);
    RoundScale(a, Pow10(10 - digits), TO16);
    assert a * TO16 == TO16 * a;
  }

  lemma {:induction false} PowSplit(digits: nat)
    requires digits <= 4
    ensures Pow10(16 - digits) == TO16 * Pow10(10 - digits)
  {
    var p := Pow10(10 - digits);
    assert Pow10(11 - digits) == 10 * p;
    assert Pow10(12 - digits) == 100 * p;
    assert Pow10(13 - digits) == 1_000 * p;
    assert Pow10(14 - digits) == 10_000 * p;
    assert Pow10(15 - digits) == 100_000 * p;
  }

  /** The grand total of a document is the sum of its lines' gross amounts. */
  lemma {:induction false} GrandTotalIsSumOfGross(ls: seq<ServerLine>)
    requires forall i :: 0 <= i < |ls| ==> ls[i].taxable + ls[i].tax == ls[i].gross
    ensures SumTaxable(ls) + SumTax(ls) == SumGross(ls)
  {
    if ls != [] {
      GrandTotalIsSumOfGross(ls[..|ls| - 1]);
    }
  }

  lemma {:induction false} RoundAwaySign(n: int, d: nat)
    requires d > 0
    ensures RoundAway(-n, d) == -RoundAway(n, d)
  {
    RoundExact(0, d);
  }

  lemma {:induction false} HalvesOfUnit(n: nat)
    ensures -1 <= 2 * RoundHalfUp(n, RATE_UNIT) as int - RoundHalfUp(2 * n, RATE_UNIT) as int <= 1
  {}

  lemma {:induction false} TwoSteps(a: int, m: int)
    ensures (2 * a + 2) * m == 2 * (a * m) + 2 * m && (2 * a - 2) * m == 2 * (a * m) - 2 * m
  {}

  /** If f is within 1 of 2h, then rounding h to an even m and doubling is within 1 of rounding f. */
  lemma {:induction false} NearbyRounding(h: int, f: int, m: nat, a: int, b: int)
    requires m > 0 && m % 2 == 0 && -1 <= 2 * h - f <= 1
    requires 2 * (a * m) - m <= 2 * h < 2 * (a * m) + m
    requires 2 * (b * m) - m <= 2 * f < 2 * (b * m) + m
    ensures -1 <= 2 * a - b <= 1
  {
    TwoSteps(a, m);
    NearbyBands(h, f, m / 2, a * m, b * m);
    if b > 2 * a + 1 { MulLe(2 * a + 2, b, m); }
    if b < 2 * a - 1 { MulLe(b, 2 * a - 2, m); }
  }

  lemma {:induction false} NearbyBands(h: int, f: int, k: int, x: int, y: int)
    requires k > 0 && -1 <= 2 * h - f <= 1
    requires 2 * x - 2 * k <= 2 * h < 2 * x + 2 * k
    requires 2 * y - 2 * k <= 2 * f < 2 * y + 2 * k
    ensures 2 * x - 4 * k < y < 2 * x + 4 * k
  {}

  lemma {:induction false} NearbyHalves(h: nat, f: nat, m: nat)
    requires m > 0 && m % 2 == 0 && -1 <= 2 * h as int - f <= 1
    ensures -1 <= 2 * RoundHalfUp(h, m) as int - RoundHalfUp(f, m) as int <= 1
  {
    NearbyRounding(h, f, m, RoundHalfUp(h, m), RoundHalfUp(f, m));
  }

  lemma {:induction false} EvenPow(n: nat)
    requires n > 0
    ensures Pow10(n) % 2 == 0
  {
    assert Pow10(n) == 2 * (5 * Pow10(n - 1));
  }

  lemma {:induction false} DoubleRate(u: int, r: int)
    ensures u * (2 * r) == 2 * (u * r)
  {
    Reassoc(u, 2, r);
    Reassoc(2, u, r);
    Commute(u, 2);
  }

  /** A component as the line carries it. */
  function Rounded(unrounded: int, rate: nat, digits: nat): int
    requires digits <= 4
  {
    Round16(UnroundedComponent(unrounded, rate), digits)
  }

  lemma {:induction false} HalvesOfAmount(u: nat, rate: nat, digits: nat)
    requires digits <= 4
    ensures -1 <= 2 * Rounded(u, rate, digits) - Rounded(u, 2 * rate, digits) <= 1
  {
    var n: nat := u * rate;
    DoubleRate(u, rate);
    HalvesOfUnit(n);
    EvenPow(16 - digits);
    NearbyHalves(RoundHalfUp(n, RATE_UNIT), RoundHalfUp(2 * n, RATE_UNIT), Pow10(16 - digits));
  }

  lemma {:induction false} RoundedSign(u: int, rate: nat, digits: nat)
    requires digits <= 4
    ensures Rounded(-u, rate, digits) == -Rounded(u, rate, digits)
  {
    assert -u * rate == -(u * rate);
    RoundAwaySign(u * rate, RATE_UNIT);
    RoundAwaySign(RoundAway(u * rate, RATE_UNIT), Pow10(16 - digits));
  }

  lemma {:induction false} HalvesOfAnyAmount(u: int, rate: nat, digits: nat)
    requires digits <= 4
    ensures -1 <= 2 * Rounded(u, rate, digits) - Rounded(u, 2 * rate, digits) <= 1
  {
    if u >= 0 {
      HalvesOfAmount(u, rate, digits);
    } else {
      HalvesOfAmount(-u, rate, digits);
      RoundedSign(u, rate, digits);
      RoundedSign(u, 2 * rate, digits);
    }
  }

  lemma {:induction false} RoundedMore(u: int, rates: seq<ComponentRate>, c: ComponentRate, digits: nat)
    requires digits <= 4
    ensures Total(RoundedComponents(u, rates + [c], digits)) == Total(RoundedComponents(u, rates, digits)) + Rounded(u, c.rate, digits)
  {
    var cs := RoundedComponents(u, rates + [c], digits);
    assert cs[..|rates|] == RoundedComponents(u, rates, digits);
  }

  /** The tax of a GST line: two halves or the whole, and cess. */
  lemma {:induction false} TaxOfGst(u: int, row: RateRow, intraState: bool, unionTerritory: bool, digits: nat)
    requires digits <= 4
    ensures Total(RoundedComponents(u, GstRates(row, intraState, unionTerritory), digits))
         == (if row.gst == 0 then 0 else if intraState then 2 * Rounded(u, row.gst, digits) else Rounded(u, 2 * row.gst, digits))
            + if row.cess == 0 then 0 else Rounded(u, 2 * row.cess, digits)
  {
    var gst := GstRates(row.(cess := 0), intraState, unionTerritory);
    assert RoundedComponents(u, [], digits) == [];
    if row.gst > 0 {
      RoundedMore(u, [], gst[0], digits);
      assert [] + [gst[0]] == [gst[0]];
      if intraState {
        RoundedMore(u, [gst[0]], gst[1], digits);
        assert [gst[0]] + [gst[1]] == gst;
      }
    }
    RoundedMore(u, gst, ComponentRate("CESS", 2 * row.cess), digits);
    assert GstRates(row, intraState, unionTerritory) == if row.cess == 0 then gst else gst + [ComponentRate("CESS", 2 * row.cess)];
  }

  /** For any amount, in both pricing modes and with any cess: the tax of a line inside a state and between states
      differs by at most one minor unit. */
  lemma {:induction false} HalvesNearWhole(amount: int, mode: PricingMode, row: RateRow, unionTerritory: bool, digits: nat)
    requires digits <= 4
    ensures -1 <= LineOf(amount, mode, GstRates(row, true, unionTerritory), digits).tax
                  - LineOf(amount, mode, GstRates(row, false, unionTerritory), digits).tax <= 1
  {
    CombinedOfGst(row, true, unionTerritory);
    CombinedOfGst(row, false, unionTerritory);
    var u := Unrounded(amount, 2 * (row.gst + row.cess), mode);
    TaxOfGst(u, row, true, unionTerritory, digits);
    TaxOfGst(u, row, false, unionTerritory, digits);
    HalvesOfAnyAmount(u, row.gst, digits);
    LineReconcilesToEntry(amount, mode, GstRates(row, true, unionTerritory), digits);
    LineReconcilesToEntry(amount, mode, GstRates(row, false, unionTerritory), digits);
  }

  /** 0.20 at 5 %, tax on top: one half is half a paisa, so the two halves make two paise and the whole makes one. */
  lemma {:induction false} HalvesCanDiffer()
    ensures var row := RateRow(5_000_000_000_000, 0);
            var inside, across := LineOf(2_000_000_000, EXCLUSIVE, GstRates(row, true, false), 2), LineOf(2_000_000_000, EXCLUSIVE, GstRates(row, false, false), 2);
            inside.tax == 2 && across.tax == 1
  {
    var row := RateRow(5_000_000_000_000, 0);
    CombinedOfGst(row, true, false);
    CombinedOfGst(row, false, false);
    var u := 2_000_000_000_000_000;
    var half := RoundedComponents(u, GstRates(row, true, false), 2);
    var whole := RoundedComponents(u, GstRates(row, false, false), 2);
    assert Pow10(14) == 100_000_000_000_000;
    RoundUnique(u * 5_000_000_000_000, RATE_UNIT, 50_000_000_000_000);
    RoundUnique(50_000_000_000_000, 100_000_000_000_000, 1);
    RoundUnique(u * 10_000_000_000_000, RATE_UNIT, 100_000_000_000_000);
    RoundUnique(100_000_000_000_000, 100_000_000_000_000, 1);
    assert half[0].amount == 1 && half[1].amount == 1 && whole[0].amount == 1;
    assert half[..1][..0] == [] && Total(half[..1]) == 1;
    assert whole[..0] == [];
  }
}
