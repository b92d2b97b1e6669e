/** When the phone and the server agree on tax, and when not. */
module TaxAgreement {
  // "An invoice made on the phone and the one the server books cannot disagree" (apps/mobile/src/lib/tax.ts:34-40):
  // when that holds, and an invoice on which it does not.
  //
  // The phone rounds one exact ratio of the amount entered; the server takes the line total it has stored at six
  // decimals (internal/modules/sales/app/service.go:650-658), divides twice at 16 decimals and then rounds.  A component
  // is either exactly on a rounding tie, where the server's divisions happen to be exact, or a gap away from
  // one that is wider than everything the server's divisions can lose.

  import opened Wrappers
  import opened Rounding
  import opened Decimals
  import opened PhoneTax
  import opened ServerTax
  import opened InvoiceLaws

  const E7: int := 10_000_000
  const E10: int := 10_000_000_000
  const E12: int := 1_000_000_000_000
  const E14: int := 100_000_000_000_000
  const E18: int := 1_000_000_000_000_000_000

  lemma {:induction false} Swap3(a: int, b: int, c: int)
    ensures a * b * c == a * c * b
  {}

  /** The two divisions of the server, over any amount, rate, divisor and scale factors. */
  lemma {:induction false} TwoDivisions(G: nat, p: nat, E: nat, R: nat, w: nat, s: nat, T: nat, C: nat)
    requires E > 0 && w * s > 0
    requires T == RoundHalfUp(G * p, E)
    requires C == RoundHalfUp(T * R, w * s)
    ensures -(E * R + w * s * E) <= 2 * (C * (w * E) * s) - 2 * (G * R * p) <= E * R + w * s * E
  {
    RoundedTimes(G * p, E, R);
    RoundedTimes(T * R, w * s, E);
    Swap3(T, E, R);
    Swap3(G, p, R);
    var V := w * s;
    assert C * V * E == C * (w * E) * s by {
      Reassoc(C, V, E);
      Swap3(w, s, E);
      Reassoc(C, w * E, s);
    }
  }

  /** How far the server's figure C (in 10^-16) can drift from the exact component: less than a gap. */
  lemma {:induction false} ServerDrift(G: nat, R: nat, w: nat, T: nat, C: nat)
    requires 0 < R <= E12 && 1 <= w <= 2
    requires T == RoundHalfUp(G * E18, E12 + R)
    requires C == RoundHalfUp(T * R, w * E12)
    ensures -6 * E12 * E12 <= 2 * (C * (w * (E12 + R)) * E12) - 2 * (G * R * E18) <= 6 * E12 * E12
  {
    TwoDivisions(G, E18, E12 + R, R, w, E12, T, C);
    ProductBound(E12 + R, R, 2 * E12, E12);
    ProductBound(w * E12, E12 + R, 2 * E12, 2 * E12);
  }

  /** Above the half-way point m + 1/2 or below it: a factor Z > 0 does not change the side. */
  lemma {:induction false} CancelFactor(P: int, C: int, Z: nat)
    requires Z > 0
    ensures 2 * (C * Z) < (2 * (P * Z) + Z) * E14 ==> 2 * C < 2 * (P * E14) + E14
    ensures (2 * (P * Z) - Z) * E14 <= 2 * (C * Z) ==> 2 * (P * E14) - E14 <= 2 * C
  {
    Expand(P, C, Z);
    if 2 * C >= 2 * (P * E14) + E14 {
      MulLe(2 * (P * E14) + E14, 2 * C, Z);
    }
    if 2 * (P * E14) - E14 > 2 * C {
      MulLt(2 * C, 2 * (P * E14) - E14, Z);
    }
  }

  lemma {:induction false} Expand(P: int, C: int, Z: int)
    ensures (2 * (P * E14) + E14) * Z == (2 * (P * Z) + Z) * E14
    ensures (2 * (P * E14) - E14) * Z == (2 * (P * Z) - Z) * E14
    ensures 2 * C * Z == 2 * (C * Z)
  {}

  /** On a tie the exact taxable value has at most 16 decimals, so neither division rounds anything. */
  lemma {:induction false} TieIsExact(G: nat, R: nat, w: nat, P: nat, T: nat, C: nat)
    requires 0 < R <= E12 && 1 <= w <= 2
    requires T == RoundHalfUp(G * E18, E12 + R)
    requires C == RoundHalfUp(T * R, w * E12)
    requires 200 * (G * R) == E10 * (2 * P - 1) * (w * (E12 + R))
    ensures 2 * C == (2 * P - 1) * E14
  {
    var E := E12 + R;
    var j := TieFactor(G, R, w, P);
    RoundExact(5000 * j, E);
    assert T == 5000 * j;
    var h := (2 * P - 1) * (E14 / 2);
    TieProduct(G, R, w, P, T);
    assert h >= 0 by { if h < 0 { MulLe(h, -1, w * E12); } }
    RoundExact(h, w * E12);
  }

  lemma {:induction false} TieFactor(G: nat, R: nat, w: nat, P: nat) returns (j: nat)
    requires 200 * (G * R) == E10 * (2 * P - 1) * (w * (E12 + R))
    ensures 5000 * j * (E12 + R) == G * E18
  {
    var E := E12 + R;
    var m := E10 * (2 * P - 1) * w;
    Reassoc(E10 * (2 * P - 1), w, E);
    var i := 200 * G - m;
    assert i * E == 200 * (G * E12) by { Spread(G, m, E, R); }
    assert i >= 0 by { if i < 0 { MulLe(i, -1, E); } }
    j := i;
    Reassoc(5000, j, E);
  }

  lemma {:induction false} Spread(G: int, m: int, E: int, R: int)
    requires E == E12 + R && m * E == 200 * (G * R)
    ensures (200 * G - m) * E == 200 * (G * E12)
  {
    assert G * E == G * E12 + G * R;
    assert (200 * G - m) * E == 200 * (G * E) - m * E;
  }

  lemma {:induction false} TieProduct(G: nat, R: nat, w: nat, P: nat, T: nat)
    requires T * (E12 + R) == G * E18
    requires 200 * (G * R) == E10 * (2 * P - 1) * (w * (E12 + R))
    ensures T * R == (2 * P - 1) * (E14 / 2) * (w * E12)
  {
    var E, q := E12 + R, 2 * P - 1;
    assert T * R * E == G * R * E18 by { Swap3(T, E, R); Swap3(G, E18, R); }
    assert E10 * q * (w * E) == E10 * (q * w * E) by { Reassoc(q, w, E); Reassoc(E10, q, w * E); }
    assert q * (E14 / 2) * (w * E12) * E == E14 / 2 * E12 * (q * w * E) by { Shuffle(q, w, E); }
    CancelEq(T * R, q * (E14 / 2) * (w * E12), E);
  }

  lemma {:induction false} Shuffle(q: int, w: int, E: int)
    ensures q * (E14 / 2) * (w * E12) * E == E14 / 2 * E12 * (q * w * E)
  {
    Swap3(q, w, E);
  }

  lemma {:induction false} CancelEq(a: int, b: int, c: nat)
    requires c > 0 && a * c == b * c
    ensures a == b
  {
    if a < b { MulLt(a, b, c); }
    if b < a { MulLt(b, a, c); }
  }

  /** The heart of the agreement.  Left: the phone's single rounding of the exact ratio.  Right: the
      server's two 16-decimal divisions followed by the final rounding.  The product G * R counts in
      10^-20, so `G * R % 10^7 == 0` says that amount and rate have at most 13 decimals between them. */
  lemma {:induction false} ComponentAgrees(G: nat, R: nat, w: nat, T: nat, C: nat)
    requires 0 < R <= E12 && 1 <= w <= 2
    requires G * R % E7 == 0
    requires T == RoundHalfUp(G * E18, E12 + R)
    requires C == RoundHalfUp(T * R, w * E12)
    ensures RoundHalfUp(100 * (G * R), E10 * (w * (E12 + R))) == RoundHalfUp(C, E14)
  {
    var Z: int, K: int := w * (E12 + R), G * R;
    var P: int := RoundHalfUp(100 * K, E10 * Z);
    PhoneBand(K, Z, P);
    ServerDrift(G, R, w, T, C);
    OffTheTie(P, Z, K, C);
    if 200 * K == E10 * (2 * P - 1) * Z {
      TieIsExact(G, R, w, P, T, C);
    }
    RoundUnique(C, E14, P);
  }

  lemma {:induction false} OffTheTie(P: nat, Z: nat, K: nat, C: nat)
    requires Z > 0 && K % E7 == 0
    requires E10 * (2 * (P * Z) - Z) <= 200 * K < E10 * (2 * (P * Z) + Z)
    requires -6 * E12 * E12 <= 2 * (C * Z * E12) - 2 * (K * E18) <= 6 * E12 * E12
    ensures 2 * C < 2 * (P * E14) + E14
    ensures 200 * K != E10 * (2 * P - 1) * Z ==> 2 * (P * E14) - E14 <= 2 * C
  {
    assert E10 * (2 * P - 1) * Z == E10 * (2 * (P * Z) - Z) by { Reassoc(E10, 2 * P - 1, Z); }
    GapArithmetic(P * Z, Z, K, C * Z);
    CancelFactor(P, C, Z);
  }

  lemma {:induction false} PhoneBand(K: nat, Z: nat, P: nat)
    requires Z > 0 && P == RoundHalfUp(100 * K, E10 * Z)
    ensures E10 * (2 * (P * Z) - Z) <= 200 * K < E10 * (2 * (P * Z) + Z)
  {
    assert P * (E10 * Z) == E10 * (P * Z) by { Reassoc(P, E10, Z); Reassoc(E10, P, Z); }
  }

  /** All products named: what is left is linear. */
  lemma {:induction false} GapArithmetic(y: int, Z: int, K: int, c: int)
    requires K % E7 == 0
    requires E10 * (2 * y - Z) <= 200 * K < E10 * (2 * y + Z)
    requires -6 * E12 * E12 <= 2 * (c * E12) - 2 * (K * E18) <= 6 * E12 * E12
    ensures 2 * c < (2 * y + Z) * E14
    ensures 200 * K != E10 * (2 * y - Z) ==> (2 * y - Z) * E14 <= 2 * c
  {
    var k := K / E7;
    var u, v := 2 * y + Z, 2 * y - Z;
    assert K == 10_000_000 * k;
    assert 5 * v <= k && 2 * k <= 10 * u - 1;
    assert 10_000_000_000_000 * k - 3 * E12 <= c <= 10_000_000_000_000 * k + 3 * E12;
  }

  // ---- the two programs ---------------------------------------------------------------------

  /** Amount and rate have at most 13 decimals between them (8 and 2 is what an invoice usually has). */
  predicate FineEnough(G: nat, R: nat) { G * R % E7 == 0 }

  /** The server's rate row for a phone rate of R * 10^-10 percent, without cess. */
  function RowOf(R: nat): RateRow { RateRow(100 * R, 0) }

  lemma {:induction false} FineTwo(K: nat)
    requires K % E7 == 0
    ensures RoundHalfUp(K, 2 * TO16) * (2 * TO16) == K && RoundHalfUp(K, TO16) * TO16 == K
  {
    var k := K / E7;
    assert K == 5 * k * (2 * TO16) && K == 10 * k * TO16;
    RoundExact(5 * k, 2 * TO16);
    RoundExact(10 * k, TO16);
  }

  /** The server's second division, in the phone's units: the share w of the rate R. */
  lemma {:induction false} ServerShare(u: nat, R: nat, w: nat)
    requires 1 <= w <= 2
    ensures UnroundedComponent(u, 200 * R / w) == RoundHalfUp(u * R, w * E12)
  {
    var f := 200 / w;
    assert 200 * R / w == f * R && f * (w * E12) == RATE_UNIT;
    assert u * (f * R) == f * (u * R) by { Reassoc(u, f, R); Commute(u, f); Reassoc(f, u, R); }
    RoundScale(u * R, w * E12, f);
  }

  lemma {:induction false} ServerTaxable(G: nat, R: nat)
    ensures Unrounded(G, 200 * R, INCLUSIVE) == RoundHalfUp(G * E18, E12 + R)
  {
    assert RATE_UNIT + 200 * R == 200 * (E12 + R);
    assert G * TO16 * RATE_UNIT == 200 * (G * E18);
    RoundScale(G * E18, E12 + R, 200);
  }

  /** One component, share w of the rate (1: IGST, 2: each half), in either pricing mode. */
  lemma {:induction false} ShareAgrees(G: nat, R: nat, mode: PricingMode, w: nat)
    requires 0 < R <= E12 && 1 <= w <= 2 && FineEnough(G, R)
    ensures var u := Unrounded(G, 200 * R, mode);
            Round16(UnroundedComponent(u, 200 * R / w), 2) == Component(G, R, mode, w)
  {
    assert Pow10(14) == E14;
    match mode {
      case INCLUSIVE =>
        ServerTaxable(G, R);
        var T := RoundHalfUp(G * E18, E12 + R);
        ServerShare(T, R, w);
        ComponentAgrees(G, R, w, T, RoundHalfUp(T * R, w * E12));
      case EXCLUSIVE =>
        ServerShare(G * TO16, R, w);
        ExclusiveAgrees(G, R, w);
    }
  }

  /** With tax on top the server's division by 100 is exact at this fineness. */
  lemma {:induction false} ExclusiveAgrees(G: nat, R: nat, w: nat)
    requires 1 <= w <= 2 && FineEnough(G, R)
    ensures RoundHalfUp(RoundHalfUp(G * TO16 * R, w * E12), E14) == Component(G, R, EXCLUSIVE, w)
  {
    var K := G * R;
    assert G * TO16 * R == TO16 * K by { Swap3(G, TO16, R); Commute(K, TO16); }
    assert w * E12 == TO16 * (w * TO16);
    RoundScale(K, w * TO16, TO16);
    var c := RoundHalfUp(K, w * TO16);
    FineTwo(K);
    assert w * TO16 * c == K by { if w == 1 {} else {} Commute(c, w * TO16); }
    RoundScale(c, E14, 100 * (w * TO16));
    assert 100 * (w * TO16) * c == 100 * K by { Reassoc(100, w * TO16, c); }
    assert 100 * (w * TO16) * E14 == w * 100 * SCALE * SCALE;
  }

  /** The phone's line and the server's line, figure by figure. */
  predicate SameLine(p: TaxLineOut, s: ServerLine) {
    && p.tax == s.tax && p.taxable == s.taxable && p.gross == s.gross
    && (if |s.components| == 2 then p.cgst == s.components[0].amount && p.sgst == s.components[1].amount && p.igst == 0
        else if |s.components| == 1 then p.igst == s.components[0].amount && p.cgst == p.sgst == 0
        else p.tax == 0)
  }

  lemma {:induction false} TotalOfFew(cs: seq<ServerComponent>)
    requires |cs| <= 2
    ensures Total(cs) == (if |cs| >= 1 then cs[0].amount else 0) + if |cs| == 2 then cs[1].amount else 0
  {
    if |cs| == 2 {
      assert cs[..1] == [cs[0]];
      assert Total([cs[0]]) == Total([]) + cs[0].amount;
    }
  }

  /** The server's components of a cess-free rate. */
  lemma {:induction false} RoundedOfGst(u: int, R: nat, interState: bool, unionTerritory: bool)
    ensures var cs := RoundedComponents(u, GstRates(RowOf(R), !interState, unionTerritory), 2);
      if R == 0 then cs == [] && Total(cs) == 0
      else if interState then |cs| == 1 && cs[0].amount == Total(cs) == Round16(UnroundedComponent(u, 200 * R / 1), 2)
      else |cs| == 2 && cs[0].amount == cs[1].amount == Round16(UnroundedComponent(u, 200 * R / 2), 2) && Total(cs) == 2 * cs[0].amount
  {
    TotalOfFew(RoundedComponents(u, GstRates(RowOf(R), !interState, unionTerritory), 2));
    assert 200 * R / 2 == 100 * R && 200 * R / 1 == 2 * (100 * R);
  }

  lemma {:induction false} SharesAgree(G: nat, R: nat, mode: PricingMode, interState: bool, unionTerritory: bool)
    requires R <= 100 * SCALE && FineEnough(G, R)
    ensures var cs := RoundedComponents(Unrounded(G, 200 * R, mode), GstRates(RowOf(R), !interState, unionTerritory), 2);
      if R == 0 then cs == [] && Total(cs) == 0
      else if interState then |cs| == 1 && cs[0].amount == Total(cs) == Component(G, R, mode, 1)
      else |cs| == 2 && cs[0].amount == cs[1].amount == Component(G, R, mode, 2) && Total(cs) == 2 * cs[0].amount
  {
    RoundedOfGst(Unrounded(G, 200 * R, mode), R, interState, unionTerritory);
    if R > 0 {
      ShareAgrees(G, R, mode, 1);
      ShareAgrees(G, R, mode, 2);
    }
  }

  lemma {:induction false} LineFrom(G: nat, mode: PricingMode, rates: seq<ComponentRate>, rate: int, entered: int)
    requires Combined(rates) == rate && Round10(G, 2) == entered && Round16(G * TO16, 2) == entered
    ensures var cs := RoundedComponents(Unrounded(G, rate, mode), rates, 2);
      LineOf(G, mode, rates, 2) == if mode == INCLUSIVE then ServerLine(entered, entered - Total(cs), Total(cs), cs)
                                   else ServerLine(entered + Total(cs), entered, Total(cs), cs)
  {}

  lemma {:induction false} LineOfGst(G: nat, R: nat, mode: PricingMode, interState: bool, unionTerritory: bool)
    ensures var rates := GstRates(RowOf(R), !interState, unionTerritory);
      var cs := RoundedComponents(Unrounded(G, 200 * R, mode), rates, 2);
      LineOf(G, mode, rates, 2) == if mode == INCLUSIVE then ServerLine(ToMinor(G), ToMinor(G) - Total(cs), Total(cs), cs)
                                   else ServerLine(ToMinor(G) + Total(cs), ToMinor(G), Total(cs), cs)
  {
    CombinedOfGst(RowOf(R), !interState, unionTerritory);
    EnteredAgrees(G);
    LineFrom(G, mode, GstRates(RowOf(R), !interState, unionTerritory), 200 * R, ToMinor(G));
  }

  /** One amount in both programs: where it and a cess-free rate up to 100 % are fine enough, the line is the same. */
  lemma {:induction false} SameAmountAgrees(G: nat, R: nat, mode: PricingMode, interState: bool, unionTerritory: bool, invalid: bool)
    requires R <= 100 * SCALE && FineEnough(G, R)
    ensures SameLine(Figures(G, R, mode, interState, invalid), LineOf(G, mode, GstRates(RowOf(R), !interState, unionTerritory), 2))
  {
    LineOfGst(G, R, mode, interState, unionTerritory);
    SharesAgree(G, R, mode, interState, unionTerritory);
  }

  lemma {:induction false} EnteredAgrees(G: nat)
    ensures Round10(G, 2) == ToMinor(G) && Round16(G * TO16, 2) == ToMinor(G)
  {
    RoundedAtBothScales(G, 2);
    assert Pow10(8) == 100_000_000;
    RoundScale(G, 100_000_000, 100);
    assert 100 * G == G * 100;
  }

  lemma {:induction false} PowAdd(a: nat, b: nat)
    ensures Pow10(a + b) == Pow10(a) * Pow10(b)
  {
    if a > 0 {
      PowAdd(a - 1, b);
      Reassoc(10, Pow10(a - 1), Pow10(b));
    }
  }

  /** The number, in units of 10^-10, can be written with d decimals. */
  predicate HasDecimals(n: nat, d: nat)
    requires d <= SCALE_DIGITS
  {
    n % Pow10(SCALE_DIGITS - d) == 0
  }

  lemma {:induction false} ScaledByPowers(g: nat, p: nat, r: nat, q: nat, c: nat)
    requires p * q == c * E7
    ensures FineEnough(g * p, r * q)
  {
    Regroup(g, p, r, q);
    Reassoc(g * r, c, E7);
    MultipleOf(g * r * c, E7);
  }

  lemma {:induction false} ScaledIsFine(g: nat, r: nat, a: nat, k: nat)
    requires a <= SCALE_DIGITS && k <= SCALE_DIGITS && a + k <= 13
    ensures FineEnough(g * Pow10(SCALE_DIGITS - a), r * Pow10(SCALE_DIGITS - k))
  {
    PowAdd(SCALE_DIGITS - a, SCALE_DIGITS - k);
    PowAdd(13 - a - k, 7);
    assert Pow10(7) == E7;
    ScaledByPowers(g, Pow10(SCALE_DIGITS - a), r, Pow10(SCALE_DIGITS - k), Pow10(13 - a - k));
  }

  lemma {:induction false} Quotient(n: nat, d: nat)
    requires d > 0 && n % d == 0
    ensures n == n / d * d
  {}

  /** An amount with a decimals and a rate with k decimals are fine enough when a + k <= 13. */
  lemma {:induction false} DecimalsSuffice(G: nat, R: nat, a: nat, k: nat)
    requires a <= SCALE_DIGITS && k <= SCALE_DIGITS && a + k <= 13 && HasDecimals(G, a) && HasDecimals(R, k)
    ensures FineEnough(G, R)
  {
    var p, q := Pow10(SCALE_DIGITS - a), Pow10(SCALE_DIGITS - k);
    Quotient(G, p);
    Quotient(R, q);
    ScaledIsFine(G / p, R / q, a, k);
  }

  lemma {:induction false} Regroup(g: int, p: int, r: int, q: int)
    ensures g * p * (r * q) == g * r * (p * q)
  {
    Reassoc(g * p, r, q);
    Swap3(g, p, r);
    Reassoc(g * r, p, q);
  }

  lemma {:induction false} MultipleOf(m: nat, d: nat)
    requires d > 0
    ensures m * d % d == 0
  {
    var q := m * d / d;
    if q < m { MulStep(q, m, d); }
    if m < q { MulStep(m, q, d); }
  }

  // ---- what the server keeps of a line ------------------------------------------------------

  /** 10^-6, the last place of the column of line totals, in units of 10^-10. */
  const KEPT: nat := 10_000

  /** A line total of G read back from its column, numeric(20,6). */
  function Stored(G: nat): nat { RoundHalfUp(G, KEPT) * KEPT }

  /** The line total the server figures tax on: quantity x price - discount, exact (in 10^-20), and then stored. */
  function BookedTotal(quantity: nat, price: nat, discount: nat): int {
    RoundAway(quantity * price - discount * SCALE, KEPT * SCALE) * KEPT
  }

  function BookedAmount(l: TaxLineIn): int { BookedTotal(Dec(l.qty), Dec(l.price), Dec(l.discount)) }

  /** The phone cuts the product to ten decimals first, and the column holds the same all the same. */
  lemma {:induction false} BookedIsStored(quantity: nat, price: nat, discount: nat)
    requires discount <= MulDec(quantity, price)
    ensures BookedTotal(quantity, price, discount) == Stored(MulDec(quantity, price) - discount)
  {
    var x := quantity * price;
    StoredOfCut(x / SCALE - discount, x % SCALE);
  }

  lemma {:induction false} StoredOfCut(G: nat, rest: nat)
    requires rest < SCALE
    ensures RoundHalfUp(G * SCALE + rest, KEPT * SCALE) == RoundHalfUp(G, KEPT)
  {
    RoundUnique(G * SCALE + rest, KEPT * SCALE, RoundHalfUp(G, KEPT));
  }

  lemma {:induction false} SixDecimalsAreKept(G: nat, a: nat)
    requires a <= 6 && HasDecimals(G, a)
    ensures Stored(G) == G
  {
    var p := Pow10(SCALE_DIGITS - a);
    PowAdd(6 - a, 4);
    assert Pow10(4) == KEPT;
    Quotient(G, p);
    Reassoc(G / p, Pow10(6 - a), KEPT);
    RoundExact(G / p * Pow10(6 - a), KEPT);
  }

  /** For every amount of at most six decimals and every cess-free rate up to 100 % that are fine enough, in both pricing
      modes, inside a state and across states: the line the phone shows is the line the server books. */
  lemma {:induction false} PhoneAndServerAgree(G: nat, R: nat, mode: PricingMode, interState: bool, unionTerritory: bool, invalid: bool)
    requires R <= 100 * SCALE && FineEnough(G, R) && HasDecimals(G, 6)
    ensures SameLine(Figures(G, R, mode, interState, invalid), LineOf(Stored(G), mode, GstRates(RowOf(R), !interState, unionTerritory), 2))
  {
    SixDecimalsAreKept(G, 6);
    SameAmountAgrees(G, R, mode, interState, unionTerritory, invalid);
  }

  // ---- exactly how many decimals ------------------------------------------------------------

  /** The phone's line for one amount and rate, and the line the server books, are the same. */
  predicate Agree(G: nat, R: nat, mode: PricingMode, interState: bool, unionTerritory: bool) {
    SameLine(Figures(G, R, mode, interState, false), LineOf(Stored(G), mode, GstRates(RowOf(R), !interState, unionTerritory), 2))
  }

  /** Every amount with a decimals at every rate up to 100 % with k decimals comes to the same line. */
  ghost predicate AllAgree(a: nat, k: nat)
    requires a <= SCALE_DIGITS && k <= SCALE_DIGITS
  {
    forall G: nat, R: nat, mode, interState, unionTerritory ::
      HasDecimals(G, a) && HasDecimals(R, k) && R <= 100 * SCALE ==> Agree(G, R, mode, interState, unionTerritory)
  }

  lemma {:induction false} FirstHalf(G: nat, R: nat, mode: PricingMode)
    requires R > 0
    ensures var cs := LineOf(G, mode, GstRates(RowOf(R), true, false), 2).components;
      |cs| == 2 && cs[0].amount == Round16(UnroundedComponent(Unrounded(G, 200 * R, mode), 100 * R), 2)
  {
    LineOfGst(G, R, mode, false, false);
    RoundedOfGst(Unrounded(G, 200 * R, mode), R, false, false);
    assert 200 * R / 2 == 100 * R;
  }

  /** One third of 10^14 at 3 %, at 14 decimals between them: the phone sees just under half a minor unit, the server exactly half. */
  lemma {:induction false} JustUnderHalf(G: nat, R: nat)
    requires 0 < R <= 100 * SCALE && G * R == 99_999_999_999_999_000_000
    ensures Component(G, R, EXCLUSIVE, 2) == 0
    ensures var cs := LineOf(G, EXCLUSIVE, GstRates(RowOf(R), true, false), 2).components; |cs| == 2 && cs[0].amount == 1
  {
    var K := 99_999_999_999_999_000_000;
    RoundUnique(100 * K, 2 * 100 * SCALE * SCALE, 0);
    FirstHalf(G, R, EXCLUSIVE);
    assert 200 * R / 2 == 100 * R;
    ServerShare(G * TO16, R, 2);
    assert G * TO16 * R == TO16 * K by { Swap3(G, TO16, R); Commute(K, TO16); }
    RoundUnique(TO16 * K, 2 * E12, 50_000_000_000_000);
    assert Pow10(14) == E14;
    RoundUnique(50_000_000_000_000, E14, 1);
  }

  lemma {:induction false} MoreDecimals(n: nat, d: nat, e: nat)
    requires d <= e <= SCALE_DIGITS
    ensures HasDecimals(n * Pow10(SCALE_DIGITS - d), e)
  {
    PowAdd(e - d, SCALE_DIGITS - e);
    Reassoc(n, Pow10(e - d), Pow10(SCALE_DIGITS - e));
    MultipleOf(n * Pow10(e - d), Pow10(SCALE_DIGITS - e));
  }

  lemma {:induction false} FourteenDisagree(a: nat, k: nat)
    requires a <= 6 && k <= SCALE_DIGITS && a + k >= 14
    ensures !AllAgree(a, k)
  {
    var p, q := Pow10(SCALE_DIGITS - (14 - k)), Pow10(SCALE_DIGITS - k);
    var G, R := 33_333_333_333_333 * p, 3 * q;
    MoreDecimals(33_333_333_333_333, 14 - k, a);
    MoreDecimals(3, k, k);
    PowAdd(SCALE_DIGITS - (14 - k), SCALE_DIGITS - k);
    assert Pow10(6) == 1_000_000;
    Regroup(33_333_333_333_333, p, 3, q);
    SmallPow(SCALE_DIGITS - k);
    JustUnderHalf(G, R);
    SixDecimalsAreKept(G, a);
    assert HasDecimals(G, a) && HasDecimals(R, k) && !Agree(G, R, EXCLUSIVE, false, false);
  }

  /** 0.0049995, at no tax at all: nothing on the phone, and half a minor unit once it is stored at six decimals. */
  lemma {:induction false} SeventhDecimal(mode: PricingMode, interState: bool, unionTerritory: bool)
    ensures HasDecimals(49_995_000, 7) && !Agree(49_995_000, 0, mode, interState, unionTerritory)
  {
    var G := 49_995_000;
    assert Pow10(3) == 1_000;
    RoundUnique(G, KEPT, 5_000);
    RoundUnique(100 * G, SCALE, 0);
    RoundUnique(100 * Stored(G), SCALE, 1);
    LineOfGst(Stored(G), 0, mode, interState, unionTerritory);
    RoundedOfGst(Unrounded(Stored(G), 0, mode), 0, interState, unionTerritory);
  }

  lemma {:induction false} SevenDisagree(a: nat, k: nat)
    requires 7 <= a <= SCALE_DIGITS && k <= SCALE_DIGITS
    ensures !AllAgree(a, k)
  {
    assert Pow10(3) == 1_000;
    MoreDecimals(49_995, 7, a);
    MoreDecimals(0, k, k);
    SeventhDecimal(EXCLUSIVE, false, false);
  }

  lemma {:induction false} SmallPow(n: nat)
    requires n <= 10
    ensures Pow10(n) <= SCALE
  {
    PowAdd(n, 10 - n);
    assert Pow10(10) == SCALE;
    MulLe(1, Pow10(10 - n), Pow10(n));
  }

  /** The claim holds exactly for amounts of up to six decimals with up to 13 between amount and rate: for all amounts with
      a decimals and all rates up to 100 % with k, in both pricing modes, inside a state and across states. */
  lemma {:induction false} AgreementExactly(a: nat, k: nat)
    requires a <= SCALE_DIGITS && k <= SCALE_DIGITS
    ensures AllAgree(a, k) <==> a <= 6 && a + k <= 13
  {
    if a > 6 {
      SevenDisagree(a, k);
    } else if a + k > 13 {
      FourteenDisagree(a, k);
    } else {
      forall G: nat, R: nat, mode, interState, unionTerritory | HasDecimals(G, a) && HasDecimals(R, k) && R <= 100 * SCALE
        ensures Agree(G, R, mode, interState, unionTerritory)
      {
        DecimalsSuffice(G, R, a, k);
        SixDecimalsAreKept(G, a);
        SameAmountAgrees(G, R, mode, interState, unionTerritory, false);
      }
    }
  }

  // ---- and how many places in what is entered ------------------------------------------------

  /** All quantities with q decimals, prices with p and rates up to 100 % with k come to the line the server books. */
  ghost predicate EntriesAgree(q: nat, p: nat, k: nat)
    requires q <= SCALE_DIGITS && p <= SCALE_DIGITS && k <= SCALE_DIGITS
  {
    forall Q: nat, P: nat, R: nat, mode, interState, unionTerritory ::
      HasDecimals(Q, q) && HasDecimals(P, p) && HasDecimals(R, k) && R <= 100 * SCALE ==>
        EntryAgrees(Q, P, R, mode, interState, unionTerritory)
  }

  predicate EntryAgrees(Q: nat, P: nat, R: nat, mode: PricingMode, interState: bool, unionTerritory: bool) {
    SameLine(Figures(MulDec(Q, P), R, mode, interState, false), LineOf(BookedTotal(Q, P, 0), mode, GstRates(RowOf(R), !interState, unionTerritory), 2))
  }

  lemma {:induction false} EntryIsItsAmount(Q: nat, P: nat, R: nat, mode: PricingMode, interState: bool, unionTerritory: bool)
    ensures EntryAgrees(Q, P, R, mode, interState, unionTerritory) <==> Agree(MulDec(Q, P), R, mode, interState, unionTerritory)
  {
    BookedIsStored(Q, P, 0);
  }

  lemma {:induction false} ProductScales(x: nat, y: nat, q: nat, p: nat)
    requires q <= SCALE_DIGITS && p <= SCALE_DIGITS && q + p <= SCALE_DIGITS
    ensures MulDec(x * Pow10(SCALE_DIGITS - q), y * Pow10(SCALE_DIGITS - p)) == x * y * Pow10(SCALE_DIGITS - q - p)
  {
    PowAdd(SCALE_DIGITS - q, SCALE_DIGITS - p);
    PowAdd(SCALE_DIGITS - q - p, SCALE_DIGITS);
    assert Pow10(SCALE_DIGITS) == SCALE;
    ScaledProduct(x, y, Pow10(SCALE_DIGITS - q), Pow10(SCALE_DIGITS - p), Pow10(SCALE_DIGITS - q - p));
  }

  lemma {:induction false} ScaledProduct(x: nat, y: nat, u: nat, v: nat, w: nat)
    requires u * v == w * SCALE
    ensures MulDec(x * u, y * v) == x * y * w
  {
    Regroup(x, u, y, v);
    Reassoc(x * y, w, SCALE);
    DivideBack(x * y * w, SCALE);
  }

  lemma {:induction false} DivideBack(n: nat, d: nat)
    requires d > 0
    ensures n * d / d == n
  {
    MultipleOf(n, d);
    Quotient(n * d, d);
    CancelEq(n * d / d, n, d);
  }

  lemma {:induction false} ProductDecimals(Q: nat, P: nat, q: nat, p: nat)
    requires q + p <= SCALE_DIGITS && HasDecimals(Q, q) && HasDecimals(P, p)
    ensures HasDecimals(MulDec(Q, P), q + p)
  {
    Quotient(Q, Pow10(SCALE_DIGITS - q));
    Quotient(P, Pow10(SCALE_DIGITS - p));
    var x, y := Q / Pow10(SCALE_DIGITS - q), P / Pow10(SCALE_DIGITS - p);
    ProductScales(x, y, q, p);
    MultipleOf(x * y, Pow10(SCALE_DIGITS - q - p));
  }

  /** Every amount with a decimals is the product of a quantity with q and a price with p, where a <= q + p. */
  lemma {:induction false} Factors(G: nat, a: nat, q: nat, p: nat) returns (Q: nat, P: nat)
    requires a <= SCALE_DIGITS && q <= SCALE_DIGITS && p <= SCALE_DIGITS && a <= q + p && HasDecimals(G, a)
    ensures HasDecimals(Q, q) && HasDecimals(P, p) && MulDec(Q, P) == G
  {
    var b := if q <= a then q else a;
    var y := G / Pow10(SCALE_DIGITS - a);
    Quotient(G, Pow10(SCALE_DIGITS - a));
    Q, P := FactorsAt(y, b, a - b, q, p);
  }

  lemma {:induction false} FactorsAt(y: nat, b: nat, c: nat, q: nat, p: nat) returns (Q: nat, P: nat)
    requires b <= q <= SCALE_DIGITS && c <= p <= SCALE_DIGITS && b + c <= SCALE_DIGITS
    ensures HasDecimals(Q, q) && HasDecimals(P, p) && MulDec(Q, P) == y * Pow10(SCALE_DIGITS - b - c)
  {
    Q, P := 1 * Pow10(SCALE_DIGITS - b), y * Pow10(SCALE_DIGITS - c);
    MoreDecimals(1, b, q);
    MoreDecimals(y, c, p);
    ProductScales(1, y, b, c);
  }

  /** So it holds exactly while quantity and price have up to six places between them, and 13 with the rate. */
  lemma {:induction false} EntriesAgreeExactly(q: nat, p: nat, k: nat)
    requires q <= SCALE_DIGITS && p <= SCALE_DIGITS && k <= SCALE_DIGITS
    ensures EntriesAgree(q, p, k) <==> q + p <= 6 && q + p + k <= 13
  {
    var a := if q + p <= SCALE_DIGITS then q + p else SCALE_DIGITS;
    AgreementExactly(a, k);
    if AllAgree(a, k) {
      forall Q: nat, P: nat, R: nat, mode, interState, unionTerritory | HasDecimals(Q, q) && HasDecimals(P, p) && HasDecimals(R, k) && R <= 100 * SCALE
        ensures EntryAgrees(Q, P, R, mode, interState, unionTerritory)
      {
        ProductDecimals(Q, P, q, p);
        EntryIsItsAmount(Q, P, R, mode, interState, unionTerritory);
        assert Agree(MulDec(Q, P), R, mode, interState, unionTerritory);
      }
    } else {
      var G: nat, R: nat, mode, interState, unionTerritory :|
        HasDecimals(G, a) && HasDecimals(R, k) && R <= 100 * SCALE && !Agree(G, R, mode, interState, unionTerritory);
      var Q, P := Factors(G, a, q, p);
      EntryIsItsAmount(Q, P, R, mode, interState, unionTerritory);
    }
  }

  // ---- two lines as they are entered --------------------------------------------------------

  /** 0.005 at 20000.9999, without tax: 100.0049995, which the phone shows as 100.00 and the server books as 100.01. */
  lemma {:induction false} StoringCanDisagree(mode: PricingMode, interState: bool, unionTerritory: bool)
    ensures var l := TaxLineIn("0.005", "20000.9999", "0", None);
            var booked := LineOf(BookedAmount(l), mode, GstRates(RowOf(LineRate(l)), !interState, unionTerritory), 2);
            CalcLine(l, mode, interState).gross == 100_00 && booked.gross == 100_01
  {
    var l := TaxLineIn("0.005", "20000.9999", "0", None);
    EnteredDigit(0);
    EnteredQuantity();
    EnteredPrice();
    var G := 1_000_049_995_000;
    assert LineAmount(l) == G;
    BookedIsStored(Dec(l.qty), Dec(l.price), Dec(l.discount));
    RoundUnique(G, KEPT, 100_005_000);
    RoundUnique(100 * G, SCALE, 100_00);
    RoundUnique(100 * Stored(G), SCALE, 100_01);
    LineOfGst(Stored(G), 0, mode, interState, unionTerritory);
    RoundedOfGst(Unrounded(Stored(G), 0, mode), 0, interState, unionTerritory);
  }

  /** 33333333.333333 at 0.00000003 %: CGST just under half a minor unit, which the server's first division makes half. */
  lemma {:induction false} FinerCanDisagree()
    ensures var l := TaxLineIn("1", "33333333.333333", "0", Some("0.00000003"));
            var booked := LineOf(BookedAmount(l), EXCLUSIVE, GstRates(RowOf(LineRate(l)), true, false), 2);
            CalcLine(l, EXCLUSIVE, false).cgst == 0 && |booked.components| == 2 && booked.components[0].amount == 1
  {
    var l := TaxLineIn("1", "33333333.333333", "0", Some("0.00000003"));
    EnteredDigit(0);
    EnteredDigit(1);
    EnteredThirds();
    EnteredRate();
    var G := 333_333_333_333_330_000;
    assert LineAmount(l) == G && LineRate(l) == 300;
    BookedIsStored(Dec(l.qty), Dec(l.price), Dec(l.discount));
    RoundExact(33_333_333_333_333, KEPT);
    JustUnderHalf(G, 300);
  }

  lemma {:induction false} EnteredDigit(n: nat)
    requires n < 10
    ensures Dec([DigitOf(n)]) == n * SCALE
  {
    var s := [DigitOf(n)];
    ParsePlain(s, "0");
    assert s[..0] == "" && DigitsValue(s) == n;
    assert PadEnd("", SCALE_DIGITS) == Zeros(SCALE_DIGITS);
    ZerosValue(SCALE_DIGITS);
  }

  /** What is entered as digits, a point and digits. */
  lemma {:induction false} Entered(w: string, f: string)
    requires w != "" && f != "" && AllDigits(w) && AllDigits(f) && |f| <= SCALE_DIGITS
    ensures Dec(w + "." + f) == DigitsValue(w) * SCALE + DigitsValue(f) * Pow10(SCALE_DIGITS - |f|)
  {
    ParsePlain(w, f);
    var zeros := SCALE_DIGITS - |f|;
    ValueOfConcat(f, Zeros(zeros));
    ZerosValue(zeros);
    assert Zeros(0) == "" && f + "" == f;
  }

  lemma {:induction false} OneDigitMore(s: string, c: char)
    requires AllDigits(s) && IsDigit(c)
    ensures AllDigits(s + [c]) && DigitsValue(s + [c]) == 10 * DigitsValue(s) + (c as int - '0' as int)
  {
    assert (s + [c])[..|s|] == s;
  }

  lemma {:induction false} FourDigits(s: string, a: char, b: char, c: char, d: char)
    requires AllDigits(s) && IsDigit(a) && IsDigit(b) && IsDigit(c) && IsDigit(d)
    ensures var t := s + [a] + [b] + [c] + [d];
      AllDigits(t) && DigitsValue(t) == 10_000 * DigitsValue(s) + 1_000 * (a as int - 48) + 100 * (b as int - 48) + 10 * (c as int - 48) + (d as int - 48)
  {
    OneDigitMore(s, a);
    OneDigitMore(s + [a], b);
    OneDigitMore(s + [a] + [b], c);
    OneDigitMore(s + [a] + [b] + [c], d);
  }

  lemma {:induction false} QuantityDigits()
    ensures AllDigits("0") && DigitsValue("0") == 0 && AllDigits("005") && DigitsValue("005") == 5
  {
    OneDigitMore("", '0');
    OneDigitMore("0", '0');
    OneDigitMore("00", '5');
    assert "" + ['0'] == "0" && "0" + ['0'] == "00" && "00" + ['5'] == "005";
  }

  lemma {:induction false} EnteredQuantity()
    ensures Dec("0.005") == 50_000_000
  {
    QuantityDigits();
    Entered("0", "005");
    assert Pow10(7) == E7;
    assert "0" + "." + "005" == "0.005";
  }

  lemma {:induction false} PriceUnits()
    ensures AllDigits("20000") && DigitsValue("20000") == 20_000
  {
    OneDigitMore("", '2');
    FourDigits("2", '0', '0', '0', '0');
    assert "" + ['2'] == "2" && "2" + ['0'] + ['0'] + ['0'] + ['0'] == "20000";
  }

  lemma {:induction false} PriceDecimals()
    ensures AllDigits("9999") && DigitsValue("9999") == 9_999
  {
    FourDigits("", '9', '9', '9', '9');
    assert "" + ['9'] + ['9'] + ['9'] + ['9'] == "9999";
  }

  lemma {:induction false} EnteredPrice()
    ensures Dec("20000.9999") == 200_009_999_000_000
  {
    PriceUnits();
    PriceDecimals();
    Entered("20000", "9999");
    assert Pow10(6) == 1_000_000;
    assert "20000" + "." + "9999" == "20000.9999";
  }

  lemma {:induction false} ThirdsBefore()
    ensures AllDigits("33333333") && DigitsValue("33333333") == 33_333_333
  {
    FourDigits("", '3', '3', '3', '3');
    FourDigits("3333", '3', '3', '3', '3');
    assert "" + ['3'] + ['3'] + ['3'] + ['3'] == "3333" && "3333" + ['3'] + ['3'] + ['3'] + ['3'] == "33333333";
  }

  lemma {:induction false} ThirdsAfter()
    ensures AllDigits("333333") && DigitsValue("333333") == 333_333
  {
    OneDigitMore("", '3');
    OneDigitMore("3", '3');
    FourDigits("33", '3', '3', '3', '3');
    assert "" + ['3'] == "3" && "3" + ['3'] == "33" && "33" + ['3'] + ['3'] + ['3'] + ['3'] == "333333";
  }

  lemma {:induction false} EnteredThirds()
    ensures Dec("33333333.333333") == 333_333_333_333_330_000
  {
    ThirdsBefore();
    ThirdsAfter();
    Entered("33333333", "333333");
    assert Pow10(4) == 10_000;
    assert "33333333" + "." + "333333" == "33333333.333333";
  }

  lemma {:induction false} RateDigits()
    ensures AllDigits("00000003") && DigitsValue("00000003") == 3
  {
    FourDigits("", '0', '0', '0', '0');
    FourDigits("0000", '0', '0', '0', '3');
    assert "" + ['0'] + ['0'] + ['0'] + ['0'] == "0000" && "0000" + ['0'] + ['0'] + ['0'] + ['3'] == "00000003";
  }

  lemma {:induction false} EnteredRate()
    ensures Dec("0.00000003") == 300
  {
    QuantityDigits();
    RateDigits();
    Entered("0", "00000003");
    assert Pow10(2) == 100;
    assert "0" + "." + "00000003" == "0.00000003";
  }

  // ---- whole invoices -----------------------------------------------------------------------

  /** The server's document lines for the lines of a phone invoice: the same entries, the line totals as stored. */
  predicate SameEntries(lines: seq<TaxLineIn>, mode: PricingMode, doc: seq<TaxableLine>, rates: map<string, RateRow>) {
    && |doc| == |lines|
    && forall i :: 0 <= i < |lines| ==>
      && 0 <= LineAmount(lines[i]) && HasDecimals(LineAmount(lines[i]), 6) && doc[i].amount == BookedAmount(lines[i]) && doc[i].mode == mode
      && doc[i].hsn in rates && rates[doc[i].hsn] == RowOf(LineRate(lines[i]))
      && LineRate(lines[i]) <= 100 * SCALE && FineEnough(LineAmount(lines[i]), LineRate(lines[i]))
  }

  lemma {:induction false} BookedAt(doc: seq<TaxableLine>, rates: map<string, RateRow>, intraState: bool, unionTerritory: bool, i: nat)
    requires i < |doc| && forall k :: 0 <= k < |doc| ==> doc[k].hsn in rates
    ensures LinesOf(doc, rates, intraState, unionTerritory, 2)[i] == LineOf(doc[i].amount, doc[i].mode, GstRates(rates[doc[i].hsn], intraState, unionTerritory), 2)
  {
    if i < |doc| - 1 {
      BookedAt(doc[..|doc| - 1], rates, intraState, unionTerritory, i);
    }
  }

  lemma {:induction false} SumsAgree(out: seq<TaxLineOut>, booked: seq<ServerLine>)
    requires |out| == |booked| && forall i :: 0 <= i < |out| ==> SameLine(out[i], booked[i])
    ensures Sum(out, Taxable) == SumTaxable(booked) && Sum(out, Tax) == SumTax(booked) && Sum(out, Gross) == SumGross(booked)
  {
    if out != [] {
      SumsAgree(out[..|out| - 1], booked[..|booked| - 1]);
    }
  }

  lemma {:induction false} BookedAgrees(G: nat, T: int, R: nat, mode: PricingMode, interState: bool, unionTerritory: bool, invalid: bool)
    requires HasDecimals(G, 6) && T == Stored(G) && R <= 100 * SCALE && FineEnough(G, R)
    ensures SameLine(Figures(G, R, mode, interState, invalid), LineOf(T, mode, GstRates(RowOf(R), !interState, unionTerritory), 2))
  {
    PhoneAndServerAgree(G, R, mode, interState, unionTerritory, invalid);
  }

  lemma {:induction false} EntryAgreesAt(l: TaxLineIn, mode: PricingMode, interState: bool, unionTerritory: bool, invalid: bool)
    requires 0 <= LineAmount(l) && HasDecimals(LineAmount(l), 6) && LineRate(l) <= 100 * SCALE && FineEnough(LineAmount(l), LineRate(l))
    ensures SameLine(Figures(LineAmount(l), LineRate(l), mode, interState, invalid), LineOf(BookedAmount(l), mode, GstRates(RowOf(LineRate(l)), !interState, unionTerritory), 2))
  {
    BookedIsStored(Dec(l.qty), Dec(l.price), Dec(l.discount));
    BookedAgrees(LineAmount(l), BookedAmount(l), LineRate(l), mode, interState, unionTerritory, invalid);
  }

  /** Line by line and in the totals, the document the server books is the invoice the phone issued. */
  lemma {:induction false} InvoicesAgree(lines: seq<TaxLineIn>, mode: PricingMode, interState: bool, doc: seq<TaxableLine>, rates: map<string, RateRow>, unionTerritory: bool)
    requires SameEntries(lines, mode, doc, rates)
    ensures var out, booked := CalcLines(lines, mode, interState), LinesOf(doc, rates, !interState, unionTerritory, 2);
      && (forall i :: 0 <= i < |lines| ==> SameLine(out[i], booked[i]))
      && Sum(out, Taxable) == SumTaxable(booked) && Sum(out, Tax) == SumTax(booked) && Sum(out, Gross) == SumGross(booked)
  {
    var out, booked := CalcLines(lines, mode, interState), LinesOf(doc, rates, !interState, unionTerritory, 2);
    forall i | 0 <= i < |lines|
      ensures SameLine(out[i], booked[i])
    {
      BookedAt(doc, rates, !interState, unionTerritory, i);
      EntryAgreesAt(lines[i], mode, interState, unionTerritory, out[i].invalid);
    }
    SumsAgree(out, booked);
  }

  // ---- label by label -----------------------------------------------------------------------

  /** The server's components of one kind. */
  function OfKind(cs: seq<ServerComponent>, kind: string): int {
    if cs == [] then 0 else OfKind(cs[..|cs| - 1], kind) + if cs[|cs| - 1].kind == kind then cs[|cs| - 1].amount else 0
  }

  function SumOfKind(booked: seq<ServerLine>, kind: string): int {
    if booked == [] then 0 else SumOfKind(booked[..|booked| - 1], kind) + OfKind(booked[|booked| - 1].components, kind)
  }

  /** The server's name for a label of the phone. */
  function NameOf(f: Figure, unionTerritory: bool): string {
    if f == Cgst then "CGST" else if f == Igst then "IGST" else if unionTerritory then "UTGST" else "SGST"
  }

  lemma {:induction false} KindOfFew(cs: seq<ServerComponent>, kind: string)
    requires |cs| <= 2
    ensures OfKind(cs, kind) == (if |cs| >= 1 && cs[0].kind == kind then cs[0].amount else 0) + if |cs| == 2 && cs[1].kind == kind then cs[1].amount else 0
  {
    if |cs| == 2 {
      assert cs[..1] == [cs[0]];
      assert OfKind([cs[0]], kind) == OfKind([], kind) + if cs[0].kind == kind then cs[0].amount else 0;
    }
  }

  lemma {:induction false} KindsOfGst(u: int, R: nat, interState: bool, unionTerritory: bool)
    ensures var cs := RoundedComponents(u, GstRates(RowOf(R), !interState, unionTerritory), 2);
      if R == 0 then cs == []
      else if interState then |cs| == 1 && cs[0].kind == "IGST"
      else |cs| == 2 && cs[0].kind == "CGST" && cs[1].kind == NameOf(Sgst, unionTerritory)
  {}

  lemma {:induction false} KindsDiffer(unionTerritory: bool)
    ensures NameOf(Sgst, unionTerritory) != "CGST" && NameOf(Sgst, unionTerritory) != "IGST" && "CGST" != "IGST"
  {
    assert "CGST"[0] == 'C' && "IGST"[0] == 'I' && "SGST"[0] == 'S' && "UTGST"[0] == 'U';
  }

  lemma {:induction false} LineKinds(p: TaxLineOut, s: ServerLine, R: nat, interState: bool, unionTerritory: bool, f: Figure)
    requires SameLine(p, s) && |s.components| <= 2 && (f == Cgst || f == Sgst || f == Igst)
    requires if R == 0 then s.components == [] && p.cgst == p.sgst == p.igst == 0
             else if interState then |s.components| == 1 && s.components[0].kind == "IGST"
             else |s.components| == 2 && s.components[0].kind == "CGST" && s.components[1].kind == NameOf(Sgst, unionTerritory)
    ensures OfKind(s.components, NameOf(f, unionTerritory)) == Pick(p, f)
  {
    KindOfFew(s.components, NameOf(f, unionTerritory));
    KindsDiffer(unionTerritory);
  }

  lemma {:induction false} BookedComponents(T: int, mode: PricingMode, rates: seq<ComponentRate>)
    ensures LineOf(T, mode, rates, 2).components == RoundedComponents(Unrounded(T, Combined(rates), mode), rates, 2)
  {}

  lemma {:induction false} EntryKinds(l: TaxLineIn, T: int, mode: PricingMode, interState: bool, unionTerritory: bool, f: Figure)
    requires SameLine(CalcLine(l, mode, interState), LineOf(T, mode, GstRates(RowOf(LineRate(l)), !interState, unionTerritory), 2))
    requires f == Cgst || f == Sgst || f == Igst
    ensures OfKind(LineOf(T, mode, GstRates(RowOf(LineRate(l)), !interState, unionTerritory), 2).components, NameOf(f, unionTerritory))
      == Pick(CalcLine(l, mode, interState), f)
  {
    var R, line := LineRate(l), LineOf(T, mode, GstRates(RowOf(LineRate(l)), !interState, unionTerritory), 2);
    var rates := GstRates(RowOf(R), !interState, unionTerritory);
    BookedComponents(T, mode, rates);
    KindsOfGst(Unrounded(T, Combined(rates), mode), R, interState, unionTerritory);
    LineKinds(CalcLine(l, mode, interState), line, R, interState, unionTerritory, f);
  }

  lemma {:induction false} SumsOfKind(out: seq<TaxLineOut>, booked: seq<ServerLine>, f: Figure, kind: string)
    requires |out| == |booked| && forall i :: 0 <= i < |out| ==> OfKind(booked[i].components, kind) == Pick(out[i], f)
    ensures SumOfKind(booked, kind) == Sum(out, f)
  {
    if out != [] { SumsOfKind(out[..|out| - 1], booked[..|booked| - 1], f, kind); }
  }

  /** What the phone's invoice shows under CGST, SGST and IGST is what the server books under these names,
      or under UTGST for the second half in a union territory. */
  lemma {:induction false} LabelsAgree(lines: seq<TaxLineIn>, mode: PricingMode, interState: bool, doc: seq<TaxableLine>, rates: map<string, RateRow>, unionTerritory: bool)
    requires SameEntries(lines, mode, doc, rates)
    ensures var c, booked := InvoiceOf(lines, mode, interState), LinesOf(doc, rates, !interState, unionTerritory, 2);
      && Shown(c.components, CGST) == SumOfKind(booked, "CGST")
      && Shown(c.components, SGST) == SumOfKind(booked, if unionTerritory then "UTGST" else "SGST")
      && Shown(c.components, IGST) == SumOfKind(booked, "IGST")
  {
    LabelsAreRight(lines, mode, interState);
    KindAgrees(lines, mode, interState, doc, rates, unionTerritory, Cgst);
    KindAgrees(lines, mode, interState, doc, rates, unionTerritory, Sgst);
    KindAgrees(lines, mode, interState, doc, rates, unionTerritory, Igst);
  }

  lemma {:induction false} KindAgrees(lines: seq<TaxLineIn>, mode: PricingMode, interState: bool, doc: seq<TaxableLine>, rates: map<string, RateRow>, unionTerritory: bool, f: Figure)
    requires SameEntries(lines, mode, doc, rates) && (f == Cgst || f == Sgst || f == Igst)
    ensures SumOfKind(LinesOf(doc, rates, !interState, unionTerritory, 2), NameOf(f, unionTerritory)) == Sum(CalcLines(lines, mode, interState), f)
  {
    var out, booked := CalcLines(lines, mode, interState), LinesOf(doc, rates, !interState, unionTerritory, 2);
    InvoicesAgree(lines, mode, interState, doc, rates, unionTerritory);
    forall i | 0 <= i < |out|
      ensures OfKind(booked[i].components, NameOf(f, unionTerritory)) == Pick(out[i], f)
    {
      BookedAt(doc, rates, !interState, unionTerritory, i);
      EntryKinds(lines[i], doc[i].amount, mode, interState, unionTerritory, f);
    }
    SumsOfKind(out, booked, f, NameOf(f, unionTerritory));
  }
}
