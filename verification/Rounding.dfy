/** Rounding of exact fractions to whole units.

    Two programs round the same money: the phone with `roundRatio` on BigInt, the server with
    `decimal.Div` (16 decimals) and `decimal.Round`.  All three round halves away from zero. */
module Rounding {

  /** roundRatio(num, den): the fraction n / d rounded half up, for n >= 0. */
  function RoundHalfUp(n: nat, d: nat): (q: nat)
    requires d > 0
    ensures 2 * (q * d) - d <= 2 * n < 2 * (q * d) + d
  {
    (2 * n + d) / (2 * d)
  }

  /** Half away from zero, for either sign. */
  function RoundAway(n: int, d: nat): int
    requires d > 0
  {
    if n >= 0 then RoundHalfUp(n, d) else 0 - RoundHalfUp(0 - n, d)
  }

  lemma {:induction false} MulLe(a: int, b: int, c: nat)
    requires a <= b
    ensures a * c <= b * c
  {}

  lemma {:induction false} MulLt(a: int, b: int, c: nat)
    requires a < b && c > 0
    ensures a * c < b * c
  {}

  lemma {:induction false} Commute(a: int, b: int)
    ensures a * b == b * a
  {}

  lemma {:induction false} Reassoc(a: int, b: int, c: int)
    ensures a * (b * c) == a * b * c
  {}

  /** The two inequalities pin the rounded value down: there is only one such integer. */
  lemma {:induction false} BandUnique(n: int, d: nat, p: int, q: int)
    requires d > 0
    requires 2 * (p * d) - d <= 2 * n < 2 * (p * d) + d
    requires 2 * (q * d) - d <= 2 * n < 2 * (q * d) + d
    ensures p == q
  {
    if q < p { MulStep(q, p, d); }
    if p < q { MulStep(p, q, d); }
  }

  lemma {:induction false} MulStep(a: int, b: int, c: nat)
    requires a < b
    ensures a * c + c <= b * c
  {
    MulLe(a + 1, b, c);
  }

  lemma {:induction false} RoundUnique(n: nat, d: nat, q: int)
    requires d > 0
    requires 2 * (q * d) - d <= 2 * n < 2 * (q * d) + d
    ensures q == RoundHalfUp(n, d)
  {
    BandUnique(n, d, q, RoundHalfUp(n, d));
  }

  /** A common factor of the fraction does not matter. */
  lemma {:induction false} RoundScale(n: nat, d: nat, f: nat)
    requires d > 0 && f > 0
    ensures f * d > 0 && RoundHalfUp(f * n, f * d) == RoundHalfUp(n, d)
  {
    var q := RoundHalfUp(n, d);
    var x := q * d;
    ScaleBand(x, d, n, f);
    MulLt(n * 2, 2 * x + d, f);
    assert f * d > 0 by { MulLt(0, d, f); }
    assert q * (f * d) == x * f by { Reassoc(q, f, d); Reassoc(f, q, d); Commute(q, f); Commute(f, x); }
    Distribute(x, d, f);
    RoundUnique(f * n, f * d, q);
  }

  lemma {:induction false} Distribute(x: int, d: int, f: int)
    ensures (2 * x + d) * f == 2 * (x * f) + d * f
    ensures (2 * x - d) * f == 2 * (x * f) - d * f
  {}

  /** Multiplying a band |2x - 2n| <= d by f. */
  lemma {:induction false} ScaleBand(x: int, d: int, n: int, f: nat)
    requires 2 * x - d <= 2 * n <= 2 * x + d
    ensures -(d * f) <= 2 * (x * f) - 2 * (n * f) <= d * f
  {
    MulLe(2 * x - d, 2 * n, f);
    MulLe(2 * n, 2 * x + d, f);
    Distribute(x, d, f);
    Distribute(n, 0, f);
  }

  /** A rounded quotient, scaled by f, is within d * f / 2 of the scaled numerator. */
  lemma {:induction false} RoundedTimes(n: nat, d: nat, f: nat)
    requires d > 0
    ensures -(d * f) <= 2 * (RoundHalfUp(n, d) * d * f) - 2 * (n * f) <= d * f
  {
    ScaleBand(RoundHalfUp(n, d) * d, d, n, f);
  }

  /** An exact quotient is not changed by rounding. */
  lemma {:induction false} RoundExact(q: nat, d: nat)
    requires d > 0
    ensures q * d >= 0 && RoundHalfUp(q * d, d) == q
  {
    RoundUnique(q * d, d, q);
  }

  lemma {:induction false} RoundMonotone(a: nat, b: nat, d: nat)
    requires a <= b && d > 0
    ensures RoundHalfUp(a, d) <= RoundHalfUp(b, d)
  {
    var p, q := RoundHalfUp(a, d), RoundHalfUp(b, d);
    if q < p {
      MulStep(q, p, d);
    }
  }

  lemma {:induction false} ProductBound(a: nat, b: nat, ha: nat, hb: nat)
    requires a <= ha && b <= hb
    ensures a * b <= ha * hb
  {
    MulLe(a, ha, b);
    Commute(ha, b);
    MulLe(b, hb, ha);
    Commute(hb, ha);
  }
}
