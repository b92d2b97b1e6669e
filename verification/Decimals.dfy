/** The phone's exact decimals, and money as strings (apps/mobile/src/lib/decimal.ts). */
module Decimals {
  // A Dec is the value times 10^10; money travels through the database as decimal strings.

  import opened Wrappers
  import opened Rounding

  const SCALE_DIGITS: nat := 10
  const SCALE: int := 10_000_000_000

  // ---- digits -------------------------------------------------------------------------------

  function Pow10(n: nat): (p: nat)
    ensures p > 0
  {
    if n == 0 then 1 else 10 * Pow10(n - 1)
  }

  predicate IsDigit(c: char) { '0' <= c <= '9' }

  predicate AllDigits(s: string) { forall i :: 0 <= i < |s| ==> IsDigit(s[i]) }

  function DigitOf(n: nat): (c: char)
    requires n < 10
    ensures IsDigit(c) && (c as int) - ('0' as int) == n
  {
    ('0' as int + n) as char
  }

  /** BigInt(s) of a string of digits; BigInt("" || "0") is 0. */
  function DigitsValue(s: string): nat
    requires AllDigits(s)
  {
    if s == "" then 0 else 10 * DigitsValue(s[..|s| - 1]) + (s[|s| - 1] as int - '0' as int)
  }

  /** String(n) */
  function Print(n: nat): (s: string)
    ensures s != "" && AllDigits(s)
  {
    if n < 10 then [DigitOf(n)] else Print(n / 10) + [DigitOf(n % 10)]
  }

  function Zeros(n: nat): (s: string)
    ensures |s| == n && AllDigits(s)
  {
    seq(n, i => '0')
  }

  function PadStart(s: string, w: nat): string { if |s| < w then Zeros(w - |s|) + s else s }

  function PadEnd(s: string, w: nat): string { if |s| < w then s + Zeros(w - |s|) else s }

  function StripZeros(s: string): (t: string)
    ensures |t| <= |s| && t == s[..|t|]
  {
    if s != "" && s[|s| - 1] == '0' then StripZeros(s[..|s| - 1]) else s
  }

  lemma {:induction false} PrintValue(n: nat)
    ensures DigitsValue(Print(n)) == n
  {
    if n >= 10 {
      PrintValue(n / 10);
      assert Print(n)[..|Print(n)| - 1] == Print(n / 10);
    }
  }

  lemma {:induction false} PrintLength(n: nat, w: nat)
    requires w > 0 && n < Pow10(w)
    ensures |Print(n)| <= w
  {
    if n >= 10 {
      assert Pow10(1) == 10;
      PrintLength(n / 10, w - 1);
    }
  }

  lemma {:induction false} ValueOfConcat(a: string, b: string)
    requires AllDigits(a) && AllDigits(b)
    ensures AllDigits(a + b) && DigitsValue(a + b) == DigitsValue(a) * Pow10(|b|) + DigitsValue(b)
  {
    if b == "" {
      assert a + b == a;
    } else {
      var c := b[..|b| - 1];
      ValueOfConcat(a, c);
      assert (a + b)[..|a + b| - 1] == a + c;
      assert DigitsValue(a) * Pow10(|b|) == 10 * (DigitsValue(a) * Pow10(|c|)) by {
        Reassoc(DigitsValue(a), 10, Pow10(|c|));
        Commute(DigitsValue(a), 10);
        Reassoc(10, DigitsValue(a), Pow10(|c|));
      }
    }
  }

  lemma {:induction false} ZerosValue(n: nat)
    ensures DigitsValue(Zeros(n)) == 0
  {
    if n > 0 {
      assert Zeros(n)[..n - 1] == Zeros(n - 1);
      ZerosValue(n - 1);
    }
  }

  /** Padding on the left keeps the number and fixes the width. */
  lemma {:induction false} PadStartValue(n: nat, w: nat)
    requires w > 0 && n < Pow10(w)
    ensures var s := PadStart(Print(n), w); |s| == w && AllDigits(s) && DigitsValue(s) == n
  {
    PrintLength(n, w);
    PrintValue(n);
    ZerosValue(w - |Print(n)|);
    ValueOfConcat(Zeros(w - |Print(n)|), Print(n));
  }

  /** Trailing zeros come back with the padding. */
  lemma {:induction false} StripPad(s: string)
    ensures PadEnd(StripZeros(s), |s|) == s
    ensures AllDigits(s) ==> AllDigits(StripZeros(s))
  {
    if s != "" && s[|s| - 1] == '0' {
      var r := s[..|s| - 1];
      StripPad(r);
      assert s == r + "0";
      assert PadEnd(StripZeros(r), |s|) == PadEnd(StripZeros(r), |r|) + "0";
    }
  }

  // ---- parsing ------------------------------------------------------------------------------

  /** What String.prototype.trim removes: the white space and line ends of ECMAScript. */
  predicate IsJsSpace(c: char) {
    c == ' ' || ('\t' <= c <= '\r') || c == '\U{00A0}' || c == '\U{FEFF}' || c == '\U{1680}'
    || ('\U{2000}' <= c <= '\U{200A}') || c == '\U{2028}' || c == '\U{2029}' || c == '\U{202F}' || c == '\U{205F}' || c == '\U{3000}'
  }

  function TrimStart(s: string): string {
    if s != "" && IsJsSpace(s[0]) then TrimStart(s[1..]) else s
  }

  function TrimEnd(s: string): string {
    if s != "" && IsJsSpace(s[|s| - 1]) then TrimEnd(s[..|s| - 1]) else s
  }

  function Trim(s: string): string { TrimEnd(TrimStart(s)) }

  /** The text before the first '.', and after it (None without one). */
  function SplitDot(s: string): (string, Option<string>) {
    if s == "" then ("", None)
    else if s[0] == '.' then ("", Some(s[1..]))
    else var (w, f) := SplitDot(s[1..]); ([s[0]] + w, f)
  }

  function ParseParts(w: string, frac: string): Option<nat> {
    if !AllDigits(w) || !AllDigits(frac) || (w == "" && frac == "") || |frac| > SCALE_DIGITS then None
    else Some(DigitsValue(w) * SCALE + DigitsValue(PadEnd(frac, SCALE_DIGITS)))
  }

  /** parseDec: "12", "12.5", ".5"; no sign, no exponent, at most ten decimals. */
  function ParseDec(v: string): Option<nat> {
    var (w, f) := SplitDot(Trim(v));
    ParseParts(w, if f.Some? then f.value else "")
  }

  /** dec: junk reads as zero. */
  function Dec(v: string): nat {
    var d := ParseDec(v);
    if d.Some? then d.value else 0
  }

  /** mulDec: the product kept at ten decimals, the rest cut off. */
  function MulDec(a: nat, b: nat): nat { a * b / SCALE }

  function ToMinor(d: nat): nat { RoundHalfUp(d * 100, SCALE) }

  function ParseMinor(s: string): nat { ToMinor(Dec(s)) }

  // ---- printing -----------------------------------------------------------------------------

  /** minorToString: 10500 -> "105.00". */
  function MinorToString(m: int): string {
    var a: nat := if m < 0 then -m else m;
    (if m < 0 then "-" else "") + Print(a / 100) + "." + PadStart(Print(a % 100), 2)
  }

  /** decToRate: no trailing zeros, and no point without decimals. */
  function DecToRate(r: nat): string {
    var frac := StripZeros(PadStart(Print(r % SCALE), SCALE_DIGITS));
    if frac == "" then Print(r / SCALE) else Print(r / SCALE) + "." + frac
  }

  // ---- round trips --------------------------------------------------------------------------

  lemma {:induction false} SplitDotPlain(w: string, f: string)
    requires AllDigits(w)
    ensures SplitDot(w + "." + f) == (w, Some(f))
    ensures SplitDot(w) == (w, None)
  {
    if w == "" {
      assert w + "." + f == "." + f;
      assert ("." + f)[1..] == f;
    } else {
      assert (w + "." + f)[1..] == w[1..] + "." + f;
      SplitDotPlain(w[1..], f);
      assert [w[0]] + w[1..] == w;
    }
  }

  /** Text made of digits and a point has nothing to trim, so it parses as the two parts it shows. */
  lemma {:induction false} ParsePlain(w: string, f: string)
    requires w != "" && f != "" && AllDigits(w) && AllDigits(f)
    ensures ParseDec(w + "." + f) == ParseParts(w, f)
    ensures ParseDec(w) == ParseParts(w, "")
  {
    var s := w + "." + f;
    assert s[|s| - 1] == f[|f| - 1];
    SplitDotPlain(w, f);
  }

  /** The rate shown on a line spells the rate exactly, so two lines show the same rate only if they have it. */
  lemma {:induction false} RateRoundTrip(r: nat)
    ensures ParseDec(DecToRate(r)) == Some(r)
  {
    var w, p := Print(r / SCALE), PadStart(Print(r % SCALE), SCALE_DIGITS);
    assert Pow10(10) == SCALE;
    PadStartValue(r % SCALE, SCALE_DIGITS);
    PrintValue(r / SCALE);
    StripPad(p);
    StrippedParses(w, p, r);
  }

  lemma {:induction false} StrippedParses(w: string, p: string, r: nat)
    requires w != "" && AllDigits(w) && |p| == SCALE_DIGITS && AllDigits(p)
    requires PadEnd(StripZeros(p), SCALE_DIGITS) == p && AllDigits(StripZeros(p))
    requires DigitsValue(w) * SCALE + DigitsValue(p) == r
    ensures ParseDec(if StripZeros(p) == "" then w else w + "." + StripZeros(p)) == Some(r)
  {
    var frac := StripZeros(p);
    assert ParseParts(w, frac) == Some(r);
    ParsePlain(w, if frac == "" then "0" else frac);
  }

  lemma {:induction false} RateIsInjective(a: nat, b: nat)
    ensures DecToRate(a) == DecToRate(b) <==> a == b
  {
    RateRoundTrip(a);
    RateRoundTrip(b);
  }

  lemma {:induction false} TwoPlaces(w: string, f: string)
    requires w != "" && AllDigits(w) && |f| == 2 && AllDigits(f)
    ensures ParseDec(w + "." + f) == Some((DigitsValue(w) * 100 + DigitsValue(f)) * 100_000_000)
  {
    PartsOfTwo(w, f);
    ParsePlain(w, f);
  }

  lemma {:induction false} PartsOfTwo(w: string, f: string)
    requires AllDigits(w) && |f| == 2 && AllDigits(f)
    ensures ParseParts(w, f) == Some((DigitsValue(w) * 100 + DigitsValue(f)) * 100_000_000)
  {
    PadTwo(f);
  }

  lemma {:induction false} PadTwo(f: string)
    requires |f| == 2 && AllDigits(f)
    ensures AllDigits(PadEnd(f, SCALE_DIGITS)) && DigitsValue(PadEnd(f, SCALE_DIGITS)) == DigitsValue(f) * 100_000_000
  {
    assert Pow10(8) == 100_000_000;
    ValueOfConcat(f, Zeros(8));
    ZerosValue(8);
  }

  lemma {:induction false} MinorShape(m: nat)
    ensures MinorToString(m) == Print(m / 100) + "." + PadStart(Print(m % 100), 2)
  {
    var w, f := Print(m / 100), PadStart(Print(m % 100), 2);
    assert "" + w + "." + f == w + "." + f;
  }

  lemma {:induction false} MinorParses(m: nat)
    ensures ParseDec(MinorToString(m)) == Some(m * 100_000_000)
  {
    assert Pow10(2) == 100;
    PadStartValue(m % 100, 2);
    PrintValue(m / 100);
    TwoPlaces(Print(m / 100), PadStart(Print(m % 100), 2));
    MinorShape(m);
  }

  /** Printing and parsing money loses nothing exactly when the amount is not negative: a minus sign reads as junk, so as 0. */
  lemma {:induction false} MinorRoundTrip(m: int)
    ensures ParseMinor(MinorToString(m)) == m <==> m >= 0
  {
    if m >= 0 {
      MinorParses(m);
      RoundExact(m, SCALE);
    } else {
      var s := MinorToString(m);
      assert s[0] == '-';
      assert !IsDigit(SplitDot(Trim(s)).0[0]) by { TrimKeepsSign(s); }
      assert ParseDec(s) == None;
      RoundExact(0, SCALE);
    }
  }

  lemma {:induction false} TrimKeepsSign(s: string)
    requires |s| > 1 && s[0] == '-'
    ensures var t := Trim(s); t != "" && t[0] == '-' && SplitDot(t).0 != "" && SplitDot(t).0[0] == '-'
  {
    TrimEndKeepsHead(s);
  }

  lemma {:induction false} TrimEndKeepsHead(s: string)
    requires s != "" && !IsJsSpace(s[0])
    ensures TrimEnd(s) != "" && TrimEnd(s)[0] == s[0]
  {
    if IsJsSpace(s[|s| - 1]) {
      TrimEndKeepsHead(s[..|s| - 1]);
    }
  }
}
