/** The check of an IBAN: its shape and its check digits, and the mistakes it finds (internal/modules/sepa/xml.go:20-60). */
module Iban {
  // ISO 13616 shape and the ISO/IEC 7064 MOD 97-10 check digits.

  import opened Sequences
  import opened Decimals

  datatype Checked = Ok(iban: string) | NotAnIban | WrongChecksum

  predicate IsUpper(c: char) { 'A' <= c <= 'Z' }

  predicate IsAlnum(c: char) { IsUpper(c) || IsDigit(c) }

  predicate AllAlnum(s: string) { forall i :: 0 <= i < |s| ==> IsAlnum(s[i]) }

  predicate SameClass(c: char, d: char) { (IsDigit(c) && IsDigit(d)) || (IsUpper(c) && IsUpper(d)) }

  /** strings.ToUpper, as far as its result can be a plain letter: dotless i and long s also become one. */
  function Upper(c: char): char {
    if 'a' <= c <= 'z' then ((c as int) - 32) as char
    else if c == '\U{131}' then 'I'
    else if c == '\U{17F}' then 'S'
    else c
  }

  /** The text without spaces and hyphens, in capitals. */
  function Compact(s: string): string {
    if s == "" then "" else
    Compact(s[..|s| - 1]) + if s[|s| - 1] == ' ' || s[|s| - 1] == '-' then "" else [Upper(s[|s| - 1])]
  }

  /** ^[A-Z]{2}[0-9]{2}[A-Z0-9]{11,30}$ */
  predicate Shape(s: string) {
    15 <= |s| <= 34 && IsUpper(s[0]) && IsUpper(s[1]) && IsDigit(s[2]) && IsDigit(s[3]) && AllAlnum(s)
  }

  function Rearranged(s: string): string
    requires |s| >= 4
  {
    s[4..] + s[..4]
  }

  // ---- the number an IBAN stands for --------------------------------------------------------

  /** A letter counts as 10 to 35. */
  function Worth(c: char): (v: nat)
    requires IsAlnum(c)
    ensures if IsDigit(c) then v < 10 else 10 <= v < 36
  {
    if IsDigit(c) then c as int - '0' as int else c as int - 'A' as int + 10
  }

  function Written(c: char): (w: string)
    requires IsAlnum(c)
    ensures AllDigits(w)
  {
    Print(Worth(c))
  }

  /** The text with every letter written out as its two digits. */
  function Expanded(s: string): (e: string)
    requires AllAlnum(s)
    ensures AllDigits(e)
  {
    if s == "" then "" else Expanded(s[..|s| - 1]) + Written(s[|s| - 1])
  }

  function Number(s: string): nat
    requires AllAlnum(s)
  {
    DigitsValue(Expanded(s))
  }

  function Rem(s: string): (r: int)
    requires AllAlnum(s)
    ensures 0 <= r < 97
  {
    Number(s) % 97
  }

  /** One round of the loop. */
  function Step(r: int, c: char): int
    requires IsAlnum(c)
  {
    if IsDigit(c) then (r * 10 + Worth(c)) % 97 else (r * 100 + Worth(c)) % 97
  }

  lemma {:induction false} WrittenValue(c: char)
    requires IsAlnum(c)
    ensures DigitsValue(Written(c)) == Worth(c) && |Written(c)| == (if IsDigit(c) then 1 else 2)
  {
    PrintValue(Worth(c));
  }

  lemma {:induction false} RemainderRolls(n: int, k: int, v: int)
    requires k == 10 || k == 100
    ensures (n * k + v) % 97 == ((n % 97) * k + v) % 97
  {
    var q := n / 97;
    assert n * k + v == (n % 97) * k + v + 97 * (q * k);
  }

  /** The rolling remainder is the remainder of the whole number. */
  lemma {:induction false} RemOfMore(s: string, c: char)
    requires AllAlnum(s) && IsAlnum(c)
    ensures AllAlnum(s + [c]) && Rem(s + [c]) == Step(Rem(s), c)
  {
    var t := s + [c];
    assert t[..|t| - 1] == s;
    WrittenValue(c);
    ValueOfConcat(Expanded(s), Written(c));
    assert Pow10(1) == 10 && Pow10(2) == 100;
    RemainderRolls(Number(s), if IsDigit(c) then 10 else 100, Worth(c));
  }

  lemma {:induction false} RemOfPrefix(s: string, k: nat)
    requires k < |s| && AllAlnum(s)
    ensures AllAlnum(s[..k]) && AllAlnum(s[..k + 1]) && Rem(s[..k + 1]) == Step(Rem(s[..k]), s[k])
  {
    RemOfMore(s[..k], s[k]);
    assert s[..k + 1] == s[..k] + [s[k]];
  }

  predicate Accepted(s: string) { Shape(s) && Rem(Rearranged(s)) == 1 }

  /** The answer to what was typed. */
  function Normalized(s: string): Checked {
    if !Shape(Compact(s)) then NotAnIban else if Accepted(Compact(s)) then Ok(Compact(s)) else WrongChecksum
  }

  method NormalizeIban(s: string) returns (r: Checked)
    ensures r == Normalized(s)
  {
    var iban := Compact(s);
    if !Shape(iban) {
      return NotAnIban;
    }
    var rearranged := Rearranged(iban);
    var rem := 0;
    for k := 0 to |rearranged|
      invariant AllAlnum(rearranged) && AllAlnum(rearranged[..k]) && rem == Rem(rearranged[..k])
    {
      var c := rearranged[k];
      RemOfPrefix(rearranged, k);
      if '0' <= c <= '9' {
        rem := (rem * 10 + (c as int - '0' as int)) % 97;
      } else {
        rem := (rem * 100 + (c as int - 'A' as int + 10)) % 97;
      }
    }
    assert rearranged[..|rearranged|] == rearranged;
    return if rem != 1 then WrongChecksum else Ok(iban);
  }

  lemma {:induction false} CapitalsStay(c: char)
    requires IsAlnum(c)
    ensures Upper(c) == c && c != ' ' && c != '-'
  {}

  /** An accepted IBAN is returned as it is: normalizing is done once and for all. */
  lemma {:induction false} AcceptedIsCompact(s: string)
    requires AllAlnum(s)
    ensures Compact(s) == s
  {
    if s != "" {
      AcceptedIsCompact(s[..|s| - 1]);
      CapitalsStay(s[|s| - 1]);
      assert s == s[..|s| - 1] + [s[|s| - 1]];
    }
  }

  // ---- arithmetic modulo 97 -----------------------------------------------------------------

  lemma {:induction false} SameRemainder(x: int, y: int)
    ensures x % 97 == y % 97 <==> (x - y) % 97 == 0
  {}

  lemma {:induction false} AddMultiple(x: int, m: int)
    ensures (x + 97 * m) % 97 == x % 97
  {}

  lemma {:induction false} Multiple(m: int)
    ensures (97 * m) % 97 == 0
  {}

  lemma {:induction false} Quotient(n: int)
    requires n % 97 == 0
    ensures n == 97 * (n / 97)
  {}

  /** A factor with an inverse can be cancelled. */
  lemma {:induction false} Cancel(k: int, inverse: int, t: int, z: int)
    requires k * inverse == 1 + 97 * t && (k * z) % 97 == 0
    ensures z % 97 == 0
  {
    var q := k * z / 97;
    Quotient(k * z);
    CancelSteps(k, inverse, t, z, q);
    Multiple(q * inverse - t * z);
  }

  lemma {:induction false} CancelSteps(k: int, inverse: int, t: int, z: int, q: int)
    requires k * inverse == 1 + 97 * t && k * z == 97 * q
    ensures z == 97 * (q * inverse - t * z)
  {
    assert (k * inverse) * z == (k * z) * inverse;
    assert (97 * q) * inverse == 97 * (q * inverse);
    assert (1 + 97 * t) * z == z + 97 * (t * z);
  }

  lemma {:induction false} OnlyZero(k: int, inverse: int, t: int, z: int)
    requires k * inverse == 1 + 97 * t && -97 < z < 97
    ensures (k * z) % 97 == 0 <==> z == 0
  {
    if (k * z) % 97 == 0 { Cancel(k, inverse, t, z); }
  }

  // ---- which typing mistakes it finds -------------------------------------------------------

  lemma {:induction false} StepIsInjective(r1: int, r2: int, c: char)
    requires 0 <= r1 < 97 && 0 <= r2 < 97 && IsAlnum(c)
    ensures Step(r1, c) == Step(r2, c) <==> r1 == r2
  {
    var k := if IsDigit(c) then 10 else 100;
    SameRemainder(r1 * k + Worth(c), r2 * k + Worth(c));
    assert r1 * k + Worth(c) - (r2 * k + Worth(c)) == k * (r1 - r2);
    OnlyZero(k, if k == 10 then 68 else 65, if k == 10 then 7 else 67, r1 - r2);
  }

  lemma {:induction false} AlnumConcat(a: string, b: string)
    ensures AllAlnum(a + b) <==> AllAlnum(a) && AllAlnum(b)
  {
    if AllAlnum(a + b) {
      assert forall i :: 0 <= i < |a| ==> a[i] == (a + b)[i];
      assert forall i :: 0 <= i < |b| ==> b[i] == (a + b)[|a| + i];
    }
  }

  /** A common ending neither hides nor creates a difference. */
  lemma {:induction false} EndingKeepsDifference(a: string, b: string, t: string)
    requires AllAlnum(a) && AllAlnum(b) && AllAlnum(t)
    ensures AllAlnum(a + t) && AllAlnum(b + t) && (Rem(a + t) == Rem(b + t) <==> Rem(a) == Rem(b))
  {
    if t == "" {
      assert a + t == a && b + t == b;
    } else {
      var front, c := t[..|t| - 1], t[|t| - 1];
      AlnumPart(t, 0, |t| - 1);
      EndingKeepsDifference(a, b, front);
      LastOfConcat(a, t);
      LastOfConcat(b, t);
      RemOfMore(a + front, c);
      RemOfMore(b + front, c);
      StepIsInjective(Rem(a + front), Rem(b + front), c);
    }
  }

  lemma {:induction false} SameStep(b: int, v: nat, w: nat)
    requires v < 97 && w < 97
    ensures (b + v) % 97 == (b + w) % 97 <==> v == w
  {
    SameRemainder(b + v, b + w);
    assert b + v - (b + w) == v - w;
  }

  lemma {:induction false} DigitIsSeen(r: int, c: char, d: char)
    requires 0 <= r < 97 && SameClass(c, d)
    ensures Step(r, c) == Step(r, d) <==> c == d
  {
    SameStep(r * (if IsDigit(c) then 10 else 100), Worth(c), Worth(d));
  }

  /** A letter and a digit whose order the check cannot tell: B and 1, M and 2, X and 3. */
  predicate Blind(c: char, d: char) {
    (IsUpper(c) && IsDigit(d) && Worth(c) == 11 * Worth(d)) || (IsDigit(c) && IsUpper(d) && Worth(d) == 11 * Worth(c))
  }

  lemma {:induction false} TwoSteps(r: int, k: int, m: int, v: int, w: int)
    requires k == 10 || k == 100
    requires m == 10 || m == 100
    ensures (((r * k + v) % 97) * m + w) % 97 == (r * (k * m) + v * m + w) % 97
  {
    RemainderRolls(r * k + v, m, w);
    assert (r * k + v) * m == r * (k * m) + v * m;
  }

  lemma {:induction false} DigitPair(r: int, v: int, w: int)
    requires 0 <= v < 10 && 0 <= w < 10
    ensures (((r * 10 + v) % 97) * 10 + w) % 97 == (((r * 10 + w) % 97) * 10 + v) % 97 <==> v == w
  {
    TwoSteps(r, 10, 10, v, w);
    TwoSteps(r, 10, 10, w, v);
    SameRemainder(r * 100 + v * 10 + w, r * 100 + w * 10 + v);
    OnlyZero(9, 54, 5, v - w);
  }

  lemma {:induction false} LetterPair(r: int, v: int, w: int)
    requires 10 <= v < 36 && 10 <= w < 36
    ensures (((r * 100 + v) % 97) * 100 + w) % 97 == (((r * 100 + w) % 97) * 100 + v) % 97 <==> v == w
  {
    TwoSteps(r, 100, 100, v, w);
    TwoSteps(r, 100, 100, w, v);
    SameRemainder(r * 10000 + v * 100 + w, r * 10000 + w * 100 + v);
    OnlyZero(99, 49, 50, v - w);
  }

  lemma {:induction false} MixedPair(r: int, v: int, w: int)
    requires 10 <= v < 36 && 0 <= w < 10
    ensures (((r * 100 + v) % 97) * 10 + w) % 97 == (((r * 10 + w) % 97) * 100 + v) % 97 <==> v == 11 * w
  {
    TwoSteps(r, 100, 10, v, w);
    TwoSteps(r, 10, 100, w, v);
    SameRemainder(r * 1000 + v * 10 + w, r * 1000 + w * 100 + v);
    OnlyZero(9, 54, 5, v - 11 * w);
  }

  lemma {:induction false} OrderIsSeen(r: int, c: char, d: char)
    requires 0 <= r < 97 && IsAlnum(c) && IsAlnum(d)
    ensures Step(Step(r, c), d) == Step(Step(r, d), c) <==> c == d || Blind(c, d)
  {
    var v: int, w: int := Worth(c), Worth(d);
    if IsDigit(c) && IsDigit(d) {
      DigitPair(r, v, w);
    } else if IsDigit(c) {
      MixedPair(r, w, v);
    } else if IsDigit(d) {
      MixedPair(r, v, w);
    } else {
      LetterPair(r, v, w);
    }
  }

  lemma {:induction false} ChangeInText(a: string, c: char, d: char, t: string)
    requires AllAlnum(a) && AllAlnum(t) && IsAlnum(c) && IsAlnum(d)
    ensures AllAlnum(a + [c] + t) && AllAlnum(a + [d] + t)
    ensures Rem(a + [c] + t) == Rem(a + [d] + t) <==> Step(Rem(a), c) == Step(Rem(a), d)
  {
    RemOfMore(a, c);
    RemOfMore(a, d);
    EndingKeepsDifference(a + [c], a + [d], t);
  }

  lemma {:induction false} SwapInText(a: string, c: char, d: char, t: string)
    requires AllAlnum(a) && AllAlnum(t) && IsAlnum(c) && IsAlnum(d)
    ensures AllAlnum(a + [c] + [d] + t) && AllAlnum(a + [d] + [c] + t)
    ensures Rem(a + [c] + [d] + t) == Rem(a + [d] + [c] + t) <==> c == d || Blind(c, d)
  {
    RemOfMore(a, c);
    RemOfMore(a, d);
    RemOfMore(a + [c], d);
    RemOfMore(a + [d], c);
    OrderIsSeen(Rem(a), c, d);
    EndingKeepsDifference(a + [c] + [d], a + [d] + [c], t);
  }

  /** Where position i of the IBAN stands in the rearranged text. */
  function Place(s: string, i: nat): nat
    requires i < |s| && |s| >= 4
  {
    if i < 4 then |s| - 4 + i else i - 4
  }

  lemma {:induction false} Placed(s: string, i: nat, c: char)
    requires i < |s| && |s| >= 4
    ensures var p, r := Place(s, i), Rearranged(s);
      r == r[..p] + [s[i]] + r[p + 1..] && Rearranged(s[i := c]) == r[..p] + [c] + r[p + 1..]
  {}

  lemma {:induction false} AlnumPart(s: string, i: nat, j: nat)
    requires AllAlnum(s) && i <= j <= |s|
    ensures AllAlnum(s[i..j])
  {}

  lemma {:induction false} AlnumRearranged(s: string)
    requires |s| >= 4 && AllAlnum(s)
    ensures AllAlnum(Rearranged(s))
  {
    AlnumConcat(s[4..], s[..4]);
  }

  /** One character changed: the check misses it exactly when both characters lead to the same remainder at that place. */
  lemma {:induction false} ChangeIsMissed(s: string, i: nat, c: char)
    requires Accepted(s) && i < |s| && IsAlnum(c)
    ensures var r := Rearranged(s);
      AllAlnum(r[..Place(s, i)]) && (Accepted(s[i := c]) <==> Shape(s[i := c]) && Step(Rem(r[..Place(s, i)]), c) == Step(Rem(r[..Place(s, i)]), s[i]))
  {
    var r, p := Rearranged(s), Place(s, i);
    Placed(s, i, c);
    AlnumRearranged(s);
    AlnumPart(r, 0, p);
    AlnumPart(r, p + 1, |r|);
    ChangeInText(r[..p], s[i], c, r[p + 1..]);
  }

  /** So a digit mistyped as another digit, or a letter as another letter, is never missed. */
  lemma {:induction false} MistypingIsCaught(s: string, i: nat, c: char)
    requires Accepted(s) && i < |s| && c != s[i] && SameClass(c, s[i])
    ensures !Accepted(s[i := c])
  {
    ChangeIsMissed(s, i, c);
    DigitIsSeen(Rem(Rearranged(s)[..Place(s, i)]), c, s[i]);
  }

  function Swapped(s: string, i: nat): string
    requires i + 1 < |s|
  {
    s[i := s[i + 1]][i + 1 := s[i]]
  }

  /** Two neighbours exchanged in the rearranged text. */
  lemma {:induction false} SwapRearranged(r: string, p: nat)
    requires AllAlnum(r) && p + 1 < |r|
    ensures AllAlnum(Swapped(r, p)) && (Rem(Swapped(r, p)) == Rem(r) <==> r[p] == r[p + 1] || Blind(r[p], r[p + 1]))
  {
    AlnumPart(r, 0, p);
    AlnumPart(r, p + 2, |r|);
    SwapInText(r[..p], r[p], r[p + 1], r[p + 2..]);
    assert r == r[..p] + [r[p]] + [r[p + 1]] + r[p + 2..];
    assert Swapped(r, p) == r[..p] + [r[p + 1]] + [r[p]] + r[p + 2..];
  }

  // ---- the fourth and fifth characters end up far apart -------------------------------------

  lemma {:induction false} ExpandedConcat(a: string, b: string)
    requires AllAlnum(a) && AllAlnum(b)
    ensures AllAlnum(a + b) && Expanded(a + b) == Expanded(a) + Expanded(b)
  {
    AlnumConcat(a, b);
    if b == "" {
      assert a + b == a;
    } else {
      var front, c := b[..|b| - 1], b[|b| - 1];
      AlnumPart(b, 0, |b| - 1);
      ExpandedConcat(a, front);
      LastOfConcat(a, b);
      LastApart(b);
      ExpandedMore(a + front, c);
      ExpandedMore(front, c);
      Assoc(Expanded(a), Expanded(front), Written(c));
    }
  }

  lemma {:induction false} ExpandedMore(s: string, c: char)
    requires AllAlnum(s + [c])
    ensures AllAlnum(s) && IsAlnum(c) && Expanded(s + [c]) == Expanded(s) + Written(c)
  {
    AlnumConcat(s, [c]);
    assert (s + [c])[..|s|] == s && (s + [c])[|s|] == c;
  }

  lemma {:induction false} ExpandedLength(s: string)
    requires AllAlnum(s)
    ensures |s| <= |Expanded(s)| <= 2 * |s|
  {
    if s != "" {
      ExpandedLength(s[..|s| - 1]);
      WrittenValue(s[|s| - 1]);
    }
  }

  /** x modulo 97, by subtracting. */
  function Reduced(x: nat): (y: nat)
    requires x < 388
    ensures y == x % 97
  {
    var a := if x >= 194 then x - 194 else x;
    if a >= 97 then a - 97 else a
  }

  /** Of the n powers of 3 from one that leaves p, none leaves 1, nor 68, which times ten leaves 1. */
  predicate NeverOne(p: nat, n: nat)
    requires p < 97
    decreases n
  {
    n == 0 || (p != 1 && p != 68 && NeverOne(Reduced(3 * p), n - 1))
  }

  lemma {:induction false} HundredLeavesThree(p: nat, q: nat)
    requires q == p % 97
    ensures 100 * p % 97 == Reduced(3 * q)
  {
    var m := p / 97;
    assert 100 * p == 3 * q + 97 * (100 * m + q);
    AddMultiple(3 * q, 100 * m + q);
  }

  lemma {:induction false} TenLeaves(p: nat, q: nat)
    requires q == p % 97 && q != 68
    ensures 10 * p % 97 != 1
  {
    var m := p / 97;
    assert 10 * p == 10 * q + 97 * (10 * m);
    AddMultiple(10 * q, 10 * m);
    OnlySixtyEight(q);
  }

  lemma {:induction false} OnlySixtyEight(q: nat)
    requires q < 97
    ensures 10 * q % 97 == 1 <==> q == 68
  {}

  /** 100 leaves 3, so the even powers of ten are the powers of 3, and the odd ones ten times those. */
  lemma {:induction false} PowersAreNotOne(a: nat, q: nat, b: nat, n: nat)
    requires q == Pow10(2 * a) % 97 && NeverOne(q, n) && a <= b < a + n
    ensures Pow10(2 * b) % 97 != 1 && Pow10(2 * b + 1) % 97 != 1
    decreases n
  {
    if a < b {
      assert Pow10(2 * (a + 1)) == 100 * Pow10(2 * a);
      HundredLeavesThree(Pow10(2 * a), q);
      PowersAreNotOne(a + 1, Reduced(3 * q), b, n - 1);
    } else {
      TenLeaves(Pow10(2 * a), q);
    }
  }

  lemma {:induction false} ThreeNeverReturns()
    ensures forall p, n :: p == 3 && n == 33 ==> NeverOne(p, n)
  {
    assert NeverOne(32, 11);
    assert NeverOne(75, 22);
    assert NeverOne(3, 33);
  }

  lemma {:induction false} TenHasLargeOrder(e: nat)
    requires 1 <= e <= 66
    ensures Pow10(e) % 97 != 1
  {
    assert Pow10(1) == 10 && Pow10(2) == 100;
    ThreeNeverReturns();
    if e > 1 { PowersAreNotOne(1, 3, e / 2, 33); }
  }

  lemma {:induction false} SmallTimes(k: int, z: int)
    requires 1 <= k <= 9 && (k * z) % 97 == 0
    ensures z % 97 == 0
  {
    var inverse := [1, 49, 65, 73, 39, 81, 14, 85, 54][k - 1];
    var t := [0, 1, 2, 3, 2, 5, 1, 7, 5][k - 1];
    assert k * inverse == 1 + 97 * t;
    Cancel(k, inverse, t, z);
  }

  /** The first and the last digit of the rearranged text exchanged. */
  lemma {:induction false} EndsAreSeen(x: char, m: string, d: char)
    requires IsDigit(x) && IsDigit(d) && AllAlnum(m) && |m| <= 32
    ensures AllAlnum([x] + m + [d]) && AllAlnum([d] + m + [x])
    ensures Rem([x] + m + [d]) == Rem([d] + m + [x]) <==> x == d
  {
    ExpandedLength(m);
    EndsNumber(x, m, d);
    EndsNumber(d, m, x);
    TenHasLargeOrder(|Expanded(m)| + 1);
    SameRemainder(Number([x] + m + [d]), Number([d] + m + [x]));
    EndsDiffer(Worth(x), Worth(d), Pow10(|Expanded(m)| + 1), Number(m) * 10);
    FarSwapIsSeen(Worth(x) - Worth(d), Pow10(|Expanded(m)| + 1));
  }

  lemma {:induction false} NotOne(p: int)
    requires p % 97 != 1
    ensures (p - 1) % 97 != 0 && (1 - p) % 97 != 0
  {
    var r, m := p % 97, p / 97;
    AddMultiple(r - 1, m);
    AddMultiple(1 - r, -m);
    assert (r - 1) % 97 != 0 && (1 - r) % 97 != 0;
    assert p - 1 == r - 1 + 97 * m && 1 - p == 1 - r + 97 * (-m);
  }

  lemma {:induction false} FarSwapIsSeen(k: int, p: int)
    requires -9 <= k <= 9 && p % 97 != 1
    ensures (k * (p - 1)) % 97 == 0 <==> k == 0
  {
    NotOne(p);
    assert (-k) * (1 - p) == k * (p - 1);
    if k > 0 && (k * (p - 1)) % 97 == 0 {
      SmallTimes(k, p - 1);
    } else if k < 0 && (k * (p - 1)) % 97 == 0 {
      SmallTimes(-k, 1 - p);
    }
  }

  lemma {:induction false} EndsDiffer(a: int, b: int, p: int, n: int)
    ensures a * p + n + b - (b * p + n + a) == (a - b) * (p - 1)
  {}

  lemma {:induction false} EndsNumber(x: char, m: string, d: char)
    requires IsDigit(x) && IsDigit(d) && AllAlnum(m)
    ensures AllAlnum([x] + m + [d])
    ensures Number([x] + m + [d]) == Worth(x) * Pow10(|Expanded(m)| + 1) + Number(m) * 10 + Worth(d)
  {
    ExpandedConcat([x], m);
    ExpandedConcat([x] + m, [d]);
    SingleExpanded(x);
    SingleExpanded(d);
    ValueOfConcat(Expanded([x]), Expanded(m));
    ValueOfConcat(Expanded([x] + m), Expanded([d]));
    assert Pow10(1) == 10;
    EndsRegroup(Worth(x), Pow10(|Expanded(m)|), Number(m), Worth(d));
  }

  lemma {:induction false} EndsRegroup(x: int, p: int, n: int, d: int)
    ensures (x * p + n) * 10 + d == x * (10 * p) + n * 10 + d
  {}

  lemma {:induction false} SingleExpanded(c: char)
    requires IsDigit(c)
    ensures AllAlnum([c]) && |Expanded([c])| == 1 && DigitsValue(Expanded([c])) == Worth(c)
  {
    WrittenValue(c);
    assert [c][..0] == "";
    assert Expanded([c]) == Written(c);
  }

  lemma {:induction false} SwapPlaced(s: string, i: nat)
    requires |s| >= 5 && i + 1 < |s| && i != 3
    ensures Place(s, i) + 1 < |s| && Rearranged(Swapped(s, i)) == Swapped(Rearranged(s), Place(s, i))
    ensures Rearranged(s)[Place(s, i)] == s[i] && Rearranged(s)[Place(s, i) + 1] == s[i + 1]
  {}

  lemma {:induction false} FarSwapPlaced(s: string)
    requires |s| >= 5
    ensures var m := s[5..] + s[..3]; Rearranged(s) == [s[4]] + m + [s[3]] && Rearranged(Swapped(s, 3)) == [s[3]] + m + [s[4]]
  {}

  /** The fourth and the fifth character exchanged. */
  lemma {:induction false} FarSwapIsCaught(s: string)
    requires Accepted(s) && s[3] != s[4]
    ensures !Accepted(Swapped(s, 3))
  {
    if IsDigit(s[4]) {
      AlnumPart(s, 5, |s|);
      AlnumPart(s, 0, 3);
      AlnumConcat(s[5..], s[..3]);
      EndsAreSeen(s[4], s[5..] + s[..3], s[3]);
      FarSwapPlaced(s);
    } else {
      assert Swapped(s, 3)[3] == s[4];
    }
  }

  /** Two different neighbours of an accepted IBAN exchanged: missed exactly for a blind letter-digit pair of the account part. */
  lemma {:induction false} SwapIsMissed(s: string, i: nat)
    requires Accepted(s) && i + 1 < |s| && s[i] != s[i + 1]
    ensures Accepted(Swapped(s, i)) <==> i >= 4 && Blind(s[i], s[i + 1])
  {
    if i == 3 {
      FarSwapIsCaught(s);
    } else {
      AlnumRearranged(s);
      SwapRearranged(Rearranged(s), Place(s, i));
      SwapPlaced(s, i);
      SwappedShape(s, i);
    }
  }

  lemma {:induction false} SwappedShape(s: string, i: nat)
    requires Shape(s) && i + 1 < |s| && i != 3
    ensures Shape(Swapped(s, i)) <==> i != 1
    ensures i < 4 && i != 1 ==> SameClass(s[i], s[i + 1])
  {
    var t := Swapped(s, i);
    assert forall k :: 0 <= k < |s| ==> t[k] == if k == i then s[i + 1] else if k == i + 1 then s[i] else s[k];
    if i == 1 {
      assert IsDigit(t[1]);
    }
  }

  // ---- the two shapes -----------------------------------------------------------------------

  /** Two letters, two digits, then 11 to 30 letters and digits. */
  lemma {:induction false} ShapeExactly(s: string)
    ensures Shape(s) <==>
      && 2 + 2 + 11 <= |s| <= 2 + 2 + 30
      && (forall i :: 0 <= i < 2 ==> 'A' <= s[i] <= 'Z') && (forall i :: 2 <= i < 4 ==> '0' <= s[i] <= '9')
      && forall i :: 4 <= i < |s| ==> 'A' <= s[i] <= 'Z' || '0' <= s[i] <= '9'
  {}

  /** Nothing, or six letters and two letters or digits, and possibly three more. */
  lemma {:induction false} BicExactly(b: string)
    ensures BicOk(b) <==>
      || b == ""
      || ((|b| == 6 + 2 || |b| == 6 + 2 + 3) && (forall i :: 0 <= i < 6 ==> 'A' <= b[i] <= 'Z')
          && forall i :: 6 <= i < |b| ==> 'A' <= b[i] <= 'Z' || '0' <= b[i] <= '9')
  {}

  // ---- how it is typed ----------------------------------------------------------------------

  lemma {:induction false} CompactMore(s: string, c: char)
    ensures Compact(s + [c]) == Compact(s) + if c == ' ' || c == '-' then "" else [Upper(c)]
  {
    assert (s + [c])[..|s|] == s;
  }

  /** A space or a hyphen more, anywhere, makes no difference. */
  lemma {:induction false} GapsAreIgnored(a: string, c: char, b: string)
    requires c == ' ' || c == '-'
    ensures Compact(a + [c] + b) == Compact(a + b) && Normalized(a + [c] + b) == Normalized(a + b)
  {
    if b == "" {
      assert a + [c] + b == a + [c] && a + b == a;
      CompactMore(a, c);
    } else {
      var front, last := b[..|b| - 1], b[|b| - 1];
      GapsAreIgnored(a, c, front);
      assert a + [c] + b == a + [c] + front + [last] && a + b == a + front + [last];
      CompactMore(a + [c] + front, last);
      CompactMore(a + front, last);
    }
  }

  predicate SameLetter(c: char, d: char) {
    c == d || ('a' <= c <= 'z' && d as int == c as int - 32) || ('a' <= d <= 'z' && c as int == d as int - 32)
  }

  /** Nor do small letters and capitals. */
  lemma {:induction false} CaseIsIgnored(s: string, t: string)
    requires |s| == |t| && forall i :: 0 <= i < |s| ==> SameLetter(s[i], t[i])
    ensures Compact(s) == Compact(t) && Normalized(s) == Normalized(t)
  {
    if s != "" { CaseIsIgnored(s[..|s| - 1], t[..|t| - 1]); }
  }

  // ---- the bank's code ----------------------------------------------------------------------

  /** The text without spaces, in capitals. */
  function Unspaced(s: string): string {
    if s == "" then "" else Unspaced(s[..|s| - 1]) + if s[|s| - 1] == ' ' then "" else [Upper(s[|s| - 1])]
  }

  /** ^[A-Z]{6}[A-Z0-9]{2}([A-Z0-9]{3})?$, or nothing. */
  predicate BicOk(bic: string) {
    bic == "" || ((|bic| == 8 || |bic| == 11) && AllAlnum(bic) && forall i :: 0 <= i < 6 ==> IsUpper(bic[i]))
  }
}
