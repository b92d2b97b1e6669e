/** The text cleaner for SEPA files (internal/modules/sepa/xml.go:69-101). */
module SepaText {
  import opened Wrappers
  import opened Sequences
  import opened Decimals

  predicate IsLetterOrDigit(c: char) { 'a' <= c <= 'z' || 'A' <= c <= 'Z' || '0' <= c <= '9' }

  predicate IsSign(c: char) {
    c == '/' || c == '-' || c == '?' || c == ':' || c == '(' || c == ')' || c == '.' || c == ',' || c == '\'' || c == '+' || c == ' '
  }

  /** The SEPA character set: letters, digits, a few signs and the space. */
  predicate InSet(c: char) { IsLetterOrDigit(c) || IsSign(c) }

  predicate AllInSet(s: string) { forall i :: 0 <= i < |s| ==> InSet(s[i]) }

  /** The small letter under an accent. */
  function PlainSmall(c: char): (t: string)
    ensures AllInSet(t) && (t != "" ==> c >= '\U{E0}')
  {
    match c
    case '\U{E1}' | '\U{E0}' | '\U{E2}' | '\U{E4}' | '\U{E3}' | '\U{E5}' => "a"
    case '\U{E9}' | '\U{E8}' | '\U{EA}' | '\U{EB}' => "e"
    case '\U{ED}' | '\U{EC}' | '\U{EE}' | '\U{EF}' => "i"
    case '\U{F3}' | '\U{F2}' | '\U{F4}' | '\U{F6}' | '\U{F5}' | '\U{F8}' => "o"
    case '\U{FA}' | '\U{F9}' | '\U{FB}' | '\U{FC}' => "u"
    case '\U{F1}' => "n"
    case '\U{E7}' => "c"
    case '\U{FD}' | '\U{FF}' => "y"
    case _ => ""
  }

  /** The capital under an accent. */
  function PlainCapital(c: char): (t: string)
    ensures AllInSet(t) && (t != "" ==> '\U{C0}' <= c < '\U{DF}')
  {
    match c
    case '\U{C1}' | '\U{C0}' | '\U{C2}' | '\U{C4}' | '\U{C3}' | '\U{C5}' => "A"
    case '\U{C9}' | '\U{C8}' | '\U{CA}' | '\U{CB}' => "E"
    case '\U{CD}' | '\U{CC}' | '\U{CE}' | '\U{CF}' => "I"
    case '\U{D3}' | '\U{D2}' | '\U{D4}' | '\U{D6}' | '\U{D5}' | '\U{D8}' => "O"
    case '\U{DA}' | '\U{D9}' | '\U{DB}' | '\U{DC}' => "U"
    case '\U{D1}' => "N"
    case '\U{C7}' => "C"
    case _ => ""
  }

  /** The table of replacements; the typographic quotes are dropped. */
  function Translit(c: char): (t: Option<string>)
    ensures t.Some? ==> AllInSet(t.value) && !InSet(c)
  {
    if PlainSmall(c) != "" then Some(PlainSmall(c))
    else if PlainCapital(c) != "" then Some(PlainCapital(c))
    else match c
      case '\U{DF}' => Some("ss")
      case '\U{E6}' => Some("ae")
      case '\U{C6}' => Some("AE")
      case '&' => Some("+")
      case '\U{2019}' | '\U{2018}' => Some("'")
      case '\U{201C}' | '\U{201D}' => Some("")
      case '\U{20AC}' => Some("EUR")
      case '\U{2013}' | '\U{2014}' => Some("-")
      case _ => None
  }

  /** What one character becomes before spaces are tidied up. */
  function Replaced(c: char): string { if Translit(c).Some? then Translit(c).value else if InSet(c) then [c] else " " }

  function ReplacedAll(s: string): string {
    if s == "" then "" else ReplacedAll(s[..|s| - 1]) + Replaced(s[|s| - 1])
  }

  predicate EndsIn(c: char, s: string) { s != "" && s[|s| - 1] == c }

  /** strings.Fields: the words between spaces. */
  function Fields(t: string): seq<string> {
    if t == "" then [] else
    var front, c := t[..|t| - 1], t[|t| - 1];
    var ws := Fields(front);
    if c == ' ' then ws
    else if front == "" || EndsIn(' ', front) || ws == [] then ws + [[c]]
    else ws[..|ws| - 1] + [ws[|ws| - 1] + [c]]
  }

  /** strings.Join with a space. */
  function Join(ws: seq<string>): string {
    if |ws| == 0 then "" else if |ws| == 1 then ws[0] else Join(ws[..|ws| - 1]) + " " + ws[|ws| - 1]
  }

  function Squeezed(t: string): string { Join(Fields(t)) }

  function TrimLeft(t: string): string { if t != "" && t[0] == ' ' then TrimLeft(t[1..]) else t }

  function TrimRight(t: string): string { if EndsIn(' ', t) then TrimRight(t[..|t| - 1]) else t }

  function Cut(t: string, max: nat): string { if |t| > max then TrimRight(TrimLeft(t[..max])) else t }

  function Cleaned(s: string, max: nat): string { Cut(Squeezed(ReplacedAll(s)), max) }

  method Clean(s: string, max: nat) returns (out: string)
    ensures out == Cleaned(s, max)
  {
    var b := "";
    for i := 0 to |s|
      invariant b == ReplacedAll(s[..i])
    {
      assert s[..i + 1][..i] == s[..i];
      var t := Translit(s[i]);
      if t.Some? {
        b := b + t.value;
        continue;
      }
      if 'a' <= s[i] <= 'z' || 'A' <= s[i] <= 'Z' || '0' <= s[i] <= '9' {
        b := b + [s[i]];
      } else if IsSign(s[i]) {
        b := b + [s[i]];
      } else {
        b := b + " ";
      }
    }
    assert s[..|s|] == s;
    out := Join(Fields(b));
    if |out| > max {
      out := TrimRight(TrimLeft(out[..max]));
    }
  }

  // ---- what a clean text is -----------------------------------------------------------------

  /** Single spaces only, and none at the start. */
  predicate HalfTidy(t: string) { forall i :: 0 <= i < |t| && t[i] == ' ' ==> 0 < i && t[i - 1] != ' ' }

  /** Single spaces only, and none at either end. */
  predicate Tidy(t: string) { HalfTidy(t) && !EndsIn(' ', t) }

  predicate IsClean(t: string, max: nat) { AllInSet(t) && Tidy(t) && |t| <= max }

  lemma {:induction false} JoinLonger(ws: seq<string>, c: char)
    requires ws != []
    ensures Join(ws[..|ws| - 1] + [ws[|ws| - 1] + [c]]) == Join(ws) + [c]
  {
    var front, last := ws[..|ws| - 1], ws[|ws| - 1];
    assert ws == front + [last];
  }

  /** Squeezing one more character: a space is held back until something follows it. */
  lemma {:induction false} SqueezeMore(t: string, c: char)
    ensures var ws := Fields(t);
      Squeezed(t + [c]) == if c == ' ' then Squeezed(t) else if ws == [] then [c] else if EndsIn(' ', t) then Squeezed(t) + " " + [c] else Squeezed(t) + [c]
    ensures Fields(t + [c]) == [] <==> c == ' ' && Fields(t) == []
  {
    assert (t + [c])[..|t|] == t;
    if Fields(t) != [] { JoinLonger(Fields(t), c); }
  }

  lemma {:induction false} HalfTidyMore(t: string, c: char)
    ensures HalfTidy(t + [c]) <==> HalfTidy(t) && (c == ' ' ==> t != "" && !EndsIn(' ', t))
  {
    if HalfTidy(t + [c]) {
      assert forall i :: 0 <= i < |t| ==> (t + [c])[i] == t[i];
      assert (t + [c])[|t|] == c;
    }
  }

  lemma {:induction false} InSetMore(t: string, c: char)
    ensures AllInSet(t + [c]) <==> AllInSet(t) && InSet(c)
  {
    if AllInSet(t + [c]) {
      assert forall i :: 0 <= i < |t| ==> (t + [c])[i] == t[i];
      assert (t + [c])[|t|] == c;
    }
  }

  lemma {:induction false} SqueezedIsTidy(t: string)
    requires AllInSet(t)
    ensures Tidy(Squeezed(t)) && AllInSet(Squeezed(t)) && (Squeezed(t) == "" <==> Fields(t) == [])
  {
    if t != "" {
      var front, c := t[..|t| - 1], t[|t| - 1];
      LastApart(t);
      InSetMore(front, c);
      SqueezedIsTidy(front);
      SqueezeMore(front, c);
      if c != ' ' { MoreIsTidy(Squeezed(front), c); }
    }
  }

  lemma {:induction false} MoreIsTidy(q: string, c: char)
    requires Tidy(q) && AllInSet(q) && InSet(c) && c != ' '
    ensures Tidy(q + [c]) && AllInSet(q + [c]) && Tidy([c]) && AllInSet([c])
    ensures q != "" ==> Tidy(q + " " + [c]) && AllInSet(q + " " + [c])
  {
    HalfTidyMore(q, c);
    InSetMore(q, c);
    HalfTidyMore(q, ' ');
    InSetMore(q, ' ');
    HalfTidyMore(q + " ", c);
    InSetMore(q + " ", c);
  }

  /** A tidy text is left as it is. */
  lemma {:induction false} SqueezedTidy(t: string)
    requires HalfTidy(t)
    ensures Squeezed(t) == (if EndsIn(' ', t) then t[..|t| - 1] else t) && (Fields(t) == [] <==> t == "")
  {
    if t != "" {
      var front, c := t[..|t| - 1], t[|t| - 1];
      LastApart(t);
      HalfTidyMore(front, c);
      SqueezedTidy(front);
      SqueezeMore(front, c);
      if EndsIn(' ', front) { LastApart(front); }
    }
  }

  lemma {:induction false} ReplacedInSet(s: string)
    ensures AllInSet(ReplacedAll(s))
  {
    if s != "" {
      var front, c := s[..|s| - 1], s[|s| - 1];
      ReplacedInSet(front);
    }
  }

  lemma {:induction false} InSetIsKept(s: string)
    requires AllInSet(s)
    ensures ReplacedAll(s) == s
  {
    if s != "" {
      LastApart(s);
      InSetIsKept(s[..|s| - 1]);
    }
  }

  lemma {:induction false} TrimmedPrefix(t: string)
    requires HalfTidy(t)
    ensures TrimLeft(t) == t && TrimRight(t) == (if EndsIn(' ', t) then t[..|t| - 1] else t)
    ensures Tidy(TrimRight(t))
  {}

  /** Whatever comes in, a clean text comes out. */
  lemma {:induction false} CleanedIsClean(s: string, max: nat)
    ensures IsClean(Cleaned(s, max), max)
  {
    ReplacedInSet(s);
    var t := Squeezed(ReplacedAll(s));
    SqueezedIsTidy(ReplacedAll(s));
    if |t| > max {
      TrimmedPrefix(t[..max]);
    }
  }

  /** The clean texts are exactly those that cleaning leaves alone; so cleaning twice is cleaning once. */
  lemma {:induction false} CleanIsFixed(s: string, max: nat)
    ensures Cleaned(s, max) == s <==> IsClean(s, max)
    ensures Cleaned(Cleaned(s, max), max) == Cleaned(s, max)
  {
    CleanedIsClean(s, max);
    if IsClean(s, max) { FixedIfClean(s, max); }
    FixedIfClean(Cleaned(s, max), max);
  }

  lemma {:induction false} FixedIfClean(s: string, max: nat)
    requires IsClean(s, max)
    ensures Cleaned(s, max) == s
  {
    InSetIsKept(s);
    SqueezedTidy(s);
  }

  lemma {:induction false} SqueezingKeepsWords(t: string)
    requires AllInSet(t)
    ensures Fields(Squeezed(t)) == Fields(t)
  {
    if t != "" {
      var front, c := t[..|t| - 1], t[|t| - 1];
      LastApart(t);
      InSetMore(front, c);
      SqueezingKeepsWords(front);
      SqueezedIsTidy(front);
      SqueezeMore(front, c);
      assert "" + [c] == [c];
    }
  }

  /** Unless the text is too long, every word survives, in order. */
  lemma {:induction false} WordsAreKept(s: string, max: nat)
    requires |Squeezed(ReplacedAll(s))| <= max
    ensures Fields(Cleaned(s, max)) == Fields(ReplacedAll(s))
  {
    ReplacedInSet(s);
    SqueezingKeepsWords(ReplacedAll(s));
  }


  // ---- what is lost -------------------------------------------------------------------------

  /** A text that is too long is cut to the longest prefix within the limit that does not end in a space. */
  lemma {:induction false} LongestPrefixIsKept(s: string, max: nat)
    ensures var t, r := Squeezed(ReplacedAll(s)), Cleaned(s, max);
      && |r| <= |t| && r == t[..|r|] && |r| <= max && !EndsIn(' ', r)
      && forall n :: |r| < n <= max && n <= |t| ==> EndsIn(' ', t[..n])
  {
    ReplacedInSet(s);
    var t := Squeezed(ReplacedAll(s));
    SqueezedIsTidy(ReplacedAll(s));
    if |t| > max {
      TrimmedPrefix(t[..max]);
      CutShape(t, max);
    } else {
      assert t[..|t|] == t;
    }
  }

  lemma {:induction false} CutShape(t: string, max: nat)
    requires HalfTidy(t) && max < |t|
    ensures var p := t[..max]; var r := if EndsIn(' ', p) then p[..|p| - 1] else p;
      && r == t[..|r|] && |r| <= max && !EndsIn(' ', r) && forall n :: |r| < n <= max ==> EndsIn(' ', t[..n])
  {
    var p := t[..max];
    if EndsIn(' ', p) {
      assert t[max - 1] == ' ' && p[..|p| - 1] == t[..max - 1];
    }
  }

  lemma {:induction false} SmallLetters(c: char)
    ensures c in "\U{E1}\U{E0}\U{E2}\U{E4}\U{E3}\U{E5}" ==> PlainSmall(c) == "a"
    ensures c in "\U{E9}\U{E8}\U{EA}\U{EB}" ==> PlainSmall(c) == "e"
    ensures c in "\U{ED}\U{EC}\U{EE}\U{EF}" ==> PlainSmall(c) == "i"
    ensures c in "\U{F3}\U{F2}\U{F4}\U{F6}\U{F5}\U{F8}" ==> PlainSmall(c) == "o"
    ensures c in "\U{FA}\U{F9}\U{FB}\U{FC}" ==> PlainSmall(c) == "u"
    ensures c in "\U{FD}\U{FF}" ==> PlainSmall(c) == "y"
    ensures (c == '\U{F1}' ==> PlainSmall(c) == "n") && (c == '\U{E7}' ==> PlainSmall(c) == "c")
  {}

  lemma {:induction false} CapitalLetters(c: char)
    ensures c in "\U{C1}\U{C0}\U{C2}\U{C4}\U{C3}\U{C5}" ==> PlainCapital(c) == "A"
    ensures c in "\U{C9}\U{C8}\U{CA}\U{CB}" ==> PlainCapital(c) == "E"
    ensures c in "\U{CD}\U{CC}\U{CE}\U{CF}" ==> PlainCapital(c) == "I"
    ensures c in "\U{D3}\U{D2}\U{D4}\U{D6}\U{D5}\U{D8}" ==> PlainCapital(c) == "O"
    ensures c in "\U{DA}\U{D9}\U{DB}\U{DC}" ==> PlainCapital(c) == "U"
    ensures (c == '\U{D1}' ==> PlainCapital(c) == "N") && (c == '\U{C7}' ==> PlainCapital(c) == "C")
  {}

  lemma {:induction false} ReplacedByBase(c: char, t: string)
    requires t != "" && (PlainSmall(c) == t || PlainCapital(c) == t)
    ensures Replaced(c) == t
  {}

  /** The base letter of a letter with an accent, a cedilla, a ring or a stroke. */
  function BaseOf(c: char): string {
    if c in "\U{E1}\U{E0}\U{E2}\U{E4}\U{E3}\U{E5}" then "a"
    else if c in "\U{C1}\U{C0}\U{C2}\U{C4}\U{C3}\U{C5}" then "A"
    else if c in "\U{E9}\U{E8}\U{EA}\U{EB}" then "e"
    else if c in "\U{C9}\U{C8}\U{CA}\U{CB}" then "E"
    else if c in "\U{ED}\U{EC}\U{EE}\U{EF}" then "i"
    else if c in "\U{CD}\U{CC}\U{CE}\U{CF}" then "I"
    else if c in "\U{F3}\U{F2}\U{F4}\U{F6}\U{F5}\U{F8}" then "o"
    else if c in "\U{D3}\U{D2}\U{D4}\U{D6}\U{D5}\U{D8}" then "O"
    else if c in "\U{FA}\U{F9}\U{FB}\U{FC}" then "u"
    else if c in "\U{DA}\U{D9}\U{DB}\U{DC}" then "U"
    else if c in "\U{FD}\U{FF}" then "y"
    else if c == '\U{F1}' then "n" else if c == '\U{D1}' then "N"
    else if c == '\U{E7}' then "c" else if c == '\U{C7}' then "C" else ""
  }

  /** Such letters keep their base letter. */
  lemma {:induction false} BaseLetters(c: char)
    requires BaseOf(c) != ""
    ensures Replaced(c) == BaseOf(c)
  {
    SmallLetters(c);
    CapitalLetters(c);
    ReplacedByBase(c, BaseOf(c));
  }

  /** The other signs that have a plain form. */
  lemma {:induction false} OtherSigns()
    ensures Replaced('\U{DF}') == "ss" && Replaced('\U{E6}') == "ae" && Replaced('\U{C6}') == "AE" && Replaced('&') == "+" && Replaced('\U{20AC}') == "EUR"
    ensures Replaced('\U{2018}') == "'" && Replaced('\U{2019}') == "'" && Replaced('\U{2013}') == "-" && Replaced('\U{2014}') == "-"
    ensures Replaced('\U{201C}') == "" && Replaced('\U{201D}') == ""
  {
    TwoLetters();
    SingleQuotes();
    DoubleQuotes();
    DashesAndEuro();
  }

  lemma {:induction false} TwoLetters()
    ensures Replaced('\U{DF}') == "ss" && Replaced('\U{E6}') == "ae" && Replaced('\U{C6}') == "AE" && Replaced('&') == "+"
  {}

  lemma {:induction false} SingleQuotes()
    ensures Replaced('\U{2018}') == "'" && Replaced('\U{2019}') == "'"
  {}

  lemma {:induction false} DoubleQuotes()
    ensures Replaced('\U{201C}') == "" && Replaced('\U{201D}') == ""
  {}

  lemma {:induction false} DashesAndEuro()
    ensures Replaced('\U{2013}') == "-" && Replaced('\U{2014}') == "-" && Replaced('\U{20AC}') == "EUR"
  {}

  /** Letters, digits and the signs of the set stay; what has no plain form becomes a space. */
  lemma {:induction false} TheRest(c: char)
    ensures 'a' <= c <= 'z' || 'A' <= c <= 'Z' || '0' <= c <= '9' || c in "/-?:().,'+ " ==> Replaced(c) == [c]
    ensures Translit(c).None? && !('a' <= c <= 'z' || 'A' <= c <= 'Z' || '0' <= c <= '9' || c in "/-?:().,'+ ") ==> Replaced(c) == " "
  {
    SetSigns(c);
  }

  lemma {:induction false} SetSigns(c: char)
    ensures c in "/-?:().,'+ " <==> IsSign(c)
  {
    assert forall k :: 0 <= k < 11 ==> "/-?:().,'+ "[k] in "/-?:().,'+ ";
  }
}
