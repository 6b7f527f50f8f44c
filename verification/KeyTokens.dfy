/** Reading paths, numbers and names out of a text
    (src/application/kernel/compaction_verifier.py, lines 26-130).

    The clock expression is an ordered list of fixed patterns of character classes: a
    regular-expression alternation tries its alternatives in that order. */
module KeyTokens {
  import opened Texts

  // ---------------------------------------------------------------- normalising

  predicate IsDash(c: char) {
    var n := c as int;
    0x2010 <= n <= 0x2015 || n == 0x2212
  }

  /** Unicode category Cf, the format characters. */
  predicate IsFormat(c: char) {
    var n := c as int;
    || n == 0xAD || 0x600 <= n <= 0x605 || n == 0x61C || n == 0x6DD || n == 0x70F || 0x890 <= n <= 0x891
    || n == 0x8E2 || n == 0x180E || 0x200B <= n <= 0x200F || 0x202A <= n <= 0x202E || 0x2060 <= n <= 0x2064
    || 0x2066 <= n <= 0x206F || n == 0xFEFF || 0xFFF9 <= n <= 0xFFFB || n == 0x110BD || n == 0x110CD
    || 0x13430 <= n <= 0x1343F || 0x1BCA0 <= n <= 0x1BCA3 || 0x1D173 <= n <= 0x1D17A || n == 0xE0001
    || 0xE0020 <= n <= 0xE007F
  }

  function NormalizeChar(c: char): string {
    if IsDash(c) then "-" else if IsFormat(c) then "" else [c]
  }

  function Normalize(s: string): string {
    if s == "" then "" else NormalizeChar(s[0]) + Normalize(s[1..])
  }

  predicate Ascii(s: string) {
    forall c <- s :: c as int < 128
  }

  lemma {:induction false} NormalizeOfConcat(a: string, b: string)
    ensures Normalize(a + b) == Normalize(a) + Normalize(b)
  {
    if a == "" {
      assert a + b == b;
    } else {
      assert (a + b)[1..] == a[1..] + b;
      NormalizeOfConcat(a[1..], b);
    }
  }

  lemma {:induction false} NormalizeAscii(s: string)
    requires Ascii(s)
    ensures Normalize(s) == s
  {
    if s != "" {
      assert s[0] in s;
      AsciiTail(s);
      NormalizeAscii(s[1..]);
      assert NormalizeChar(s[0]) == [s[0]] && [s[0]] + s[1..] == s;
    }
  }

  lemma {:induction false} AsciiTail(s: string)
    requires Ascii(s) && s != ""
    ensures Ascii(s[1..])
  {
    assert forall c <- s[1..] :: c in s;
  }

  /** Normalising twice changes nothing more. */
  lemma {:induction false} NormalizeTwice(s: string)
    ensures Normalize(Normalize(s)) == Normalize(s)
  {
    if s != "" {
      NormalizeTwice(s[1..]);
      NormalizeOfConcat(NormalizeChar(s[0]), Normalize(s[1..]));
      assert Normalize("") == "";
      if !IsFormat(s[0]) || IsDash(s[0]) {
        var c := NormalizeChar(s[0]);
        assert c[1..] == "" && Normalize(c) == NormalizeChar(c[0]) + "" == c;
      }
    }
  }

  // ---------------------------------------------------------------- the tokeniser

  datatype Class = Digit | Hyphen | HyphenOrSlash | Colon | DateTimeGap

  type Pattern = seq<Class>

  /** \d, for ASCII digits. */
  predicate IsDigit(c: char) {
    '0' <= c <= '9'
  }

  predicate IsLetter(c: char) {
    'a' <= c <= 'z' || 'A' <= c <= 'Z'
  }

  predicate IsWordChar(c: char) {
    IsDigit(c) || IsLetter(c) || c == '_' || c == '.' || c == '/' || c == '-'
  }

  predicate In(k: Class, c: char) {
    match k
    case Digit => IsDigit(c)
    case Hyphen => c == '-'
    case HyphenOrSlash => c == '-' || c == '/'
    case Colon => c == ':'
    case DateTimeGap => c == 'T' || c == ' '
  }

  const DATE: Pattern := [Digit, Digit, Digit, Digit, Hyphen, Digit, Digit, Hyphen, Digit, Digit]
  const ANY_DATE: Pattern :=
    [Digit, Digit, Digit, Digit, HyphenOrSlash, Digit, Digit, HyphenOrSlash, Digit, Digit]
  const HOUR2: Pattern := [Digit, Digit, Colon, Digit, Digit]
  const HOUR1: Pattern := [Digit, Colon, Digit, Digit]
  const SECONDS: Pattern := [Colon, Digit, Digit]

  /** Longest first within an alternative, as greedy quantifiers try them. */
  function ClockPatterns(): seq<Pattern> {
    [ DATE + [DateTimeGap] + HOUR2 + SECONDS, DATE + [DateTimeGap] + HOUR2,
      DATE + [DateTimeGap] + HOUR1 + SECONDS, DATE + [DateTimeGap] + HOUR1,
      ANY_DATE,
      HOUR2 + SECONDS, HOUR2, HOUR1 + SECONDS, HOUR1 ]
  }

  predicate Matches(p: Pattern, s: string) {
    p == [] || (s != "" && In(p[0], s[0]) && Matches(p[1..], s[1..]))
  }

  /** The length of the first pattern that matches at the start of s, or 0. */
  function FirstMatch(ps: seq<Pattern>, s: string): nat {
    if ps == [] then 0 else if Matches(ps[0], s) then |ps[0]| else FirstMatch(ps[1..], s)
  }

  function WordRun(s: string): (n: nat)
    ensures n <= |s|
  {
    if s != "" && IsWordChar(s[0]) then 1 + WordRun(s[1..]) else 0
  }

  /** The length of the token that starts at the start of s, or 0 when none does. */
  function TokenLength(s: string): nat {
    var clock := FirstMatch(ClockPatterns(), s);
    if clock > 0 then clock else WordRun(s)
  }

  const TRAILING: string := ".,;:)!?\"']}>"

  function Kept(token: string): seq<string> {
    var cleaned := StripEnd(token, Chars(TRAILING));
    if cleaned == "" then [] else [cleaned]
  }

  /** The token at the start of s, if there is one. */
  function TokenHere(s: string): seq<string> {
    TokenFits(s);
    Kept(s[..TokenLength(s)])
  }

  /** How far the tokeniser moves: past the token, or past one character. */
  function StepLength(s: string): (m: nat)
    requires s != ""
    ensures 0 < m <= |s|
  {
    TokenFits(s);
    if TokenLength(s) == 0 then 1 else TokenLength(s)
  }

  function Tokens(s: string): seq<string>
    decreases |s|
  {
    if s == "" then [] else TokenHere(s) + Tokens(s[StepLength(s)..])
  }

  /** The units of any text, normalised first. */
  function Units(text: string): seq<string> {
    Tokens(Normalize(text))
  }

  // ---------------------------------------------------------------- facts about the patterns

  /** Every clock pattern starts and ends with a digit, and its gap follows a digit. */
  predicate ClockLike(p: Pattern) {
    p != [] && p[0] == Digit && p[|p| - 1] == Digit && GapsFollowDigits(p)
  }

  predicate GapsFollowDigits(p: Pattern) {
    forall i :: 0 < i < |p| && p[i] == DateTimeGap ==> p[i - 1] == Digit
  }

  lemma ClockPatternsAreClockLike(i: nat)
    requires i < |ClockPatterns()|
    ensures ClockLike(ClockPatterns()[i])
  {
  }

  lemma {:induction false} MatchFits(p: Pattern, s: string)
    requires Matches(p, s)
    ensures |p| <= |s|
    ensures forall i :: 0 <= i < |p| ==> In(p[i], s[i])
  {
    if p != [] {
      MatchFits(p[1..], s[1..]);
      assert forall i :: 0 < i < |p| ==> p[i] == p[1..][i - 1] && s[i] == s[1..][i - 1];
    }
  }

  /** Which pattern the first match is. */
  lemma {:induction false} FirstMatchIs(ps: seq<Pattern>, s: string) returns (k: nat)
    ensures k <= |ps|
    ensures forall i :: 0 <= i < k ==> !Matches(ps[i], s)
    ensures if k < |ps| then Matches(ps[k], s) && FirstMatch(ps, s) == |ps[k]| else FirstMatch(ps, s) == 0
  {
    if ps == [] {
      k := 0;
    } else if Matches(ps[0], s) {
      k := 0;
    } else {
      k := FirstMatchIs(ps[1..], s);
      k := k + 1;
      assert forall i :: 0 < i < k ==> ps[i] == ps[1..][i - 1];
    }
  }

  lemma {:induction false} FirstMatchBy(ps: seq<Pattern>, s: string, k: nat)
    requires k <= |ps|
    requires forall i :: 0 <= i < k ==> !Matches(ps[i], s)
    requires k < |ps| ==> Matches(ps[k], s)
    ensures FirstMatch(ps, s) == if k < |ps| then |ps[k]| else 0
  {
    if k > 0 {
      assert !Matches(ps[0], s);
      assert forall i :: 0 <= i < k - 1 ==> ps[1..][i] == ps[i + 1];
      FirstMatchBy(ps[1..], s, k - 1);
    }
  }

  lemma {:induction false} TokenFits(s: string)
    ensures TokenLength(s) <= |s|
  {
    var k := FirstMatchIs(ClockPatterns(), s);
    if k < |ClockPatterns()| {
      MatchFits(ClockPatterns()[k], s);
    }
  }

  // ---------------------------------------------------------------- where no token can cross

  /** A character that occurs in no token. */
  predicate Barrier(c: char) {
    !IsWordChar(c) && c != ':' && c != ' '
  }

  /** After a, the text b starts anew: no token of a + b crosses the boundary character. */
  predicate Separates(a: string, c: char) {
    Barrier(c) || (c == ' ' && a != "" && !IsDigit(a[|a| - 1]))
  }

  lemma {:induction false} MatchStopsAt(p: Pattern, a: string, c: char, b: string)
    requires Separates(a, c)
    requires GapsFollowDigits(p)
    ensures Matches(p, a + [c] + b) == Matches(p, a)
    decreases |p|
  {
    var s := a + [c] + b;
    if p != [] && a != "" {
      assert s[1..] == a[1..] + [c] + b;
      var q := p[1..];
      assert forall i :: 0 < i < |q| ==> q[i] == p[i + 1] && q[i - 1] == p[i];
      if |a| > 1 || Barrier(c) {
        MatchStopsAt(q, a[1..], c, b);
      } else {
        assert a[1..] == "" && s[1..] == [c] + b;
      }
    }
  }

  lemma {:induction false} WordRunStopsAt(a: string, c: char, b: string)
    requires !IsWordChar(c)
    ensures WordRun(a + [c] + b) == WordRun(a)
  {
    if a != "" {
      assert (a + [c] + b)[1..] == a[1..] + [c] + b;
      WordRunStopsAt(a[1..], c, b);
    }
  }

  lemma {:induction false} TokenStopsAt(a: string, c: char, b: string)
    requires Separates(a, c)
    ensures TokenLength(a + [c] + b) == TokenLength(a)
  {
    var s := a + [c] + b;
    WordRunStopsAt(a, c, b);
    var ps := ClockPatterns();
    forall i | 0 <= i < |ps| ensures Matches(ps[i], s) == Matches(ps[i], a) {
      ClockPatternsAreClockLike(i);
      MatchStopsAt(ps[i], a, c, b);
    }
    var k := FirstMatchIs(ps, a);
    FirstMatchBy(ps, s, k);
  }

  /** A text that starts with neither a digit nor a word character starts no token. */
  lemma {:induction false} NoTokenAt(s: string)
    requires s != "" && !IsWordChar(s[0])
    ensures TokenLength(s) == 0
  {
    var k := FirstMatchIs(ClockPatterns(), s);
    if k < |ClockPatterns()| {
      ClockPatternsAreClockLike(k);
    }
  }

  lemma {:induction false} StepStopsAt(a: string, c: char, b: string)
    requires Separates(a, c) && a != ""
    ensures StepLength(a + [c] + b) == StepLength(a) && TokenHere(a + [c] + b) == TokenHere(a)
  {
    TokenStopsAt(a, c, b);
    TokenFits(a);
    assert forall n :: 0 <= n <= |a| ==> (a + [c] + b)[..n] == a[..n];
  }

  lemma {:induction false} SeparatorGone(c: char, b: string)
    requires !IsWordChar(c)
    ensures Tokens([c] + b) == Tokens(b)
  {
    var s := [c] + b;
    NoTokenAt(s);
    assert s[1..] == b && s[..0] == "" && [] + Tokens(b) == Tokens(b);
  }

  /** Tokenising splits at a separating character. */
  lemma {:induction false} TokensSplitAt(a: string, c: char, b: string)
    requires Separates(a, c)
    ensures Tokens(a + [c] + b) == Tokens(a) + Tokens(b)
    decreases |a|, 0
  {
    var s := a + [c] + b;
    if a == "" {
      assert s == [c] + b && [] + Tokens(b) == Tokens(b);
      SeparatorGone(c, b);
    } else {
      var m := StepLength(a);
      StepStopsAt(a, c, b);
      assert s[m..] == a[m..] + [c] + b;
      TokensAfterStep(a, m, c, b);
      assert TokenHere(a) + (Tokens(a[m..]) + Tokens(b)) == Tokens(a) + Tokens(b);
    }
  }

  lemma {:induction false} TokensAfterStep(a: string, m: nat, c: char, b: string)
    requires 0 < m <= |a| && Separates(a, c)
    ensures Tokens(a[m..] + [c] + b) == Tokens(a[m..]) + Tokens(b)
    decreases |a| - m, 1
  {
    if m < |a| || Barrier(c) {
      TokensSplitAt(a[m..], c, b);
    } else {
      assert a[m..] + [c] + b == [c] + b;
      SeparatorGone(c, b);
    }
  }

  // ---------------------------------------------------------------- a unit reads back as itself

  predicate IsUnit(t: string) {
    t != "" && Ascii(t) && Tokens(t) == [t]
  }

  lemma {:induction false} PrefixMatches(p: Pattern, t: string, s: string)
    requires t <= s && Matches(p, t)
    ensures Matches(p, s)
  {
    if p != [] {
      PrefixMatches(p[1..], t[1..], s[1..]);
    }
  }

  lemma {:induction false} LongMatches(p: Pattern, s: string, n: nat)
    requires |p| <= n <= |s| && Matches(p, s)
    ensures Matches(p, s[..n])
  {
    if p != [] {
      assert s[..n][1..] == s[1..][..n - 1];
      LongMatches(p[1..], s[1..], n - 1);
    }
  }

  lemma {:induction false} WordRunIsWord(s: string, n: nat)
    requires n <= WordRun(s)
    ensures WordRun(s[..n]) == n && Ascii(s[..n])
  {
    if n > 0 {
      assert s[..n][1..] == s[1..][..n - 1];
      WordRunIsWord(s[1..], n - 1);
      assert s[..n] == [s[0]] + s[1..][..n - 1];
    }
  }

  lemma {:induction false} WholeToken(t: string)
    requires t != "" && TokenLength(t) == |t| && StripEnd(t, Chars(TRAILING)) == t
    ensures Tokens(t) == [t]
  {
    assert t[..|t|] == t && t[|t|..] == "";
  }

  lemma {:induction false} ClockText(p: Pattern, s: string)
    requires ClockLike(p) && Matches(p, s)
    ensures |p| <= |s| && Ascii(s[..|p|]) && StripEnd(s[..|p|], Chars(TRAILING)) == s[..|p|]
  {
    MatchFits(p, s);
    var t := s[..|p|];
    assert In(p[|p| - 1], t[|p| - 1]);
    assert !Drops(Chars(TRAILING), t[|t| - 1]);
    assert forall i :: 0 <= i < |t| ==> In(p[i], t[i]);
  }

  /** The same pattern is the first that matches the token on its own. */
  lemma {:induction false} FirstMatchOfToken(ps: seq<Pattern>, s: string, k: nat)
    requires k < |ps| && Matches(ps[k], s) && |ps[k]| <= |s|
    requires forall i :: 0 <= i < k ==> !Matches(ps[i], s)
    ensures FirstMatch(ps, s[..|ps[k]|]) == |ps[k]|
  {
    var t := s[..|ps[k]|];
    LongMatches(ps[k], s, |ps[k]|);
    forall i | 0 <= i < k ensures !Matches(ps[i], t) {
      if Matches(ps[i], t) {
        PrefixMatches(ps[i], t, s);
      }
    }
    FirstMatchBy(ps, t, k);
  }

  /** A clock token keeps its last digit and is matched by the same pattern on its own. */
  lemma {:induction false} ClockReadsBack(s: string, k: nat)
    requires k < |ClockPatterns()| && Matches(ClockPatterns()[k], s)
    requires forall i :: 0 <= i < k ==> !Matches(ClockPatterns()[i], s)
    ensures var n := |ClockPatterns()[k]|; n <= |s| && IsUnit(s[..n]) && Kept(s[..n]) == [s[..n]]
  {
    ClockPatternsAreClockLike(k);
    var n := |ClockPatterns()[k]|;
    ClockText(ClockPatterns()[k], s);
    FirstMatchOfToken(ClockPatterns(), s, k);
    WholeToken(s[..n]);
  }

  lemma {:induction false} WordReadsBack(s: string, n: nat)
    requires FirstMatch(ClockPatterns(), s) == 0 && n == WordRun(s)
    ensures var t := StripEnd(s[..n], Chars(TRAILING)); t != "" ==> IsUnit(t)
  {
    var t := StripEnd(s[..n], Chars(TRAILING));
    StripEndIsPrefix(s[..n], Chars(TRAILING));
    if t != "" {
      assert t == s[..|t|];
      WordRunIsWord(s, |t|);
      var ps := ClockPatterns();
      var k := FirstMatchIs(ps, s);
      assert k == |ps| by {
        if k < |ps| {
          ClockPatternsAreClockLike(k);
        }
      }
      forall i | 0 <= i < |ps| ensures !Matches(ps[i], t) {
        if Matches(ps[i], t) {
          PrefixMatches(ps[i], t, s);
        }
      }
      FirstMatchBy(ps, t, |ps|);
      WholeToken(t);
    }
  }

  /** Every token of a text tokenises to exactly itself. */
  lemma {:induction false} TokensReadBack(s: string)
    ensures forall t <- Tokens(s) :: IsUnit(t)
    decreases |s|
  {
    if s != "" {
      var n := TokenLength(s);
      TokenFits(s);
      TokensReadBack(s[if n == 0 then 1 else n..]);
      if n > 0 {
        var k := FirstMatchIs(ClockPatterns(), s);
        if k < |ClockPatterns()| {
          ClockPatternsAreClockLike(k);
          ClockReadsBack(s, k);
        } else {
          WordReadsBack(s, n);
        }
      }
    }
  }
}
