/** Which words of a text are paths, numbers and names, said of words built from parts
    (src/application/kernel/compaction_verifier.py, lines 38-130). */
module FactShapes {
  import opened Texts
  import opened Chat
  import opened KeyTokens
  import opened SummaryFacts
  import opened SummaryCheck

  predicate Digit09(c: char) {
    '0' <= c <= '9'
  }

  predicate AllDigits(s: string) {
    forall c <- s :: Digit09(c)
  }

  predicate LetterAz(c: char) {
    'a' <= c <= 'z' || 'A' <= c <= 'Z'
  }

  /** Letters, digits and the marks that paths, numbers and names are made of. */
  predicate PlainChar(c: char) {
    LetterAz(c) || Digit09(c) || c == '_' || c == '.' || c == '/' || c == '-'
  }

  predicate PlainText(s: string) {
    forall c <- s :: PlainChar(c)
  }

  /** A date of ten characters stands at the start. */
  predicate StartsDated(t: string) {
    && |t| >= 10
    && forall i :: 0 <= i < 10 ==> if i == 4 || i == 7 then t[i] == '-' || t[i] == '/' else Digit09(t[i])
  }

  lemma DatedMarks(t: string)
    ensures StartsDated(t) ==> Digit09(t[0]) && (t[4] == '-' || t[4] == '/')
  {
  }

  // ---------------------------------------------------------------- which texts are one token

  lemma {:induction false} MatchesBy(p: Pattern, s: string)
    requires |p| <= |s| && forall i :: 0 <= i < |p| ==> In(p[i], s[i])
    ensures Matches(p, s)
  {
    if p != [] {
      assert forall i :: 0 <= i < |p| - 1 ==> p[1..][i] == p[i + 1] && s[1..][i] == s[i + 1];
      MatchesBy(p[1..], s[1..]);
    }
  }

  /** Every clock pattern but the date has a colon. */
  lemma ColonPlace(k: nat) returns (j: nat)
    requires k < |ClockPatterns()|
    ensures k == 4 ==> ClockPatterns()[k] == ANY_DATE
    ensures k != 4 ==> j < |ClockPatterns()[k]| && ClockPatterns()[k][j] == Colon
  {
    j := [13, 13, 12, 12, 0, 2, 2, 1, 1][k];
  }

  lemma {:induction false} NoColonNoClock(t: string, k: nat)
    requires PlainText(t) && k < |ClockPatterns()| && k != 4
    ensures !Matches(ClockPatterns()[k], t)
  {
    var j := ColonPlace(k);
    assert forall i :: 0 <= i < |t| ==> t[i] in t;
    if Matches(ClockPatterns()[k], t) {
      MatchFits(ClockPatterns()[k], t);
    }
  }

  lemma {:induction false} DateMatches(t: string)
    ensures Matches(ANY_DATE, t) <==> StartsDated(t)
  {
    if Matches(ANY_DATE, t) {
      MatchFits(ANY_DATE, t);
      DatedPlaces(t);
    }
    if StartsDated(t) {
      DatedPlaces(t);
      MatchesBy(ANY_DATE, t);
    }
  }

  lemma DatedPlaces(t: string)
    requires |t| >= 10
    ensures StartsDated(t) <==> forall i :: 0 <= i < 10 ==> In(ANY_DATE[i], t[i])
  {
    if forall i :: 0 <= i < 10 ==> In(ANY_DATE[i], t[i]) {
      assert In(ANY_DATE[0], t[0]) && In(ANY_DATE[1], t[1]) && In(ANY_DATE[2], t[2]) && In(ANY_DATE[3], t[3]);
      assert In(ANY_DATE[4], t[4]) && In(ANY_DATE[5], t[5]) && In(ANY_DATE[6], t[6]);
      assert In(ANY_DATE[7], t[7]) && In(ANY_DATE[8], t[8]) && In(ANY_DATE[9], t[9]);
    }
  }

  /** On plain text the clock expression finds a date at the start or nothing. */
  lemma {:induction false} ClockOnPlain(t: string)
    requires PlainText(t)
    ensures FirstMatch(ClockPatterns(), t) == if StartsDated(t) then 10 else 0
  {
    var ps := ClockPatterns();
    forall k | 0 <= k < |ps| && k != 4 ensures !Matches(ps[k], t) {
      NoColonNoClock(t, k);
    }
    var j := ColonPlace(4);
    DateMatches(t);
    FirstMatchBy(ps, t, if StartsDated(t) then 4 else |ps|);
  }

  lemma {:induction false} PlainRun(t: string)
    requires PlainText(t)
    ensures WordRun(t) == |t| && Ascii(t)
  {
    if t != "" {
      assert t[0] in t && forall c <- t[1..] :: c in t;
      PlainRun(t[1..]);
    }
  }

  /** A plain text that does not end in a full stop is one token, unless a date stands at its
      start. */
  lemma {:induction false} PlainToken(t: string)
    requires PlainText(t) && t != "" && t[|t| - 1] != '.' && !StartsDated(t)
    ensures IsUnit(t)
  {
    ClockOnPlain(t);
    PlainRun(t);
    assert t[|t| - 1] in t;
    StaysWhole(t);
    WholeToken(t);
  }

  lemma {:induction false} StaysWhole(t: string)
    requires t != "" && PlainChar(t[|t| - 1]) && t[|t| - 1] != '.'
    ensures StripEnd(t, Chars(TRAILING)) == t
  {
    NotTrailing(t[|t| - 1]);
  }

  lemma NotTrailing(c: char)
    requires PlainChar(c) && c != '.'
    ensures c !in TRAILING
  {
  }

  lemma {:induction false} TokensNotLonger(s: string)
    ensures forall t <- Tokens(s) :: |t| <= |s|
    decreases |s|
  {
    if s != "" {
      TokenFits(s);
      StripEndIsPrefix(s[..TokenLength(s)], Chars(TRAILING));
      TokensNotLonger(s[StepLength(s)..]);
    }
  }

  /** A date at the start is cut off: what goes on after it is no token together with it. */
  lemma {:induction false} DateIsCutOff(t: string)
    requires PlainText(t) && StartsDated(t) && |t| > 10
    ensures t !in Tokens(t)
  {
    ClockOnPlain(t);
    StripEndIsPrefix(t[..10], Chars(TRAILING));
    TokensNotLonger(t[10..]);
  }

  // ---------------------------------------------------------------- in the middle of a text

  /** A character between words, after `before`: white space, a comma, a bracket and the like.
      After a digit a space may belong to a date and time. */
  predicate Between(before: string, c: char) {
    c as int < 128 && !PlainChar(c) && c != ':'
    && (c == ' ' ==> before == "" || !Digit09(before[|before| - 1]))
  }

  lemma {:induction false} SpacesGone(s: string)
    ensures Tokens(" " + s) == Tokens(s)
  {
    NoTokenAt(" " + s);
    assert (" " + s)[1..] == s;
  }

  lemma {:induction false} BetweenSplits(a: string, c: char, b: string)
    requires Between(a, c)
    ensures Tokens(a + [c] + b) == Tokens(a) + Tokens(b)
  {
    if c == ' ' && a == "" {
      SpacesGone(b);
      assert a + [c] + b == " " + b && Tokens("") == [] && [] + Tokens(b) == Tokens(b);
    } else {
      TokensSplitAt(a, c, b);
    }
  }

  lemma Regrouped(x: string, c: char, t: string, d: char, y: string)
    ensures x + [c] + t + [d] + y == x + ([c] + t + [d]) + y
    ensures x + ([c] + t + [d]) + y == x + [c] + (t + [d] + y)
  {
  }

  lemma {:induction false} WordIsAscii(c: char, t: string, d: char)
    requires Ascii(t) && c as int < 128 && d as int < 128
    ensures Normalize([c] + t + [d]) == [c] + t + [d]
  {
    NormalizeAscii([c] + t + [d]);
  }

  lemma {:induction false} NormalizedParts(a: string, c: char, t: string, d: char, b: string)
    requires Ascii(t) && c as int < 128 && d as int < 128
    ensures Normalize(a + [c] + t + [d] + b) == Normalize(a) + [c] + (t + [d] + Normalize(b))
  {
    var word := [c] + t + [d];
    WordIsAscii(c, t, d);
    Regrouped(a, c, t, d, b);
    NormalizeOfConcat(a + word, b);
    NormalizeOfConcat(a, word);
    Regrouped(Normalize(a), c, t, d, Normalize(b));
  }

  lemma {:induction false} TokensAround(front: string, c: char, t: string, d: char, rest: string)
    requires Between(front, c) && Between(t, d)
    ensures Tokens(front + [c] + (t + [d] + rest)) == Tokens(front) + (Tokens(t) + Tokens(rest))
  {
    BetweenSplits(front, c, t + [d] + rest);
    BetweenSplits(t, d, rest);
  }

  /** A word that is one token is one of the tokens of any text it stands in, between two such
      characters. */
  lemma {:induction false} StandsAlone(a: string, c: char, t: string, d: char, b: string)
    requires IsUnit(t) && Between(Normalize(a), c) && Between(t, d)
    ensures t in Units(a + [c] + t + [d] + b)
  {
    NormalizedParts(a, c, t, d, b);
    TokensAround(Normalize(a), c, t, d, Normalize(b));
    assert t in [t];
  }

  // ---------------------------------------------------------------- paths

  lemma {:induction false} LastPart(dir: string, last: string)
    requires '/' !in last
    ensures AfterLastSlash(dir + "/" + last) == last
  {
    var s := dir + "/" + last;
    if last != "" {
      var front := last[..|last| - 1];
      assert s[..|s| - 1] == dir + "/" + front && s[|s| - 1] == last[|last| - 1] && last[|last| - 1] in last;
      assert forall c <- front :: c in last;
      LastPart(dir, front);
      assert front + [last[|last| - 1]] == last;
    }
  }

  lemma {:induction false} SlashesGone(s: string, slashes: string)
    requires s != "" && s[|s| - 1] != '/' && forall c <- slashes :: c == '/'
    ensures StripEnd(s + slashes, Chars("/")) == s
  {
    if slashes == "" {
      assert s + slashes == s;
    } else {
      var front := slashes[..|slashes| - 1];
      assert slashes[|slashes| - 1] in slashes && forall c <- front :: c in slashes;
      assert (s + slashes)[..|s + slashes| - 1] == s + front;
      SlashesGone(s, front);
    }
  }

  /** A word with a last component is a path if and only if that component has a full stop or
      the word starts at the root or in a directory named by dots. */
  lemma {:induction false} PathIff(dir: string, last: string, slashes: string)
    requires ':' !in dir && ':' !in last && last != "" && '/' !in last && forall c <- slashes :: c == '/'
    ensures var t := dir + "/" + last + slashes;
      KindOf(t) == Path <==> '.' in last || "/" <= t || "./" <= t || "../" <= t
  {
    var s := dir + "/" + last;
    assert s[|s| - 1] == last[|last| - 1] && last[|last| - 1] in last;
    LastPart(dir, last);
    SlashesGone(s, slashes);
    NoScheme(s + slashes);
    assert (s + slashes)[|dir|] == '/';
  }

  lemma {:induction false} NoScheme(t: string)
    requires ':' !in t
    ensures !("http:" <= t) && !("https:" <= t)
  {
    assert forall i :: 0 <= i < |t| ==> t[i] in t;
    assert "http:"[4] == ':' && "https:"[5] == ':';
  }

  lemma NoSlashNoPath(t: string)
    requires '/' !in t
    ensures KindOf(t) != Path
  {
  }

  /** A file in a directory is a path, whatever directory. */
  lemma {:induction false} FileIsPath(dir: string, stem: string, ext: string)
    requires PlainText(dir) && PlainText(stem) && '/' !in stem && PlainText(ext) && '/' !in ext
    ensures KindOf(dir + "/" + (stem + "." + ext)) == Path
  {
    var last := stem + "." + ext;
    PlainHasNoColon(dir);
    PlainHasNoColon(stem);
    PlainHasNoColon(ext);
    PathIff(dir, last, "");
    assert last[|stem|] == '.' && dir + "/" + last + "" == dir + "/" + last;
  }

  lemma {:induction false} PlainHasNoColon(s: string)
    requires PlainText(s)
    ensures ':' !in s
  {
  }

  /** What is written for a file in a directory. */
  function FileText(dir: string, stem: string, ext: string): string {
    dir + "/" + (stem + "." + ext)
  }

  lemma {:induction false} FileTextIsPlain(dir: string, stem: string, ext: string)
    requires PlainText(dir) && PlainText(stem) && PlainText(ext) && ext != ""
    ensures var t := FileText(dir, stem, ext); PlainText(t) && t[|t| - 1] == ext[|ext| - 1]
  {
  }

  /** Such a file is among the extracted paths of every text it stands in, unless its directory
      starts with a date, which is then read as a number of its own. */
  lemma {:induction false} FileIsExtracted(a: string, c: char, dir: string, stem: string, ext: string,
                                             d: char, b: string)
    requires PlainText(dir) && PlainText(stem) && '/' !in stem && PlainText(ext) && '/' !in ext
    requires ext != "" && ext[|ext| - 1] != '.' && !StartsDated(FileText(dir, stem, ext))
    requires Between(Normalize(a), c) && Between(FileText(dir, stem, ext), d)
    ensures FileText(dir, stem, ext) in FactsOf(a + [c] + FileText(dir, stem, ext) + [d] + b).paths
  {
    var t := FileText(dir, stem, ext);
    FileTextIsPlain(dir, stem, ext);
    PlainToken(t);
    StandsAlone(a, c, t, d, b);
    FileIsPath(dir, stem, ext);
    FirstOccurrencesComplete(Units(a + [c] + t + [d] + b), Path);
  }

  lemma {:induction false} DatedFileIsNot(dir: string, stem: string, ext: string)
    requires PlainText(dir) && PlainText(stem) && PlainText(ext) && ext != ""
    requires StartsDated(FileText(dir, stem, ext)) && |FileText(dir, stem, ext)| > 10
    ensures FileText(dir, stem, ext) !in FactsOf(FileText(dir, stem, ext)).paths
  {
    var t := FileText(dir, stem, ext);
    FileTextIsPlain(dir, stem, ext);
    DateIsCutOff(t);
    PlainRun(t);
    NormalizeAscii(t);
    FirstOccurrencesComplete(Units(t), Path);
  }

  // ---------------------------------------------------------------- numbers

  lemma {:induction false} DigitsRun(s: string)
    requires AllDigits(s)
    ensures DigitRun(s) == |s| && PlainText(s) && '/' !in s
  {
    if s != "" {
      assert s[0] in s && forall c <- s[1..] :: c in s;
      DigitsRun(s[1..]);
    }
  }

  lemma {:induction false} DecimalIsDigits(n: nat)
    ensures AllDigits(Decimal(n)) && Decimal(n) != "" && (|Decimal(n)| >= 2 <==> n >= 10)
  {
    DigitOf(n % 10);
    if n >= 10 {
      DecimalIsDigits(n / 10);
    }
  }

  lemma DigitOf(k: nat)
    requires k < 10
    ensures Digit09(('0' as int + k) as char)
  {
    assert "0123456789"[k] == ('0' as int + k) as char;
  }

  /** Digits alone are a number if and only if there are two of them. */
  lemma {:induction false} DigitsKind(s: string)
    requires AllDigits(s) && s != ""
    ensures KindOf(s) == if |s| >= 2 then Number else Other
  {
    DigitsRun(s);
    NoSlashNoPath(s);
    if |s| == 1 {
      OneDigitIsOther(s);
    }
  }

  lemma {:induction false} OneDigitIsOther(s: string)
    requires AllDigits(s) && |s| == 1
    ensures !IsNumber(s) && !IsName(s)
  {
    if p :| p in ClockPatterns() && |p| == |s| && Matches(p, s) {
      var i :| 0 <= i < |ClockPatterns()| && ClockPatterns()[i] == p;
      LongPatterns(i);
    }
    assert DigitRun(s) == 1 by {
      DigitsRun(s);
    }
  }

  lemma LongPatterns(i: nat)
    requires i < |ClockPatterns()|
    ensures |ClockPatterns()[i]| >= 4
  {
  }

  /** Every whole number from ten on is among the extracted numbers of a text it stands in. */
  lemma {:induction false} NumberIsExtracted(a: string, c: char, n: nat, d: char, b: string)
    requires n >= 10 && Between(Normalize(a), c) && Between(Decimal(n), d)
    ensures Decimal(n) in FactsOf(a + [c] + Decimal(n) + [d] + b).numbers
  {
    var t := Decimal(n);
    DecimalIsDigits(n);
    DecimalIsNotDated(n);
    DigitsRun(t);
    assert t[|t| - 1] in t;
    PlainToken(t);
    StandsAlone(a, c, t, d, b);
    DigitsKind(t);
    FirstOccurrencesComplete(Units(a + [c] + t + [d] + b), Number);
  }

  /** No decimal looks like a date. */
  lemma {:induction false} DecimalIsNotDated(n: nat)
    ensures !StartsDated(Decimal(n))
  {
    DecimalIsDigits(n);
    assert forall i :: 0 <= i < |Decimal(n)| ==> Decimal(n)[i] in Decimal(n);
    DatedMarks(Decimal(n));
  }

  lemma {:induction false} RunStops(a: string, b: string)
    requires AllDigits(a)
    ensures DigitRun(a + "." + b) == |a|
  {
    var s := a + "." + b;
    if a != "" {
      assert a[0] in a && s[1..] == a[1..] + "." + b && forall c <- a[1..] :: c in a;
      RunStops(a[1..], b);
    }
  }

  /** Digits on both sides of a full stop are a number. */
  lemma {:induction false} FractionIsNumber(a: string, b: string)
    requires AllDigits(a) && AllDigits(b) && a != "" && b != ""
    ensures KindOf(a + "." + b) == Number && IsUnit(a + "." + b)
  {
    var t := a + "." + b;
    RunStops(a, b);
    DigitsRun(a);
    DigitsRun(b);
    assert t[|a|] == '.' && t[|a| + 1..] == b;
    assert '/' !in t && PlainText(t) && t[|t| - 1] == b[|b| - 1] && b[|b| - 1] in b;
    FractionIsNotDated(a, b);
    PlainToken(t);
  }

  lemma {:induction false} FractionIsNotDated(a: string, b: string)
    requires AllDigits(a) && AllDigits(b)
    ensures !StartsDated(a + "." + b)
  {
    var t := a + "." + b;
    assert forall i :: 0 <= i < |t| ==> t[i] == '.' || Digit09(t[i]) by {
      assert forall i :: 0 <= i < |t| && i != |a| ==> t[i] in a || t[i] in b;
    }
    DatedMarks(t);
  }

  /** A date alone is a number and one token, with hyphens or slashes. */
  lemma {:induction false} DateIsNumber(t: string)
    requires |t| == 10 && StartsDated(t)
    ensures KindOf(t) == Number && IsUnit(t)
  {
    DateMatches(t);
    DatedPlaces(t);
    var j := ColonPlace(4);
    assert ANY_DATE in ClockPatterns();
    DateIsNoPath(t);
    DateIsPlain(t);
    ClockOnPlain(t);
    PlainRun(t);
    StaysWhole(t);
    WholeToken(t);
  }

  lemma {:induction false} DateIsPlain(t: string)
    requires |t| == 10 && StartsDated(t)
    ensures PlainText(t)
  {
    forall c | c in t ensures PlainChar(c) {
      var i :| 0 <= i < 10 && t[i] == c;
    }
  }

  lemma {:induction false} DateIsNoPath(t: string)
    requires |t| == 10 && StartsDated(t)
    ensures !IsPath(t)
  {
    if '/' in t {
      DateEnds(t);
    }
  }

  lemma {:induction false} DateEnds(t: string)
    requires |t| == 10 && StartsDated(t)
    ensures '.' !in AfterLastSlash(StripEnd(t, Chars("/"))) && !("/" <= t || "./" <= t || "../" <= t)
  {
    DatedPlaces(t);
    DateIsPlain(t);
    assert In(ANY_DATE[0], t[0]) && In(ANY_DATE[9], t[9]);
    assert StripEnd(t, Chars("/")) == t;
    AfterIsPart(t, '.');
    forall c | c in t ensures c != '.' {
      var i :| 0 <= i < 10 && t[i] == c;
    }
  }

  lemma {:induction false} AfterIsPart(s: string, c: char)
    ensures c in AfterLastSlash(s) ==> c in s
  {
    if s != "" && s[|s| - 1] != '/' {
      AfterIsPart(s[..|s| - 1], c);
    }
  }

  // ---------------------------------------------------------------- dates and times

  /** A text written like the form, with any digits for the d's. */
  predicate Like(t: string, form: string) {
    |t| == |form| && forall i :: 0 <= i < |t| ==> if form[i] == 'd' then Digit09(t[i]) else t[i] == form[i]
  }

  /** The class stands for the sign of a form. */
  predicate Covers(k: Class, sign: char) {
    match k
    case Digit => sign == 'd'
    case Hyphen => sign == '-'
    case HyphenOrSlash => sign == '-' || sign == '/'
    case Colon => sign == ':'
    case DateTimeGap => sign == 'T' || sign == ' '
  }

  predicate Spells(p: Pattern, form: string) {
    |p| == |form| && forall i :: 0 <= i < |p| ==> Covers(p[i], form[i])
  }

  lemma {:induction false} LikeMatches(t: string, form: string, p: Pattern)
    requires Like(t, form) && Spells(p, form)
    ensures Matches(p, t)
  {
    forall i | 0 <= i < |p| ensures In(p[i], t[i]) {
      assert Covers(p[i], form[i]);
    }
    MatchesBy(p, t);
  }

  /** The pattern that spells the whole text is the first that matches it. */
  lemma {:induction false} ClockToken(t: string, form: string, k: nat)
    requires k < |ClockPatterns()| && Like(t, form) && Spells(ClockPatterns()[k], form)
    requires forall j :: 0 <= j < k ==> !Matches(ClockPatterns()[j], t)
    requires '/' !in t
    ensures IsUnit(t) && KindOf(t) == Number
  {
    var ps := ClockPatterns();
    LikeMatches(t, form, ps[k]);
    ClockPatternsAreClockLike(k);
    ClockReadsBack(t, k);
    assert t[..|t|] == t && ps[k] in ps;
    NoSlashNoPath(t);
  }

  lemma {:induction false} TooLong(t: string, k: nat)
    requires k < |ClockPatterns()| && |t| < |ClockPatterns()[k]|
    ensures !Matches(ClockPatterns()[k], t)
  {
    if Matches(ClockPatterns()[k], t) {
      MatchFits(ClockPatterns()[k], t);
    }
  }

  lemma {:induction false} NoSlashLike(t: string, form: string)
    requires Like(t, form) && '/' !in form
    ensures '/' !in t
  {
    assert forall i :: 0 <= i < |form| ==> form[i] in form;
  }

  /** Times of day. */
  lemma {:induction false} TimeIsNumber(t: string)
    requires Like(t, "dd:dd") || Like(t, "d:dd") || Like(t, "dd:dd:dd")
    ensures IsUnit(t) && KindOf(t) == Number
  {
    var k, form := if |t| == 5 then 6 else if |t| == 4 then 8 else 5,
                   if |t| == 5 then "dd:dd" else if |t| == 4 then "d:dd" else "dd:dd:dd";
    PatternSizes();
    SpellTimes();
    forall j | 0 <= j < k ensures !Matches(ClockPatterns()[j], t) {
      TooLong(t, j);
    }
    NoSlashLike(t, form);
    ClockToken(t, form, k);
  }

  lemma SpellTimes()
    ensures Spells(ClockPatterns()[6], "dd:dd") && Spells(ClockPatterns()[8], "d:dd")
    ensures Spells(ClockPatterns()[5], "dd:dd:dd")
  {
  }

  lemma PatternSizes()
    ensures |ClockPatterns()| == 9
    ensures |ClockPatterns()[0]| == 19 && |ClockPatterns()[1]| == 16 && |ClockPatterns()[2]| == 18
    ensures |ClockPatterns()[3]| == 15 && |ClockPatterns()[4]| == 10 && |ClockPatterns()[5]| == 8
    ensures |ClockPatterns()[6]| == 5 && |ClockPatterns()[7]| == 7 && |ClockPatterns()[8]| == 4
  {
  }

  /** A date with its time is one number, whether a space or a T is between them. */
  lemma {:induction false} DateTimeIsNumber(t: string, gap: char)
    requires gap == ' ' || gap == 'T'
    requires Like(t, "dddd-dd-dd" + [gap] + "dd:dd") || Like(t, "dddd-dd-dd" + [gap] + "dd:dd:dd")
    ensures IsUnit(t) && KindOf(t) == Number
  {
    var k, form := if |t| == 16 then 1 else 0, "dddd-dd-dd" + [gap] + if |t| == 16 then "dd:dd" else "dd:dd:dd";
    PatternSizes();
    SpellDateTime(gap);
    forall j | 0 <= j < k ensures !Matches(ClockPatterns()[j], t) {
      TooLong(t, j);
    }
    NoSlashLike(t, form);
    ClockToken(t, form, k);
  }

  lemma SpellDateTime(gap: char)
    requires gap == ' ' || gap == 'T'
    ensures Spells(ClockPatterns()[1], "dddd-dd-dd" + [gap] + "dd:dd")
    ensures Spells(ClockPatterns()[0], "dddd-dd-dd" + [gap] + "dd:dd:dd")
  {
  }

  // ---------------------------------------------------------------- names

  predicate SnakeText(t: string) {
    t != "" && LetterAz(t[0]) && forall c <- t :: LetterAz(c) || Digit09(c) || c == '_'
  }

  lemma {:induction false} LetterFirst(t: string)
    requires t != "" && LetterAz(t[0])
    ensures !IsNumber(t) && !StartsDated(t)
  {
    if p :| p in ClockPatterns() && |p| == |t| && Matches(p, t) {
      var i :| 0 <= i < |ClockPatterns()| && ClockPatterns()[i] == p;
      ClockPatternsAreClockLike(i);
    }
    assert DigitRun(t) == 0;
    NotDatedAt(t);
  }

  lemma {:induction false} NotDatedAt(t: string)
    requires t != "" && !Digit09(t[0])
    ensures !StartsDated(t)
  {
    DatedMarks(t);
  }

  /** A word of letters, digits and underscores that starts with a letter is a name if and only
      if it has an underscore and four characters. */
  lemma {:induction false} SnakeKind(t: string)
    requires SnakeText(t)
    ensures KindOf(t) == (if '_' in t && |t| >= 4 then Name else Other) && IsUnit(t)
  {
    LetterFirst(t);
    NoSlashNoPath(t);
    NoStopNoFile(t);
    assert t[|t| - 1] in t && PlainText(t);
    PlainToken(t);
  }

  lemma NoStopNoFile(t: string)
    requires '.' !in t
    ensures !IsFileName(t)
  {
  }

  predicate StemText(s: string) {
    s != "" && LetterAz(s[0]) && forall c <- s :: LetterAz(c) || Digit09(c) || c == '_' || c == '-'
  }

  predicate ExtText(s: string) {
    s != "" && forall c <- s :: LetterAz(c) || Digit09(c)
  }

  lemma {:induction false} StemAndExt(stem: string, ext: string)
    requires StemText(stem) && ExtText(ext)
    ensures var t, d := stem + "." + ext, |stem|;
      && t[d] == '.' && '/' !in t && !IsSnake(t)
      && (forall i :: 0 <= i < d ==> t[i] != '.' && (IsLetter(t[i]) || IsDigit(t[i]) || t[i] == '_' || t[i] == '-'))
      && (forall i :: d < i < |t| ==> IsLetter(t[i]) || IsDigit(t[i]))
  {
    var t, d := stem + "." + ext, |stem|;
    assert forall i :: 0 <= i < d ==> t[i] == stem[i] && stem[i] in stem;
    assert forall i :: d < i < |t| ==> t[i] == ext[i - d - 1] && ext[i - d - 1] in ext;
    assert t[d] == '.' && t[d] in t;
  }

  lemma {:induction false} FileNameIsUnit(stem: string, ext: string)
    requires StemText(stem) && ExtText(ext)
    ensures IsUnit(stem + "." + ext)
  {
    var t := stem + "." + ext;
    assert t[|t| - 1] == ext[|ext| - 1] && ext[|ext| - 1] in ext && t[0] == stem[0];
    assert PlainText(t);
    NotDatedAt(t);
    PlainToken(t);
  }

  /** A file name: a stem that starts with a letter, a full stop, and two to eight letters or
      digits. */
  lemma {:induction false} FileNameKind(stem: string, ext: string)
    requires StemText(stem) && ExtText(ext)
    ensures KindOf(stem + "." + ext) == (if 2 <= |ext| <= 8 then Name else Other) && IsUnit(stem + "." + ext)
  {
    var t := stem + "." + ext;
    FileNameIsUnit(stem, ext);
    StemAndExt(stem, ext);
    LetterFirst(t);
    NoSlashNoPath(t);
    OnlyStop(t, |stem|);
  }

  lemma {:induction false} OnlyStop(t: string, d: nat)
    requires 0 < d < |t| && IsLetter(t[0]) && t[d] == '.'
    requires forall i :: 0 <= i < d ==> t[i] != '.' && (IsLetter(t[i]) || IsDigit(t[i]) || t[i] == '_' || t[i] == '-')
    requires forall i :: d < i < |t| ==> IsLetter(t[i]) || IsDigit(t[i])
    ensures IsFileName(t) <==> 2 <= |t| - d - 1 <= 8
  {
  }

  predicate WordText(t: string) {
    t != "" && LetterAz(t[0]) && forall c <- t :: LetterAz(c) || Digit09(c) || c == '-'
  }

  /** A word without any of the marks is none of the three. */
  lemma {:induction false} PlainWordKind(t: string)
    requires WordText(t)
    ensures KindOf(t) == Other && IsUnit(t)
  {
    LetterFirst(t);
    NoSlashNoPath(t);
    NoStopNoFile(t);
    assert t[|t| - 1] in t && PlainText(t);
    PlainToken(t);
  }

  lemma {:induction false} NameIsExtracted(a: string, c: char, t: string, d: char, b: string)
    requires SnakeText(t) && '_' in t && |t| >= 4 && Between(Normalize(a), c) && Between(t, d)
    ensures t in FactsOf(a + [c] + t + [d] + b).names
  {
    SnakeKind(t);
    StandsAlone(a, c, t, d, b);
    FirstOccurrencesComplete(Units(a + [c] + t + [d] + b), Name);
  }

  // ---------------------------------------------------------------- addresses

  /** A web address is cut at its colon: the scheme is none of the three, and what follows is
      read as a path. */
  lemma {:induction false} AddressIsPath(scheme: string, rest: string)
    requires scheme in {"http", "https"} && PlainText(rest) && rest != "" && rest[|rest| - 1] != '.'
    ensures var t := scheme + ":" + ("//" + rest);
      && Units(t) == [scheme, "//" + rest]
      && FactsOf(t).paths == ["//" + rest] && FactsOf(t).numbers == [] && FactsOf(t).names == []
  {
    var path := "//" + rest;
    SchemeIsWord(scheme);
    PlainWordKind(scheme);
    SlashesInFront(rest);
    RestIsPath(path);
    SchemeIsCut(scheme, path);
    assert [scheme] + [path] == [scheme, path];
    FactsOfTwo(scheme + ":" + path, scheme, path);
  }

  lemma SlashesInFront(rest: string)
    requires PlainText(rest) && rest != ""
    ensures var path := "//" + rest;
      PlainText(path) && |path| > 2 && path[0] == '/' && path[|path| - 1] == rest[|rest| - 1]
  {
  }

  lemma SchemeIsWord(scheme: string)
    requires scheme in {"http", "https"}
    ensures WordText(scheme)
  {
  }

  lemma {:induction false} RestIsPath(path: string)
    requires |path| > 2 && path[0] == '/' && PlainText(path) && path[|path| - 1] != '.'
    ensures KindOf(path) == Path && IsUnit(path)
  {
    NotDatedAt(path);
    PlainToken(path);
    PlainHasNoColon(path);
    NoScheme(path);
    assert "/" <= path;
  }

  lemma {:induction false} SchemeToken(scheme: string, path: string)
    requires WordText(scheme)
    ensures Tokens(scheme + [':'] + path) == [scheme] + Tokens([':'] + path)
  {
    var s := scheme + [':'] + path;
    LettersFirst(s);
    WordRunStopsAt(scheme, ':', path);
    PlainRun(scheme);
    assert s[..|scheme|] == scheme && s[|scheme|..] == [':'] + path;
    assert scheme[|scheme| - 1] in scheme;
    StaysWhole(scheme);
  }

  lemma {:induction false} SchemeIsCut(scheme: string, path: string)
    requires WordText(scheme) && IsUnit(scheme) && IsUnit(path)
    ensures Units(scheme + ":" + path) == [scheme] + [path]
  {
    SchemeToken(scheme, path);
    SeparatorGone(':', path);
    NormalizeAscii(scheme + [':'] + path);
  }

  lemma {:induction false} LettersFirst(s: string)
    requires s != "" && LetterAz(s[0])
    ensures FirstMatch(ClockPatterns(), s) == 0
  {
    var k := FirstMatchIs(ClockPatterns(), s);
    if k < |ClockPatterns()| {
      ClockPatternsAreClockLike(k);
    }
  }

  lemma {:induction false} FactsOfTwo(text: string, x: string, y: string)
    requires Units(text) == [x, y] && KindOf(x) == Other && KindOf(y) == Path
    ensures FactsOf(text).paths == [y] && FactsOf(text).numbers == [] && FactsOf(text).names == []
  {
    TwoUnits(x, y);
  }

  lemma {:induction false} TwoUnits(x: string, y: string)
    requires KindOf(x) == Other && KindOf(y) == Path
    ensures FirstOccurrences([x, y], Path) == [y]
    ensures FirstOccurrences([x, y], Number) == [] && FirstOccurrences([x, y], Name) == []
  {
    forall k: Kind | k != Other ensures FirstOccurrences([x, y], k) == if k == Path then [y] else [] {
      OneUnit(x, k);
      var us := [x, y];
      assert us[..1] == [x] && us[1] == y;
      assert FirstOccurrences(us[..1], k) == [];
    }
  }

  lemma {:induction false} OneUnit(x: string, k: Kind)
    ensures FirstOccurrences([x], k) == if KindOf(x) == k then [x] else []
  {
    var us := [x];
    assert us[..0] == [] && FirstOccurrences(us[..0], k) == [];
  }

  // ---------------------------------------------------------------- what the check then requires

  /** A summary of a run in which the user named such a file is accepted only if it names the
      file too. */
  lemma {:induction false} FileIsRequired(a: string, c: char, dir: string, stem: string, ext: string,
                                            d: char, b: string, run: seq<Message>, summary: string,
                                            requireShorter: bool)
    requires PlainText(dir) && PlainText(stem) && '/' !in stem && PlainText(ext) && '/' !in ext
    requires ext != "" && ext[|ext| - 1] != '.' && !StartsDated(FileText(dir, stem, ext))
    requires Between(Normalize(a), c) && Between(FileText(dir, stem, ext), d)
    requires Plain(User, a + [c] + FileText(dir, stem, ext) + [d] + b) in run
    requires CheckSummary(summary, run, requireShorter) == []
    ensures FileText(dir, stem, ext) in Units(summary)
  {
    var t := FileText(dir, stem, ext);
    FileTextIsPlain(dir, stem, ext);
    PlainToken(t);
    StandsAlone(a, c, t, d, b);
    FileIsPath(dir, stem, ext);
    AcceptedKeepsFacts(summary, run, requireShorter, Plain(User, a + [c] + t + [d] + b), t);
  }

  // ---------------------------------------------------------------- look-alike characters

  /** The seven look-alike dashes read as a hyphen, and format characters as nothing. */
  lemma {:induction false} LookAlikeDash(a: string, c: char, b: string)
    requires c in {'\U{2010}', '\U{2011}', '\U{2012}', '\U{2013}', '\U{2014}', '\U{2015}', '\U{2212}'}
    ensures Units(a + [c] + b) == Units(a + "-" + b)
  {
    NormalizeAscii("-");
    assert Normalize([c]) == "-";
    SameInside(a, [c], "-", b);
  }

  lemma {:induction false} InvisibleCharacter(a: string, c: char, b: string)
    requires c in {'\U{00AD}', '\U{200B}', '\U{200C}', '\U{200D}', '\U{200E}', '\U{200F}', '\U{2060}', '\U{FEFF}'}
    ensures Units(a + [c] + b) == Units(a + "" + b)
  {
    assert Normalize([c]) == "";
    SameInside(a, [c], "", b);
  }

  lemma {:induction false} SameInside(a: string, x: string, y: string, b: string)
    requires Normalize(x) == Normalize(y)
    ensures Normalize(a + x + b) == Normalize(a + y + b)
  {
    NormalizeOfConcat(a + x, b);
    NormalizeOfConcat(a, x);
    NormalizeOfConcat(a + y, b);
    NormalizeOfConcat(a, y);
  }
}
