/** Python string operations that several components share. */
module Texts {

  datatype Option<+T> = None | Some(value: T)
  {
    function GetOr(default: T): T {
      if Some? then value else default
    }
  }

  /** str.isspace, which is also what str.strip() and str.split() without arguments use. */
  predicate IsSpace(c: char) {
    var n := c as int;
    || 9 <= n <= 13 || 28 <= n <= 32 || n == 0x85 || n == 0xA0 || n == 0x1680
    || 0x2000 <= n <= 0x200A || n == 0x2028 || n == 0x2029 || n == 0x202F || n == 0x205F || n == 0x3000
  }

  /** The line boundaries of str.splitlines. */
  predicate IsLineBreak(c: char) {
    var n := c as int;
    10 <= n <= 13 || 28 <= n <= 30 || n == 0x85 || n == 0x2028 || n == 0x2029
  }

  /** What a strip removes: white space, or the listed characters. */
  datatype Drop = Spaces | Chars(cs: string)

  predicate Drops(d: Drop, c: char) {
    match d
    case Spaces => IsSpace(c)
    case Chars(cs) => c in cs
  }

  function StripStart(s: string, d: Drop): string {
    if s != "" && Drops(d, s[0]) then StripStart(s[1..], d) else s
  }

  function StripEnd(s: string, d: Drop): string {
    if s != "" && Drops(d, s[|s| - 1]) then StripEnd(s[..|s| - 1], d) else s
  }

  function Strip(s: string): string {
    StripEnd(StripStart(s, Spaces), Spaces)
  }

  lemma {:induction false} StripEndIsPrefix(s: string, d: Drop)
    ensures var t := StripEnd(s, d); t <= s && (t != "" ==> !Drops(d, t[|t| - 1]))
  {
    if s != "" && Drops(d, s[|s| - 1]) {
      StripEndIsPrefix(s[..|s| - 1], d);
    }
  }

  // ---------------------------------------------------------------- what stripping takes off

  predicate AllIn(s: string, d: Drop) {
    forall c <- s :: Drops(d, c)
  }

  predicate Blank(s: string) {
    AllIn(s, Spaces)
  }

  lemma {:induction false} StripStartOf(p: string, s: string, d: Drop)
    requires AllIn(p, d) && (s == "" || !Drops(d, s[0]))
    ensures StripStart(p + s, d) == s
  {
    if p == "" {
      assert p + s == s;
    } else {
      assert p[0] in p && (p + s)[1..] == p[1..] + s;
      assert forall c <- p[1..] :: c in p;
      StripStartOf(p[1..], s, d);
    }
  }

  lemma {:induction false} StripEndOf(s: string, p: string, d: Drop)
    requires AllIn(p, d) && (s == "" || !Drops(d, s[|s| - 1]))
    ensures StripEnd(s + p, d) == s
  {
    if p == "" {
      assert s + p == s;
    } else {
      var last := |p| - 1;
      assert p[last] in p && (s + p)[..|s + p| - 1] == s + p[..last];
      assert forall c <- p[..last] :: c in p;
      StripEndOf(s, p[..last], d);
    }
  }

  lemma {:induction false} StripOf(a: string, s: string, b: string)
    requires Blank(a) && Blank(b) && s != "" && !IsSpace(s[0]) && !IsSpace(s[|s| - 1])
    ensures Strip(a + s + b) == s
  {
    StripStartOf(a, s + b, Spaces);
    assert a + (s + b) == a + s + b;
    StripEndOf(s, b, Spaces);
  }

  lemma {:induction false} StartCut(s: string, d: Drop) returns (p: string)
    ensures s == p + StripStart(s, d) && AllIn(p, d)
  {
    p := "";
    if s != "" && Drops(d, s[0]) {
      var rest := StartCut(s[1..], d);
      p := [s[0]] + rest;
    }
  }

  lemma {:induction false} EndCut(s: string, d: Drop) returns (p: string)
    ensures s == StripEnd(s, d) + p && AllIn(p, d)
  {
    p := "";
    if s != "" && Drops(d, s[|s| - 1]) {
      var rest := EndCut(s[..|s| - 1], d);
      p := rest + [s[|s| - 1]];
    }
  }

  lemma {:induction false} BothCut(s: string) returns (a: string, b: string)
    ensures s == a + Strip(s) + b && Blank(a) && Blank(b)
  {
    a := StartCut(s, Spaces);
    b := EndCut(StripStart(s, Spaces), Spaces);
  }

  /** str(n) */
  function Decimal(n: nat): string {
    (if n < 10 then "" else Decimal(n / 10)) + [('0' as int + n % 10) as char]
  }

  /** The length of the run of characters at the start of s that are (not) white space. */
  function RunLength(s: string, spaces: bool): (n: nat)
    ensures n <= |s|
    ensures forall i :: 0 <= i < n ==> IsSpace(s[i]) == spaces
    ensures n < |s| ==> IsSpace(s[n]) != spaces
  {
    if s != "" && IsSpace(s[0]) == spaces then 1 + RunLength(s[1..], spaces) else 0
  }

  /** s.split(): the maximal runs of characters other than white space. */
  function SplitWords(s: string): seq<string>
    decreases |s|
  {
    var rest := s[RunLength(s, true)..];
    if rest == "" then []
    else
      var n := RunLength(rest, false);
      [rest[..n]] + SplitWords(rest[n..])
  }

  /** A word: not empty, and without white space. */
  predicate IsWord(w: string) {
    w != "" && forall c <- w :: !IsSpace(c)
  }

  predicate AllWords(ws: seq<string>) {
    forall w <- ws :: IsWord(w)
  }

  lemma {:induction false} WordThenRest(w: string, rest: string)
    requires IsWord(w) && (rest == "" || IsSpace(rest[0]))
    ensures SplitWords(w + rest) == [w] + SplitWords(rest)
  {
    var s := w + rest;
    assert s[0] == w[0] && w[0] in w && RunLength(s, true) == 0 && s[0..] == s;
    assert forall i :: 0 <= i < |w| ==> s[i] == w[i] && w[i] in w;
    assert RunLength(s, false) == |w| && s[..|w|] == w && s[|w|..] == rest;
  }

  lemma {:induction false} GapThenRest(gap: string, rest: string)
    requires Blank(gap)
    ensures SplitWords(gap + rest) == SplitWords(rest)
  {
    var s := gap + rest;
    if gap == "" {
      assert s == rest;
    } else {
      var next := gap[1..] + rest;
      assert gap[0] in gap && (forall c <- gap[1..] :: c in gap) && s[1..] == next;
      GapThenRest(gap[1..], rest);
      assert RunLength(s, true) == 1 + RunLength(next, true);
      assert s[RunLength(s, true)..] == next[RunLength(next, true)..];
    }
  }

  lemma {:induction false} OneWord(w: string)
    requires IsWord(w)
    ensures SplitWords(w) == [w]
  {
    WordThenRest(w, "");
    assert w + "" == w && SplitWords("") == [];
  }

  lemma {:induction false} FirstOfJoin(ws: seq<string>)
    requires |ws| > 1
    ensures Join(" ", ws) == ws[0] + (" " + Join(" ", ws[1..])) && ws == [ws[0]] + ws[1..]
  {
    assert ws[0] + " " + Join(" ", ws[1..]) == ws[0] + (" " + Join(" ", ws[1..]));
  }

  /** Words joined by single spaces are split into the same words. */
  lemma {:induction false} WordsOfJoin(ws: seq<string>)
    requires AllWords(ws)
    ensures SplitWords(Join(" ", ws)) == ws
  {
    if ws != [] {
      assert ws[0] in ws && forall w <- ws[1..] :: w in ws;
      WordsOfJoin(ws[1..]);
      if |ws| == 1 {
        OneWord(ws[0]);
        assert ws == [ws[0]];
      } else {
        var rest := Join(" ", ws[1..]);
        WordThenRest(ws[0], " " + rest);
        GapThenRest(" ", rest);
        FirstOfJoin(ws);
      }
    }
  }

  /** A word at the beginning is split off, with or without a gap at the end. */
  lemma {:induction false} WordWithGap(s: string, gap: string) returns (n: nat)
    requires s != "" && !IsSpace(s[0]) && Blank(gap)
    ensures 0 < n <= |s|
    ensures SplitWords(s) == [s[..n]] + SplitWords(s[n..])
    ensures SplitWords(s + gap) == [s[..n]] + SplitWords(s[n..] + gap)
  {
    n := RunLength(s, false);
    var t := s + gap;
    assert forall i :: 0 <= i < |s| ==> t[i] == s[i];
    assert gap != "" ==> gap[0] in gap && t[|s|] == gap[0];
    assert RunLength(t, false) == n && RunLength(s, true) == 0 == RunLength(t, true);
    assert s[0..] == s && t[0..] == t && t[..n] == s[..n] && t[n..] == s[n..] + gap;
  }

  lemma {:induction false} SpaceWithGap(c: char, rest: string, gap: string)
    requires IsSpace(c)
    ensures SplitWords([c] + rest + gap) == SplitWords(rest + gap)
  {
    assert [c] + rest + gap == [c] + (rest + gap);
    GapThenRest([c], rest + gap);
  }

  lemma {:induction false} RestThenGap(s: string, gap: string)
    requires Blank(gap)
    ensures SplitWords(s + gap) == SplitWords(s)
    decreases |s|
  {
    if s == "" {
      GapThenRest(gap, "");
      assert gap + "" == gap == s + gap;
    } else if IsSpace(s[0]) {
      assert s == [s[0]] + s[1..];
      SpaceWithGap(s[0], s[1..], gap);
      GapThenRest([s[0]], s[1..]);
      RestThenGap(s[1..], gap);
    } else {
      var n := WordWithGap(s, gap);
      RestThenGap(s[n..], gap);
    }
  }

  /** White space around a text has no effect on its words. */
  lemma {:induction false} WordsOfStrip(s: string)
    ensures SplitWords(Strip(s)) == SplitWords(s)
  {
    var a, b := BothCut(s);
    assert s == a + (Strip(s) + b);
    GapThenRest(a, Strip(s) + b);
    RestThenGap(Strip(s), b);
  }

  /** Words with a gap before, between and after them. */
  function Spread(ws: seq<string>, gaps: seq<string>): string
    requires |gaps| == |ws| + 1
  {
    if ws == [] then gaps[0] else gaps[0] + (ws[0] + Spread(ws[1..], gaps[1..]))
  }

  /** White space; between two words there is some. */
  predicate AreGaps(gaps: seq<string>) {
    (forall g <- gaps :: Blank(g)) && forall k :: 0 < k < |gaps| - 1 ==> gaps[k] != ""
  }

  /** However words are spread, splitting finds them. */
  lemma {:induction false} WordsOfSpread(ws: seq<string>, gaps: seq<string>)
    requires |gaps| == |ws| + 1 && AllWords(ws) && AreGaps(gaps)
    ensures SplitWords(Spread(ws, gaps)) == ws
  {
    assert gaps[0] in gaps;
    if ws == [] {
      GapThenRest(gaps[0], "");
      assert gaps[0] + "" == gaps[0] && SplitWords("") == [];
    } else {
      var rest := Spread(ws[1..], gaps[1..]);
      assert ws[0] in ws && gaps[1] in gaps && (gaps[1] != "" ==> gaps[1][0] in gaps[1]);
      assert (forall w <- ws[1..] :: w in ws) && forall g <- gaps[1..] :: g in gaps;
      WordsOfSpread(ws[1..], gaps[1..]);
      WordThenRest(ws[0], rest);
      GapThenRest(gaps[0], ws[0] + rest);
    }
  }

  /** sep.join(parts) */
  function Join(sep: string, parts: seq<string>): string {
    if parts == [] then "" else if |parts| == 1 then parts[0] else parts[0] + sep + Join(sep, parts[1..])
  }

  lemma {:induction false} JoinOfConcat(sep: string, a: seq<string>, b: seq<string>)
    requires a != [] && b != []
    ensures Join(sep, a + b) == Join(sep, a) + sep + Join(sep, b)
  {
    assert (a + b)[1..] == a[1..] + b;
    if |a| == 1 {
      assert a[1..] + b == b;
    } else {
      JoinOfConcat(sep, a[1..], b);
      assert a[0] + sep + (Join(sep, a[1..]) + sep + Join(sep, b)) == Join(sep, a) + sep + Join(sep, b);
    }
  }

  // ---------------------------------------------------------------- splitlines

  function FirstBreak(s: string): (k: nat)
    ensures k <= |s|
    ensures forall i :: 0 <= i < k ==> !IsLineBreak(s[i])
    ensures k < |s| ==> IsLineBreak(s[k])
  {
    if s == "" || IsLineBreak(s[0]) then 0 else 1 + FirstBreak(s[1..])
  }

  /** A carriage return and the line feed after it are one boundary. */
  function BreakWidth(s: string, k: nat): nat
    requires k < |s|
  {
    if s[k] == '\r' && k + 1 < |s| && s[k + 1] == '\n' then 2 else 1
  }

  function SplitLines(s: string): seq<string>
    decreases |s|
  {
    var k := FirstBreak(s);
    if s == "" then [] else if k == |s| then [s]
    else [s[..k]] + SplitLines(s[k + BreakWidth(s, k)..])
  }

  lemma {:induction false} FirstLine(line: string, rest: string)
    requires forall c <- line :: !IsLineBreak(c)
    ensures line in SplitLines(line + "\n" + rest)
  {
    var s := line + "\n" + rest;
    assert s[|line|] == '\n';
    assert forall i :: 0 <= i < |line| ==> s[i] == line[i] && line[i] in line;
    assert s[..FirstBreak(s)] == line;
  }

  /** Where splitting the first line off `before`, a line feed and `tail` leaves the rest. */
  lemma {:induction false} FirstCut(before: string, tail: string)
    ensures var s := before + "\n" + tail;
      var k := FirstBreak(s);
      && k < |s|
      && (var next := k + BreakWidth(s, k);
          if next <= |before| then s[next..] == before[next..] + "\n" + tail else s[next..] == tail)
  {
    var s := before + "\n" + tail;
    assert s[|before|] == '\n' && FirstBreak(s) <= |before|;
  }

  /** A line that stands between two line feeds is one of the lines, whatever is around it. */
  lemma {:induction false} LineBetween(before: string, line: string, rest: string)
    requires forall c <- line :: !IsLineBreak(c)
    ensures line in SplitLines(before + "\n" + (line + "\n" + rest))
    decreases |before|
  {
    var tail := line + "\n" + rest;
    var s := before + "\n" + tail;
    FirstCut(before, tail);
    var next := FirstBreak(s) + BreakWidth(s, FirstBreak(s));
    if next <= |before| {
      LineBetween(before[next..], line, rest);
    } else {
      FirstLine(line, rest);
    }
  }
}
