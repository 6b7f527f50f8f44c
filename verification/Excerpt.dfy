/** Excerpts of past chat messages and their character budget
    (src/application/chat/past_chat_search.py, lines 231-251 and 508-541). */
module Excerpt {
  import opened Texts

  /** Runs of white space become one space. */
  function Compact(text: string): string {
    Join(" ", SplitWords(text))
  }

  /** str.find: the first place where needle occurs, or |s| + 1 when it does not. */
  function FindIn(s: string, needle: string): (at: nat)
    ensures at <= |s| ==> needle <= s[at..]
    ensures forall i :: 0 <= i < at && i <= |s| ==> !(needle <= s[i..])
  {
    if needle <= s then
      assert s[0..] == s;
      0
    else if s == "" then 1
    else
      var at := FindIn(s[1..], needle);
      assert forall i :: 0 < i <= |s| ==> s[i..] == s[1..][i - 1..];
      assert s[0..] == s;
      at + 1
  }

  const ELLIPSIS: string := "..."

  /** How much of the text before a match is shown. */
  const LEAD: nat := 40

  /** Where the shown piece begins.  A fold that changes the length makes positions useless. */
  function ClipStart(compact: string, needle: string, fold: string -> string): (at: nat)
    ensures at <= |compact|
  {
    var folded := fold(compact);
    var found := FindIn(folded, needle);
    if needle == "" || found > |folded| || |folded| != |compact| then 0
    else if found < LEAD then 0 else found - LEAD
  }

  function Prefix(at: nat): string {
    if at > 0 then ELLIPSIS else ""
  }

  function Suffix(end: nat, n: nat): string {
    if end < n then ELLIPSIS else ""
  }

  function Size(at: nat, end: nat, n: nat): int {
    |Prefix(at)| + (end - at) + |Suffix(end, n)|
  }

  /** The end of the piece, shrunk until piece and ellipses fit. */
  function Shrink(at: nat, end: nat, n: nat, limit: int): (e: nat)
    requires at <= end <= n
    ensures at <= e <= end
    ensures Size(at, e, n) <= limit || e == at
    ensures e < end ==> Size(at, e + 1, n) > limit
    decreases end
  {
    if Size(at, end, n) > limit && end > at then Shrink(at, end - 1, n, limit) else end
  }

  lemma {:induction false} ShrinkByOne(at: nat, end: nat, n: nat, limit: int)
    requires at < end <= n && Size(at, end, n) > limit
    ensures Shrink(at, end, n, limit) == Shrink(at, end - 1, n, limit)
  {
  }

  lemma {:induction false} ShrinkStops(at: nat, end: nat, n: nat, limit: int)
    requires at <= end <= n && !(Size(at, end, n) > limit && end > at)
    ensures Shrink(at, end, n, limit) == end
  {
  }

  function FirstEnd(at: nat, n: nat, limit: int): nat
    requires limit > 0
  {
    if at + limit <= n then at + limit else n
  }

  function ClipEnd(at: nat, n: nat, limit: int): (e: nat)
    requires at <= n && limit > 0
    ensures at <= e <= n
  {
    Shrink(at, FirstEnd(at, n, limit), n, limit)
  }

  function Clip(text: string, needle: string, limit: int, fold: string -> string): string {
    var compact := Compact(text);
    if limit <= 0 || compact == "" then ""
    else if |compact| <= limit then compact
    else
      var at := ClipStart(compact, needle, fold);
      var end := ClipEnd(at, |compact|, limit);
      var result := Prefix(at) + compact[at..end] + Suffix(end, |compact|);
      if |result| <= limit then result else result[..limit]
  }

  /** The loop that moves the end back until piece and ellipses fit. */
  method ShrinkEnd(at: nat, first: nat, n: nat, limit: int) returns (end: nat)
    requires at <= first <= n
    ensures end == Shrink(at, first, n, limit)
  {
    end := first;
    while Size(at, end, n) > limit && end > at
      invariant at <= end <= n
      invariant Shrink(at, end, n, limit) == Shrink(at, first, n, limit)
      decreases end
    {
      ShrinkByOne(at, end, n, limit);
      end := end - 1;
    }
    ShrinkStops(at, end, n, limit);
  }

  method ClipExcerpt(text: string, needle: string, limit: int, fold: string -> string) returns (r: string)
    ensures r == Clip(text, needle, limit, fold)
  {
    var compact := Compact(text);
    if limit <= 0 || compact == "" {
      return "";
    }
    if |compact| <= limit {
      return compact;
    }
    var n, at := |compact|, ClipStart(compact, needle, fold);
    var end := ShrinkEnd(at, FirstEnd(at, n, limit), n, limit);
    var result := Prefix(at) + compact[at..end] + Suffix(end, n);
    r := if |result| <= limit then result else result[..limit];
  }

  // ---------------------------------------------------------------- what an excerpt is

  /** If its words, single-spaced, are within the limit, a text comes back as just that. */
  lemma {:induction false} ShortTextIsWhole(ws: seq<string>, gaps: seq<string>, needle: string, limit: int,
                                            fold: string -> string)
    requires |gaps| == |ws| + 1 && AllWords(ws) && AreGaps(gaps) && |Join(" ", ws)| <= limit
    ensures Clip(Spread(ws, gaps), needle, limit, fold) == Join(" ", ws)
  {
    WordsOfSpread(ws, gaps);
  }

  /** Below six characters a longer text is cut to its beginning and an ellipsis, if the match is
      near the beginning and the limit leaves room, and otherwise to dots. */
  lemma {:induction false} TinyExcerpt(text: string, needle: string, limit: int, fold: string -> string)
    requires 0 < limit < 6 && |Compact(text)| > limit
    ensures var compact := Compact(text);
      Clip(text, needle, limit, fold) ==
        if limit > 3 && ClipStart(compact, needle, fold) == 0 then compact[..limit - 3] + "..."
        else "....."[..limit]
  {
    var compact := Compact(text);
    var n, at := |compact|, ClipStart(compact, needle, fold);
    StartIsInside(compact, needle, fold);
    TinyEnd(at, n, limit);
    TinyPiece(compact, at, limit);
  }

  lemma {:induction false} TinyPiece(compact: string, at: nat, limit: int)
    requires 0 < limit < 6 && |compact| > limit && (at == 0 || at + LEAD <= |compact|)
    ensures var end := if at == 0 && limit > 3 then limit - 3 else at;
      var result := Prefix(at) + compact[at..end] + Suffix(end, |compact|);
      (if |result| <= limit then result else result[..limit]) ==
        if limit > 3 && at == 0 then compact[..limit - 3] + "..." else "....."[..limit]
  {
    if at > 0 {
      assert compact[at..at] == "" && ELLIPSIS + "" + ELLIPSIS == "......";
    } else if limit > 3 {
      assert "" + compact[0..limit - 3] + ELLIPSIS == compact[..limit - 3] + "...";
    } else {
      assert compact[0..0] == "" && "" + "" + ELLIPSIS == "...";
    }
  }

  lemma {:induction false} StartIsInside(compact: string, needle: string, fold: string -> string)
    ensures ClipStart(compact, needle, fold) == 0 || ClipStart(compact, needle, fold) + LEAD <= |compact|
  {
  }

  lemma {:induction false} TinyEnd(at: nat, n: nat, limit: int)
    requires 0 < limit < 6 && limit < n && (at == 0 || at + LEAD <= n)
    ensures ClipEnd(at, n, limit) == if at == 0 && limit > 3 then limit - 3 else at
  {
  }

  /** Without a limit above zero nothing is shown. */
  lemma NoRoomNoExcerpt(text: string, needle: string, limit: int, fold: string -> string)
    requires limit <= 0
    ensures Clip(text, needle, limit, fold) == ""
  {
  }

  /** The needle stands nowhere before the place. */
  predicate NotBefore(s: string, needle: string, place: nat) {
    forall i :: 0 <= i < place && i <= |s| ==> !(needle <= s[i..])
  }

  /** Where the piece begins: forty characters before the first match, or at the beginning when
      the match is closer than that or there is none. */
  lemma {:induction false} LeadIsForty(compact: string, needle: string, fold: string -> string, found: nat)
    requires |fold(compact)| == |compact| && needle != "" && NotBefore(fold(compact), needle, found)
    requires found <= |compact| ==> needle <= fold(compact)[found..]
    ensures ClipStart(compact, needle, fold) == if found < 40 || found > |compact| then 0 else found - 40
  {
  }

  /** Every excerpt fits its limit. */
  lemma {:induction false} ClipFits(text: string, needle: string, limit: int, fold: string -> string)
    ensures |Clip(text, needle, limit, fold)| <= if limit < 0 then 0 else limit
  {
  }

  /** r is one contiguous piece of the text, with an ellipsis on each side that was cut. */
  ghost predicate IsPiece(r: string, compact: string, at: nat, end: nat) {
    && at <= end <= |compact|
    && r == (if at > 0 then "..." else "") + compact[at..end] + (if end < |compact| then "..." else "")
  }

  /** From a limit of 6 on, the loop alone makes the piece and its ellipses fit, and it stops
      as early as possible: one more character would not fit, or there is none. */
  lemma {:induction false} ClipIsOnePiece(text: string, needle: string, limit: int, fold: string -> string)
    requires limit >= 6 && |Compact(text)| > limit
    ensures var compact := Compact(text);
      var at := ClipStart(compact, needle, fold);
      var end := ClipEnd(at, |compact|, limit);
      && IsPiece(Clip(text, needle, limit, fold), compact, at, end)
      && Size(at, end, |compact|) <= limit
      && (end < |compact| ==> Size(at, end + 1, |compact|) > limit)
  {
    var compact := Compact(text);
    var at, n := ClipStart(compact, needle, fold), |compact|;
    var end := ClipEnd(at, n, limit);
    assert Size(at, at, n) <= 6;
    assert |Prefix(at) + compact[at..end] + Suffix(end, n)| == Size(at, end, n);
  }

  /** If folding kept the length and the limit leaves 46 characters beside the needle, the
      first match is shown whole. */
  lemma {:induction false} ClipShowsMatch(text: string, needle: string, limit: int, fold: string -> string)
    requires needle != "" && limit >= |needle| + 46 && |Compact(text)| > limit
    requires |fold(Compact(text))| == |Compact(text)|
    requires FindIn(fold(Compact(text)), needle) <= |Compact(text)|
    ensures var compact := Compact(text);
      var at := ClipStart(compact, needle, fold);
      var found := FindIn(fold(compact), needle);
      at <= found && found + |needle| <= ClipEnd(at, |compact|, limit)
  {
    var compact := Compact(text);
    var at, n := ClipStart(compact, needle, fold), |compact|;
    var end := ClipEnd(at, n, limit);
    var found := FindIn(fold(compact), needle);
    assert needle <= fold(compact)[found..];
    assert found + |needle| <= n;
    if end < n {
      assert Size(at, end + 1, n) > limit by {
        ClipIsOnePiece(text, needle, limit, fold);
      }
    }
  }

  // ---------------------------------------------------------------- the budget over a hit list

  datatype Hit = Hit(id: string, store: string, excerpt: string, matched: nat)

  const PER_HIT: int := 360

  /** found[:maxResults] */
  function Leading(found: seq<Hit>, maxResults: int): seq<Hit> {
    if maxResults >= |found| then found
    else if maxResults >= 0 then found[..maxResults]
    else if -maxResults <= |found| then found[..|found| + maxResults] else []
  }

  /** The excerpt of a text for the needle of one search. */
  type Clipper = (string, int) -> string

  ghost predicate ClipsFor(clip: Clipper, needle: string, fold: string -> string) {
    forall text, limit :: clip(text, limit) == Clip(text, needle, limit, fold)
  }

  function HitLimit(remaining: int): int {
    if PER_HIT <= remaining then PER_HIT else remaining
  }

  function Capped(found: seq<Hit>, clip: Clipper, remaining: int): seq<Hit> {
    if found == [] || remaining <= 0 then []
    else
      var excerpt := clip(found[0].excerpt, HitLimit(remaining));
      if excerpt == "" then []
      else [found[0].(excerpt := excerpt)] + Capped(found[1..], clip, remaining - |excerpt|)
  }

  /** One more hit fits, with what is left of the budget for the rest. */
  lemma {:induction false} CappedOneMore(chosen: seq<Hit>, hits: seq<Hit>, k: nat, clip: Clipper, remaining: int)
    requires k < |hits| && remaining > 0 && clip(hits[k].excerpt, HitLimit(remaining)) != ""
    ensures var excerpt := clip(hits[k].excerpt, HitLimit(remaining));
      chosen + Capped(hits[k..], clip, remaining)
      == chosen + [hits[k].(excerpt := excerpt)] + Capped(hits[k + 1..], clip, remaining - |excerpt|)
  {
    var excerpt := clip(hits[k].excerpt, HitLimit(remaining));
    var hit, rest := hits[k].(excerpt := excerpt), Capped(hits[k + 1..], clip, remaining - |excerpt|);
    assert hits[k..][1..] == hits[k + 1..];
    assert chosen + ([hit] + rest) == chosen + [hit] + rest;
  }

  lemma {:induction false} CappedEnds(chosen: seq<Hit>, hits: seq<Hit>, k: nat, clip: Clipper, remaining: int)
    requires k <= |hits|
    requires k == |hits| || remaining <= 0 || clip(hits[k].excerpt, HitLimit(remaining)) == ""
    ensures chosen + Capped(hits[k..], clip, remaining) == chosen
  {
  }

  method CapHits(found: seq<Hit>, clip: Clipper, maxResults: int, maxChars: int) returns (chosen: seq<Hit>)
    ensures chosen == Capped(Leading(found, maxResults), clip, maxChars)
  {
    var hits, remaining := Leading(found, maxResults), maxChars;
    chosen := [];
    for k := 0 to |hits|
      invariant Capped(hits, clip, maxChars) == chosen + Capped(hits[k..], clip, remaining)
    {
      if remaining <= 0 {
        CappedEnds(chosen, hits, k, clip, remaining);
        return;
      }
      var excerpt := clip(hits[k].excerpt, HitLimit(remaining));
      if excerpt == "" {
        CappedEnds(chosen, hits, k, clip, remaining);
        return;
      }
      CappedOneMore(chosen, hits, k, clip, remaining);
      remaining := remaining - |excerpt|;
      chosen := chosen + [hits[k].(excerpt := excerpt)];
    }
    CappedEnds(chosen, hits, |hits|, clip, remaining);
  }

  function TotalChars(hits: seq<Hit>): nat {
    if hits == [] then 0 else |hits[0].excerpt| + TotalChars(hits[1..])
  }

  ghost predicate Fitting(clip: Clipper) {
    forall text, limit :: |clip(text, limit)| <= if limit < 0 then 0 else limit
  }

  ghost predicate EmptyOnlyWhenBlank(clip: Clipper) {
    forall text, limit: int :: limit > 0 ==> (clip(text, limit) == "" <==> Compact(text) == "")
  }

  lemma {:induction false} ClipsWell(clip: Clipper, needle: string, fold: string -> string)
    requires ClipsFor(clip, needle, fold)
    ensures Fitting(clip) && EmptyOnlyWhenBlank(clip)
  {
    forall text, limit ensures |clip(text, limit)| <= if limit < 0 then 0 else limit {
      ClipFits(text, needle, limit, fold);
    }
    forall text, limit: int | limit > 0 ensures clip(text, limit) == "" <==> Compact(text) == "" {
      EmptyClip(text, needle, limit, fold);
    }
  }

  lemma {:induction false} EmptyClip(text: string, needle: string, limit: int, fold: string -> string)
    requires limit > 0
    ensures Clip(text, needle, limit, fold) == "" <==> Compact(text) == ""
  {
    var compact := Compact(text);
    if |compact| > limit {
      var at := ClipStart(compact, needle, fold);
      var end := ClipEnd(at, |compact|, limit);
      assert at > 0 || end > 0 || end < |compact|;
    }
  }

  /** chosen is the front of found, with nothing but non-empty excerpts changed. */
  predicate FrontOf(chosen: seq<Hit>, found: seq<Hit>) {
    && |chosen| <= |found|
    && forall k :: 0 <= k < |chosen| ==>
         chosen[k] == found[k].(excerpt := chosen[k].excerpt) && 0 < |chosen[k].excerpt| <= PER_HIT
  }

  lemma {:induction false} CappedFront(found: seq<Hit>, clip: Clipper, budget: int)
    requires Fitting(clip)
    ensures FrontOf(Capped(found, clip, budget), found)
    ensures TotalChars(Capped(found, clip, budget)) <= if budget < 0 then 0 else budget
  {
    if found != [] && budget > 0 {
      var excerpt := clip(found[0].excerpt, HitLimit(budget));
      assert |excerpt| <= HitLimit(budget);
      CappedFront(found[1..], clip, budget - |excerpt|);
      if excerpt != "" {
        FrontGrows(found, excerpt, Capped(found[1..], clip, budget - |excerpt|));
      }
    }
  }

  lemma FrontGrows(found: seq<Hit>, excerpt: string, rest: seq<Hit>)
    requires found != [] && FrontOf(rest, found[1..]) && 0 < |excerpt| <= PER_HIT
    ensures FrontOf([found[0].(excerpt := excerpt)] + rest, found)
  {
    var chosen := [found[0].(excerpt := excerpt)] + rest;
    assert forall k :: 0 < k < |chosen| ==> chosen[k] == rest[k - 1] && found[k] == found[1..][k - 1];
  }

  ghost predicate ClipsToNothing(clip: Clipper, text: string) {
    exists limit: int :: limit > 0 && clip(text, limit) == ""
  }

  lemma {:induction false} CappedStops(found: seq<Hit>, clip: Clipper, budget: int)
    ensures var chosen := Capped(found, clip, budget);
      |chosen| < |found| ==> budget <= TotalChars(chosen) || ClipsToNothing(clip, found[|chosen|].excerpt)
  {
    if found != [] && budget > 0 {
      var excerpt := clip(found[0].excerpt, HitLimit(budget));
      if excerpt != "" {
        var rest := Capped(found[1..], clip, budget - |excerpt|);
        CappedStops(found[1..], clip, budget - |excerpt|);
        assert |rest| < |found[1..]| ==> found[1..][|rest|] == found[1 + |rest|];
        assert ([found[0].(excerpt := excerpt)] + rest)[1..] == rest;
      }
    }
  }

  /** Each chosen hit is cut to 360 characters, or to what the hits before it have left. */
  lemma {:induction false} EachHitIsClipped(found: seq<Hit>, clip: Clipper, budget: int, k: nat)
    requires k < |Capped(found, clip, budget)| && k < |found|
    ensures var chosen := Capped(found, clip, budget);
      var left := budget - TotalChars(chosen[..k]);
      left > 0 && chosen[k].excerpt == clip(found[k].excerpt, if left < 360 then left else 360)
  {
    var excerpt := clip(found[0].excerpt, HitLimit(budget));
    var chosen, rest := Capped(found, clip, budget), Capped(found[1..], clip, budget - |excerpt|);
    if k == 0 {
      assert chosen[..0] == [];
    } else {
      EachHitIsClipped(found[1..], clip, budget - |excerpt|, k - 1);
      assert chosen[..k] == [chosen[0]] + rest[..k - 1] && chosen[..k][1..] == rest[..k - 1];
    }
  }

  /** How many hits may be chosen: at most maxResults, and of a negative number all but the last
      so many. */
  function MayChoose(n: nat, maxResults: int): (m: nat)
    ensures m <= n
  {
    if maxResults < 0 then (if n + maxResults < 0 then 0 else n + maxResults)
    else if maxResults < n then maxResults else n
  }

  /** Over a hit list the excerpts total at most the budget, the chosen hits are the front of
      the ranking, and choosing stops before as many as may be chosen only when the budget is
      used up or the next message is blank. */
  lemma {:induction false} HitsWithinBudget(found: seq<Hit>, needle: string, fold: string -> string, clip: Clipper,
                                            maxResults: int, budget: int)
    requires ClipsFor(clip, needle, fold)
    ensures var chosen, most := Capped(Leading(found, maxResults), clip, budget), MayChoose(|found|, maxResults);
      && FrontOf(chosen, found) && |chosen| <= most
      && TotalChars(chosen) <= (if budget < 0 then 0 else budget)
      && (|chosen| < most ==> budget <= TotalChars(chosen) || Compact(found[|chosen|].excerpt) == "")
  {
    var hits := Leading(found, maxResults);
    assert hits == found[..MayChoose(|found|, maxResults)];
    ClipsWell(clip, needle, fold);
    CappedFront(hits, clip, budget);
    CappedStops(hits, clip, budget);
  }
}
