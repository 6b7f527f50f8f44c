/** Which tokens a compaction summary has to keep, and reading them in order
    (src/application/kernel/compaction_verifier.py, lines 85-182). */
module SummaryFacts {
  import opened Texts
  import opened Chat
  import opened KeyTokens

  // ---------------------------------------------------------------- kinds of tokens

  datatype Kind = Path | Number | Name | Other

  function AfterLastSlash(s: string): string {
    if s == "" || s[|s| - 1] == '/' then "" else AfterLastSlash(s[..|s| - 1]) + [s[|s| - 1]]
  }

  predicate IsPath(t: string) {
    && '/' in t && !("http:" <= t) && !("https:" <= t)
    && (("/" <= t || "./" <= t || "../" <= t) || '.' in AfterLastSlash(StripEnd(t, Chars("/"))))
  }

  function DigitRun(s: string): (n: nat)
    ensures n <= |s|
  {
    if s != "" && IsDigit(s[0]) then 1 + DigitRun(s[1..]) else 0
  }

  predicate IsNumber(t: string) {
    || (exists p <- ClockPatterns() :: |p| == |t| && Matches(p, t))
    || (var n := DigitRun(t);
        if n == |t| then n >= 2
        else n >= 1 && t[n] == '.' && n + 1 < |t| && DigitRun(t[n + 1..]) == |t| - n - 1)
  }

  predicate IsSnake(t: string) {
    t != "" && IsLetter(t[0]) && forall c <- t :: IsLetter(c) || IsDigit(c) || c == '_'
  }

  predicate IsFileName(t: string) {
    exists d :: 0 < d < |t| && t[d] == '.' && IsLetter(t[0])
      && (forall i :: 0 <= i < d ==> IsLetter(t[i]) || IsDigit(t[i]) || t[i] == '_' || t[i] == '-')
      && 2 <= |t| - d - 1 <= 8
      && (forall i :: d < i < |t| ==> IsLetter(t[i]) || IsDigit(t[i]))
  }

  predicate IsName(t: string) {
    |t| >= 4 && (('_' in t && IsSnake(t)) || IsFileName(t))
  }

  function KindOf(t: string): Kind {
    if IsPath(t) then Path else if IsNumber(t) then Number else if IsName(t) then Name else Other
  }

  // ---------------------------------------------------------------- extraction

  datatype KeyFacts = KeyFacts(paths: seq<string>, numbers: seq<string>, names: seq<string>)

  /** The units of one kind, each once, in the order of their first occurrence. */
  function FirstOccurrences(units: seq<string>, k: Kind): seq<string> {
    if units == [] then []
    else
      var before, t := FirstOccurrences(units[..|units| - 1], k), units[|units| - 1];
      if KindOf(t) == k && t !in before then before + [t] else before
  }

  function FactsOf(text: string): KeyFacts {
    var us := Units(text);
    KeyFacts(FirstOccurrences(us, Path), FirstOccurrences(us, Number), FirstOccurrences(us, Name))
  }

  predicate NoRepeats(ts: seq<string>) {
    forall i, j :: 0 <= i < j < |ts| ==> ts[i] != ts[j]
  }

  /** Extraction keeps exactly the units of the kind, each once. */
  lemma {:induction false} FirstOccurrencesComplete(units: seq<string>, k: Kind)
    ensures forall t :: t in FirstOccurrences(units, k) <==> t in units && KindOf(t) == k
    ensures NoRepeats(FirstOccurrences(units, k))
  {
    if units != [] {
      var rest, t := units[..|units| - 1], units[|units| - 1];
      FirstOccurrencesComplete(rest, k);
      assert units == rest + [t];
    }
  }

  /** One more token: it is added to the list of its kind unless it is there. */
  lemma {:induction false} OneToken(units: seq<string>, i: nat, k: Kind)
    requires i < |units|
    ensures var before := FirstOccurrences(units[..i], k);
      FirstOccurrences(units[..i + 1], k) ==
        if KindOf(units[i]) == k && units[i] !in before then before + [units[i]] else before
  {
    assert units[..i + 1][..i] == units[..i];
  }

  method ExtractKeyTokens(text: string) returns (facts: KeyFacts)
    ensures facts == FactsOf(text)
  {
    var units := Units(text);
    var paths, numbers, names := [], [], [];
    for i := 0 to |units|
      invariant paths == FirstOccurrences(units[..i], Path)
      invariant numbers == FirstOccurrences(units[..i], Number)
      invariant names == FirstOccurrences(units[..i], Name)
    {
      var token := units[i];
      OneToken(units, i, Path);
      OneToken(units, i, Number);
      OneToken(units, i, Name);
      var kind := KindOf(token);
      match kind {
        case Path =>
          if token !in paths {
            paths := paths + [token];
          }
        case Number =>
          if token !in numbers {
            numbers := numbers + [token];
          }
        case Name =>
          if token !in names {
            names := names + [token];
          }
        case Other =>
      }
    }
    assert units[..|units|] == units;
    facts := KeyFacts(paths, numbers, names);
  }

  // ---------------------------------------------------------------- texts whose tokens are required

  const MARKER: string := "[Summary of earlier conversation:"

  predicate IsSummary(m: Message) {
    MARKER <= StripStart(m.content, Spaces)
  }

  /** User messages and earlier summaries. */
  predicate Carries(m: Message) {
    m.role == User || IsSummary(m)
  }

  function RequiredParts(ms: seq<Message>): seq<string> {
    if ms == [] then []
    else
      var before, m := RequiredParts(ms[..|ms| - 1]), ms[|ms| - 1];
      if Carries(m) && Normalize(m.content) != "" then before + [Normalize(m.content)] else before
  }

  function RequiredText(ms: seq<Message>): string {
    Join("\n", RequiredParts(ms))
  }

  method RequiredFactText(ms: seq<Message>) returns (text: string)
    ensures text == RequiredText(ms)
  {
    var parts := [];
    for i := 0 to |ms|
      invariant parts == RequiredParts(ms[..i])
    {
      assert ms[..i + 1][..i] == ms[..i];
      if ms[i].role == User || IsSummary(ms[i]) {
        var text := Normalize(ms[i].content);
        if text != "" {
          parts := parts + [text];
        }
      }
    }
    assert ms[..|ms|] == ms;
    text := Join("\n", parts);
  }

  // ---------------------------------------------------------------- units of joined texts

  lemma {:induction false} UnitsSplit(a: string, b: string)
    ensures Units(a + "\n" + b) == Units(a) + Units(b)
  {
    NormalizeOfConcat(a + "\n", b);
    NormalizeOfConcat(a, "\n");
    NormalizeAscii("\n");
    TokensSplitAt(Normalize(a), '\n', Normalize(b));
  }

  function AllUnits(texts: seq<string>): seq<string> {
    if texts == [] then [] else Units(texts[0]) + AllUnits(texts[1..])
  }

  /** Joining lines neither makes nor breaks a token. */
  lemma {:induction false} UnitsOfJoin(texts: seq<string>)
    ensures Units(Join("\n", texts)) == AllUnits(texts)
  {
    if texts == [] {
    } else if |texts| == 1 {
      assert AllUnits(texts[1..]) == [];
    } else {
      UnitsSplit(texts[0], Join("\n", texts[1..]));
      UnitsOfJoin(texts[1..]);
    }
  }

  lemma {:induction false} AllUnitsHas(texts: seq<string>, t: string)
    ensures t in AllUnits(texts) <==> exists text :: text in texts && t in Units(text)
  {
    if texts != [] {
      AllUnitsHas(texts[1..], t);
      assert forall text :: text in texts <==> text == texts[0] || text in texts[1..];
    }
  }

  lemma {:induction false} RequiredPartsHas(ms: seq<Message>, part: string)
    ensures part in RequiredParts(ms) <==> exists m :: m in ms && Carries(m) && Normalize(m.content) == part != ""
  {
    if ms != [] {
      var rest, last := ms[..|ms| - 1], ms[|ms| - 1];
      RequiredPartsHas(rest, part);
      assert ms == rest + [last];
    }
  }

  /** The tokens of the required text are those of each user message and earlier summary. */
  lemma {:induction false} RequiredUnits(ms: seq<Message>, t: string)
    ensures t in Units(RequiredText(ms)) <==> exists m :: m in ms && Carries(m) && t in Units(m.content)
  {
    UnitsOfJoin(RequiredParts(ms));
    AllUnitsHas(RequiredParts(ms), t);
    if t in Units(RequiredText(ms)) {
      var part :| part in RequiredParts(ms) && t in Units(part);
      RequiredPartsHas(ms, part);
      var m :| m in ms && Carries(m) && Normalize(m.content) == part;
      NormalizeTwice(m.content);
      assert t in Units(m.content);
    }
    if m :| m in ms && Carries(m) && t in Units(m.content) {
      var part := Normalize(m.content);
      assert part != "" by {
        assert Tokens("") == [];
      }
      RequiredPartsHas(ms, part);
      NormalizeTwice(m.content);
      assert part in RequiredParts(ms) && t in Units(part);
    }
  }
}
