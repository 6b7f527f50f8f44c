/** Building a compaction summary and checking it against the messages it replaces
    (src/application/kernel/compaction_verifier.py, lines 137-286). */
module SummaryCheck {
  import opened Texts
  import opened Chat
  import opened KeyTokens
  import opened SummaryFacts

  // ---------------------------------------------------------------- rendering for the size check

  function RenderLine(m: Message): string {
    var content := Normalize(m.content);
    if IsSummary(m) then "summary: " + content
    else if m.role == Tool then StripEnd("tool " + m.name + ": " + content, Spaces)
    else RoleValue(m.role) + ": " + content
  }

  function RenderOriginal(ms: seq<Message>): string {
    Join("\n", seq(|ms|, i requires 0 <= i < |ms| => RenderLine(ms[i])))
  }

  // ---------------------------------------------------------------- checking a summary

  datatype Problem =
    | NotShorter
    | MissingHeading(heading: string)
    | MissingPaths(paths: seq<string>)
    | MissingNumbers(numbers: seq<string>)
    | MissingNames(names: seq<string>)

  const DECISIONS: string := "Decisions"
  const OPEN_TASKS: string := "Open tasks"
  const KEY_FACTS: string := "Key facts"

  function Bare(line: string): string {
    Strip(StripEnd(Strip(StripStart(Strip(line), Chars("#*-"))), Chars(":")))
  }

  predicate HasHeading(summary: string, heading: string) {
    exists line <- SplitLines(summary) :: Bare(line) == heading
  }

  function Missing(items: seq<string>, present: seq<string>): seq<string> {
    if items == [] then []
    else (if items[0] in present then [] else [items[0]]) + Missing(items[1..], present)
  }

  /** Up to a fifth of more than four names may be dropped. */
  function NamesStillRequired(names: seq<string>, present: seq<string>): seq<string> {
    var missing := Missing(names, present);
    if |names| <= 4 then missing else if |missing| <= |names| / 5 then [] else missing
  }

  function HeadingProblems(summary: string): seq<Problem> {
    (if HasHeading(summary, DECISIONS) then [] else [MissingHeading(DECISIONS)])
    + (if HasHeading(summary, OPEN_TASKS) then [] else [MissingHeading(OPEN_TASKS)])
    + (if HasHeading(summary, KEY_FACTS) then [] else [MissingHeading(KEY_FACTS)])
  }

  function TokenProblems(summary: string, facts: KeyFacts): seq<Problem> {
    var present := Units(summary);
    var paths, numbers := Missing(facts.paths, present), Missing(facts.numbers, present);
    var names := NamesStillRequired(facts.names, present);
    (if paths != [] then [MissingPaths(paths)] else [])
    + (if numbers != [] then [MissingNumbers(numbers)] else [])
    + (if names != [] then [MissingNames(names)] else [])
  }

  function CheckSummary(summary: string, original: seq<Message>, requireShorter: bool): seq<Problem> {
    var rendered := RenderOriginal(original);
    (if requireShorter && rendered != "" && |summary| >= |rendered| then [NotShorter] else [])
    + HeadingProblems(summary)
    + TokenProblems(summary, FactsOf(RequiredText(original)))
  }

  lemma {:induction false} MissingNone(items: seq<string>, present: seq<string>)
    ensures Missing(items, present) == [] <==> forall x :: x in items ==> x in present
  {
    if items != [] {
      MissingNone(items[1..], present);
      assert forall x :: x in items <==> x == items[0] || x in items[1..];
    }
  }

  /** Every path and number of the user messages and earlier summaries is in the summary. */
  ghost predicate KeepsFacts(summary: string, original: seq<Message>) {
    forall m <- original, t <- Units(m.content) ::
      Carries(m) && KindOf(t) in {Path, Number} ==> t in Units(summary)
  }

  lemma {:induction false} FactsKeptIff(summary: string, original: seq<Message>)
    ensures var facts, present := FactsOf(RequiredText(original)), Units(summary);
      KeepsFacts(summary, original) <==> Missing(facts.paths, present) == [] && Missing(facts.numbers, present) == []
  {
    var us, present := Units(RequiredText(original)), Units(summary);
    FirstOccurrencesComplete(us, Path);
    FirstOccurrencesComplete(us, Number);
    MissingNone(FirstOccurrences(us, Path), present);
    MissingNone(FirstOccurrences(us, Number), present);
    forall t ensures t in us <==> exists m :: m in original && Carries(m) && t in Units(m.content) {
      RequiredUnits(original, t);
    }
  }

  /** Of four names or fewer a summary may lose none, of more a fifth. */
  predicate MayLose(missing: nat, n: nat) {
    if n <= 4 then missing == 0 else 5 * missing <= n
  }

  /** What an accepted summary is: short enough if it has to be, with the three headings, all
      paths and numbers of the user messages and earlier summaries, and enough of the names. */
  lemma {:induction false} AcceptedExactly(summary: string, original: seq<Message>, requireShorter: bool)
    ensures var names := FactsOf(RequiredText(original)).names;
      CheckSummary(summary, original, requireShorter) == [] <==>
        && (requireShorter && RenderOriginal(original) != "" ==> |summary| < |RenderOriginal(original)|)
        && HasHeading(summary, DECISIONS) && HasHeading(summary, OPEN_TASKS) && HasHeading(summary, KEY_FACTS)
        && KeepsFacts(summary, original)
        && MayLose(|Missing(names, Units(summary))|, |names|)
  {
    FactsKeptIff(summary, original);
    NoTokenProblems(summary, FactsOf(RequiredText(original)));
  }

  lemma {:induction false} AcceptedKeepsFacts(summary: string, original: seq<Message>, requireShorter: bool,
                                              m: Message, t: string)
    ensures CheckSummary(summary, original, requireShorter) == [] ==>
      (m in original && Carries(m) && t in Units(m.content) && KindOf(t) in {Path, Number} ==> t in Units(summary))
  {
    if CheckSummary(summary, original, requireShorter) == [] {
      AcceptedExactly(summary, original, requireShorter);
    }
  }

  lemma {:induction false} NoTokenProblems(summary: string, facts: KeyFacts)
    ensures TokenProblems(summary, facts) == [] <==>
      && Missing(facts.paths, Units(summary)) == [] && Missing(facts.numbers, Units(summary)) == []
      && MayLose(|Missing(facts.names, Units(summary))|, |facts.names|)
  {
  }

  // ---------------------------------------------------------------- building a summary

  /** The two hint expressions, as predicates on a message's text. */
  datatype Hints = Hints(decision: string -> bool, task: string -> bool)

  function NewlinesToSpaces(s: string): string {
    seq(|s|, i requires 0 <= i < |s| => if s[i] == '\n' then ' ' else s[i])
  }

  function RawLine(m: Message): string {
    Strip(NewlinesToSpaces(Normalize(m.content)))
  }

  function Snippet(raw: string): string {
    if |raw| > 120 then raw[..120] + "..." else raw
  }

  /** The three lists that the loop over the messages fills. */
  datatype Sections = Sections(decisions: seq<string>, tasks: seq<string>, previews: seq<string>)

  function AddMessage(s: Sections, m: Message, hints: Hints): Sections {
    var raw := RawLine(m);
    if raw == "" then s
    else
      var bullet := ["- " + Snippet(raw)];
      var decides := m.role == User && hints.decision(raw) && |s.decisions| < 3;
      var asks := m.role == User && hints.task(raw) && |s.tasks| < 3;
      Sections(s.decisions + (if decides then bullet else []),
               s.tasks + (if asks then bullet else []),
               s.previews + ["- " + RoleLabel(m.role) + ": " + Snippet(raw)])
  }

  function SectionsOf(ms: seq<Message>, hints: Hints): Sections {
    if ms == [] then Sections([], [], [])
    else AddMessage(SectionsOf(ms[..|ms| - 1], hints), ms[|ms| - 1], hints)
  }

  function FactLine(lead: string, items: seq<string>): seq<string> {
    if items == [] then [] else [lead + Join(", ", items)]
  }

  function LineLimit(limit: int): nat {
    if limit < 1 then 1 else limit
  }

  function KeyLines(facts: KeyFacts, previews: seq<string>, limit: int): seq<string> {
    var kept := if LineLimit(limit) < |previews| then previews[|previews| - LineLimit(limit)..] else previews;
    var omitted := |previews| - |kept|;
    FactLine("- Paths: ", facts.paths) + FactLine("- Numbers/dates: ", facts.numbers)
    + FactLine("- Identifiers: ", facts.names)
    + (if omitted > 0 then ["... (" + Decimal(omitted) + " older messages omitted)"] else [])
    + kept
  }

  function OrNone(bullets: seq<string>): seq<string> {
    if bullets == [] then ["- none"] else bullets
  }

  /** The text from the key-facts heading on. */
  function KeyPart(lines: seq<string>): string {
    KEY_FACTS + "\n" + (Join("\n", lines) + "]")
  }

  /** The three headed parts under a title; the built-in title is the marker. */
  function Laid(title: string, sections: Sections, keyLines: seq<string>): string {
    title + "\n" + (DECISIONS + "\n" + (Join("\n", OrNone(sections.decisions)) + "\n"
      + (OPEN_TASKS + "\n" + (Join("\n", OrNone(sections.tasks)) + "\n" + KeyPart(keyLines)))))
  }

  function BuildSummary(ms: seq<Message>, limit: int, hints: Hints): string {
    var sections := SectionsOf(ms, hints);
    Laid(MARKER, sections, KeyLines(FactsOf(RequiredText(ms)), sections.previews, limit))
  }

  method BuildVerifiedSummary(ms: seq<Message>, limit: int, hints: Hints) returns (summary: string)
    ensures summary == BuildSummary(ms, limit, hints)
  {
    var source := RequiredFactText(ms);
    var facts := ExtractKeyTokens(source);
    var sections := Sections([], [], []);
    for i := 0 to |ms|
      invariant sections == SectionsOf(ms[..i], hints)
    {
      assert ms[..i + 1][..i] == ms[..i];
      sections := AddMessage(sections, ms[i], hints);
    }
    assert ms[..|ms|] == ms;
    summary := Laid(MARKER, sections, KeyLines(facts, sections.previews, limit));
  }

  // ---------------------------------------------------------------- what is printed reads back

  lemma {:induction false} UnitsBeforeBracket(a: string)
    ensures Units(a + "]") == Units(a)
  {
    NormalizeOfConcat(a, "]");
    NormalizeAscii("]");
    TokensSplitAt(Normalize(a), ']', "");
    assert Normalize(a) + [']'] + "" == Normalize(a + "]");
  }

  lemma {:induction false} TokensAfterSpace(s: string)
    ensures Tokens(" " + s) == Tokens(s)
  {
    NoTokenAt(" " + s);
    assert (" " + s)[1..] == s;
  }

  predicate AllAreUnits(ts: seq<string>) {
    forall t <- ts :: IsUnit(t)
  }

  lemma {:induction false} UnitsOfTailList(ts: seq<string>)
    requires ts != [] && AllAreUnits(ts)
    ensures AllAreUnits(ts[1..]) && IsUnit(ts[0])
  {
    assert ts[0] in ts && forall t <- ts[1..] :: t in ts;
  }

  /** A comma-separated list of units tokenises to exactly that list. */
  lemma {:induction false} TokensOfList(ts: seq<string>)
    requires AllAreUnits(ts)
    ensures Tokens(Join(", ", ts)) == ts && Ascii(Join(", ", ts))
  {
    if ts != [] {
      UnitsOfTailList(ts);
      assert ts == [ts[0]] + ts[1..];
      if |ts| > 1 {
        TokensOfList(ts[1..]);
        UnitThenRest(ts[0], Join(", ", ts[1..]));
      }
    }
  }

  lemma {:induction false} UnitThenRest(t: string, rest: string)
    requires IsUnit(t) && Ascii(rest)
    ensures Tokens(t + ", " + rest) == [t] + Tokens(rest) && Ascii(t + ", " + rest)
  {
    assert t + ", " + rest == t + [','] + (" " + rest);
    TokensSplitAt(t, ',', " " + rest);
    TokensAfterSpace(rest);
  }

  /** ... also behind a lead that ends in a colon and a space. */
  lemma {:induction false} FactLineReadsBack(lead: string, ts: seq<string>, t: string)
    requires Ascii(lead) && lead != "" && lead[|lead| - 1] == ':'
    requires AllAreUnits(ts) && t in ts
    ensures t in Units(lead + " " + Join(", ", ts))
  {
    var list := Join(", ", ts);
    TokensOfList(ts);
    NormalizeAscii(lead + " " + list);
    TokensSplitAt(lead, ' ', list);
    assert lead + [' '] + list == lead + " " + list;
  }

  /** The tokens of the part under the last heading. */
  lemma {:induction false} UnitsOfKeyPart(lines: seq<string>)
    ensures Units(KeyPart(lines)) == Units(KEY_FACTS) + AllUnits(lines)
  {
    UnitsSplit(KEY_FACTS, Join("\n", lines) + "]");
    UnitsBeforeBracket(Join("\n", lines));
    UnitsOfJoin(lines);
  }

  lemma {:induction false} UnitsUnder(heading: string, part: string, rest: string)
    ensures Units(heading + "\n" + (part + "\n" + rest)) == Units(heading) + (Units(part) + Units(rest))
  {
    UnitsSplit(heading, part + "\n" + rest);
    UnitsSplit(part, rest);
  }

  /** The tokens of a laid out summary, part by part. */
  lemma {:induction false} UnitsOfLaid(title: string, sections: Sections, lines: seq<string>)
    ensures Units(Laid(title, sections, lines)) ==
      Units(title)
      + (Units(DECISIONS) + (Units(Join("\n", OrNone(sections.decisions)))
      + (Units(OPEN_TASKS) + (Units(Join("\n", OrNone(sections.tasks)))
      + (Units(KEY_FACTS) + AllUnits(lines))))))
  {
    var decisions, tasks := Join("\n", OrNone(sections.decisions)), Join("\n", OrNone(sections.tasks));
    var open := OPEN_TASKS + "\n" + (tasks + "\n" + KeyPart(lines));
    UnitsOfKeyPart(lines);
    UnitsUnder(OPEN_TASKS, tasks, KeyPart(lines));
    UnitsUnder(DECISIONS, decisions, open);
    UnitsSplit(title, DECISIONS + "\n" + (decisions + "\n" + open));
  }

  lemma {:induction false} KeyLineReachesSummary(title: string, sections: Sections, lines: seq<string>, line: string,
                                                 t: string)
    requires line in lines && t in Units(line)
    ensures t in Units(Laid(title, sections, lines))
  {
    AllUnitsHas(lines, t);
    UnitsOfLaid(title, sections, lines);
  }

  lemma {:induction false} UnitsAreUnits(text: string, k: Kind)
    ensures AllAreUnits(FirstOccurrences(Units(text), k))
  {
    FirstOccurrencesComplete(Units(text), k);
    TokensReadBack(Normalize(text));
  }

  ghost predicate InSomeList(facts: KeyFacts, t: string) {
    t in facts.paths || t in facts.numbers || t in facts.names
  }

  lemma {:induction false} FactLineHas(lead: string, items: seq<string>, t: string)
    requires IsLead(lead)
    requires AllAreUnits(items) && t in items
    ensures |FactLine(lead, items)| == 1 && t in Units(FactLine(lead, items)[0])
  {
    var front := lead[..|lead| - 1];
    assert front[|front| - 1] == lead[|lead| - 2..][0] == ':' && front + " " == lead;
    assert forall c <- front :: c in lead;
    FactLineReadsBack(front, items, t);
  }

  lemma {:induction false} FactLinesPrinted(facts: KeyFacts, previews: seq<string>, limit: int)
    ensures forall line <- FactLine("- Paths: ", facts.paths) :: line in KeyLines(facts, previews, limit)
    ensures forall line <- FactLine("- Numbers/dates: ", facts.numbers) :: line in KeyLines(facts, previews, limit)
    ensures forall line <- FactLine("- Identifiers: ", facts.names) :: line in KeyLines(facts, previews, limit)
  {
  }

  lemma {:induction false} FactLinePrinted(facts: KeyFacts, previews: seq<string>, limit: int, text: string, t: string)
    requires facts == FactsOf(text) && InSomeList(facts, t)
    ensures exists line :: line in KeyLines(facts, previews, limit) && t in Units(line)
  {
    UnitsAreUnits(text, Path);
    UnitsAreUnits(text, Number);
    UnitsAreUnits(text, Name);
    FactLinesPrinted(facts, previews, limit);
    if t in facts.paths {
      PathsLead();
      FactLineHas("- Paths: ", facts.paths, t);
    } else if t in facts.numbers {
      NumbersLead();
      FactLineHas("- Numbers/dates: ", facts.numbers, t);
    } else {
      NamesLead();
      FactLineHas("- Identifiers: ", facts.names, t);
    }
  }

  predicate IsLead(lead: string) {
    Ascii(lead) && |lead| > 1 && lead[|lead| - 2..] == ": "
  }

  lemma {:induction false} PathsLead()
    ensures IsLead("- Paths: ")
  {
  }

  lemma {:induction false} NumbersLead()
    ensures IsLead("- Numbers/dates: ")
  {
  }

  lemma {:induction false} NamesLead()
    ensures IsLead("- Identifiers: ")
  {
  }

  /** Printer and tokeniser: every path, number and name required by the messages comes out
      of the built summary unchanged. */
  lemma {:induction false} BuiltSummaryKeepsFacts(ms: seq<Message>, limit: int, hints: Hints, m: Message, t: string)
    ensures m in ms && Carries(m) && t in Units(m.content) && KindOf(t) != Other ==>
      t in Units(BuildSummary(ms, limit, hints))
  {
    RequiredUnits(ms, t);
    var text := RequiredText(ms);
    FirstOccurrencesComplete(Units(text), KindOf(t));
    if InSomeList(FactsOf(text), t) {
      var sections := SectionsOf(ms, hints);
      FactLinePrinted(FactsOf(text), sections.previews, limit, text, t);
      var lines := KeyLines(FactsOf(text), sections.previews, limit);
      var line :| line in lines && t in Units(line);
      KeyLineReachesSummary(MARKER, sections, lines, line, t);
    }
  }

  // ---------------------------------------------------------------- headings

  predicate PlainEnds(h: string) {
    && h != "" && !IsSpace(h[0]) && !IsSpace(h[|h| - 1]) && h[0] !in "#*-" && h[|h| - 1] != ':'
    && forall c <- h :: !IsLineBreak(c)
  }

  lemma {:induction false} HeadingBetween(summary: string, before: string, h: string, rest: string)
    requires PlainEnds(h) && summary == before + "\n" + (h + "\n" + rest)
    ensures HasHeading(summary, h)
  {
    LineBetween(before, h, rest);
    assert StripStart(h, Spaces) == h && StripEnd(h, Spaces) == h;
    assert StripStart(h, Chars("#*-")) == h && StripEnd(h, Chars(":")) == h;
    assert Bare(h) == h;
  }

  function Under(heading: string, text: string): string {
    heading + "\n" + text
  }

  /** A heading stays visible when more text is put in front, line by line. */
  lemma {:induction false} HeadingBelow(before: string, part: string, line: string, h: string, rest: string)
    requires PlainEnds(h) && part == before + "\n" + Under(h, rest)
    ensures var above := Under(line, before); Under(line, part) == above + "\n" + Under(h, rest)
    ensures HasHeading(Under(line, part), h)
  {
    assert Under(line, part) == Under(line, before) + "\n" + Under(h, rest);
    HeadingBetween(Under(line, part), Under(line, before), h, rest);
  }

  lemma {:induction false} ThreeHeadings(a: string, h1: string, b: string, h2: string, c: string, h3: string, d: string)
    requires PlainEnds(h1) && PlainEnds(h2) && PlainEnds(h3)
    ensures var s := Under(a, Under(h1, Under(b, Under(h2, Under(c, Under(h3, d))))));
      HasHeading(s, h1) && HasHeading(s, h2) && HasHeading(s, h3)
  {
    var fromC := Under(c, Under(h3, d));
    var fromB := Under(b, Under(h2, fromC));
    HeadingBetween(Under(a, Under(h1, fromB)), a, h1, fromB);
    HeadingBelow(b, fromB, h1, h2, fromC);
    HeadingBelow(Under(h1, b), Under(h1, fromB), a, h2, fromC);
    HeadingBelow(c, fromC, h2, h3, d);
    HeadingBelow(Under(h2, c), Under(h2, fromC), b, h3, d);
    HeadingBelow(Under(b, Under(h2, c)), fromB, h1, h3, d);
    HeadingBelow(Under(h1, Under(b, Under(h2, c))), Under(h1, fromB), a, h3, d);
  }

  lemma {:induction false} LaidHasHeadings(title: string, sections: Sections, lines: seq<string>)
    ensures HeadingProblems(Laid(title, sections, lines)) == []
  {
    ThreeHeadings(title, DECISIONS, Join("\n", OrNone(sections.decisions)), OPEN_TASKS,
                  Join("\n", OrNone(sections.tasks)), KEY_FACTS, Join("\n", lines) + "]");
  }

  /** The built summary starts with the marker, so the next round treats it as required. */
  lemma {:induction false} BuiltSummaryIsSummary(ms: seq<Message>, limit: int, hints: Hints)
    ensures IsSummary(Plain(Assistant, BuildSummary(ms, limit, hints)))
  {
    var s := BuildSummary(ms, limit, hints);
    assert MARKER <= s && s[0] == '[' && !IsSpace(s[0]);
    assert StripStart(s, Spaces) == s;
  }

  lemma {:induction false} NothingMissing(items: seq<string>, present: seq<string>)
    requires forall t :: t in items ==> t in present
    ensures Missing(items, present) == [] && NamesStillRequired(items, present) == []
  {
    MissingNone(items, present);
  }

  /** For every list of messages the built summary passes its own check, apart from length. */
  lemma {:induction false} BuiltSummaryPasses(ms: seq<Message>, limit: int, hints: Hints)
    ensures CheckSummary(BuildSummary(ms, limit, hints), ms, false) == []
  {
    var s := BuildSummary(ms, limit, hints);
    var sections, facts := SectionsOf(ms, hints), FactsOf(RequiredText(ms));
    LaidHasHeadings(MARKER, sections, KeyLines(facts, sections.previews, limit));
    forall t | InSomeList(facts, t) ensures t in Units(s) {
      var us := Units(RequiredText(ms));
      FirstOccurrencesComplete(us, Path);
      FirstOccurrencesComplete(us, Number);
      FirstOccurrencesComplete(us, Name);
      RequiredUnits(ms, t);
      var m :| m in ms && Carries(m) && t in Units(m.content);
      BuiltSummaryKeepsFacts(ms, limit, hints, m, t);
    }
    NothingMissing(facts.paths, Units(s));
    NothingMissing(facts.numbers, Units(s));
    NothingMissing(facts.names, Units(s));
  }
}
