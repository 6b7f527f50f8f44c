/** What stands where in a built summary, said of the messages
    (src/application/kernel/compaction_verifier.py, lines 231-286). */
module SummarySections {
  import opened Texts
  import opened Chat
  import opened KeyTokens
  import opened SummaryFacts
  import opened SummaryCheck

  /** The first 120 characters of a line, and three dots when it is longer. */
  function Shown(line: string): string {
    if |line| <= 120 then line else line[..120] + "..."
  }

  function HintedLine(m: Message, hint: string -> bool): seq<string> {
    var line := RawLine(m);
    if m.role == User && line != "" && hint(line) then ["- " + Shown(line)] else []
  }

  function SpokenLine(m: Message): seq<string> {
    var line := RawLine(m);
    if line != "" then ["- " + RoleLabel(m.role) + ": " + Shown(line)] else []
  }

  /** The lines of the user messages to which a hint applies, in order; blank ones are left out. */
  function HintedLines(ms: seq<Message>, hint: string -> bool): seq<string> {
    if ms == [] then [] else HintedLine(ms[0], hint) + HintedLines(ms[1..], hint)
  }

  /** The lines of all messages that are not blank, each with its speaker, in order. */
  function SpokenLines(ms: seq<Message>): seq<string> {
    if ms == [] then [] else SpokenLine(ms[0]) + SpokenLines(ms[1..])
  }

  function FirstThree(lines: seq<string>): seq<string> {
    if |lines| <= 3 then lines else lines[..3]
  }

  /** The last n lines. */
  function LastLines(lines: seq<string>, n: nat): seq<string> {
    if |lines| <= n then lines else lines[|lines| - n..]
  }

  // ---------------------------------------------------------------- the three lists

  lemma {:induction false} HintedOneMore(ms: seq<Message>, m: Message, hint: string -> bool)
    ensures HintedLines(ms + [m], hint) == HintedLines(ms, hint) + HintedLine(m, hint)
  {
    if ms == [] {
      assert ms + [m] == [m] && [m][1..] == [];
      assert HintedLines([m], hint) == HintedLine(m, hint) + [];
    } else {
      assert (ms + [m])[1..] == ms[1..] + [m];
      HintedOneMore(ms[1..], m, hint);
      Regroup(HintedLine(ms[0], hint), HintedLines(ms[1..], hint), HintedLine(m, hint));
    }
  }

  lemma {:induction false} SpokenOneMore(ms: seq<Message>, m: Message)
    ensures SpokenLines(ms + [m]) == SpokenLines(ms) + SpokenLine(m)
  {
    if ms == [] {
      assert ms + [m] == [m] && [m][1..] == [];
      assert SpokenLines([m]) == SpokenLine(m) + [];
    } else {
      assert (ms + [m])[1..] == ms[1..] + [m];
      SpokenOneMore(ms[1..], m);
      Regroup(SpokenLine(ms[0]), SpokenLines(ms[1..]), SpokenLine(m));
    }
  }

  lemma Regroup(a: seq<string>, b: seq<string>, c: seq<string>)
    ensures a + (b + c) == a + b + c
  {
  }

  lemma {:induction false} ThreeOneMore(lines: seq<string>, more: seq<string>)
    requires |more| <= 1
    ensures FirstThree(lines + more) == FirstThree(lines) + if |FirstThree(lines)| < 3 then more else []
  {
  }

  /** Under decisions and under tasks stand the first three lines to which the hint applies, and
      every line is previewed. */
  lemma {:induction false} SectionsAre(ms: seq<Message>, hints: Hints)
    ensures var s := SectionsOf(ms, hints);
      && s.decisions == FirstThree(HintedLines(ms, hints.decision))
      && s.tasks == FirstThree(HintedLines(ms, hints.task))
      && s.previews == SpokenLines(ms)
  {
    if ms != [] {
      var front, m := ms[..|ms| - 1], ms[|ms| - 1];
      assert ms == front + [m];
      SectionsAre(front, hints);
      HintedOneMore(front, m, hints.decision);
      HintedOneMore(front, m, hints.task);
      SpokenOneMore(front, m);
      ThreeOneMore(HintedLines(front, hints.decision), HintedLine(m, hints.decision));
      ThreeOneMore(HintedLines(front, hints.task), HintedLine(m, hints.task));
      AddedLines(SectionsOf(front, hints), m, hints);
    }
  }

  lemma {:induction false} AddedLines(s: Sections, m: Message, hints: Hints)
    ensures var n := AddMessage(s, m, hints);
      && n.decisions == s.decisions + (if |s.decisions| < 3 then HintedLine(m, hints.decision) else [])
      && n.tasks == s.tasks + (if |s.tasks| < 3 then HintedLine(m, hints.task) else [])
      && n.previews == s.previews + SpokenLine(m)
  {
  }

  // ---------------------------------------------------------------- the key facts

  /** The lines under the key facts: the facts that there are, how many messages were left out,
      and the last lines. */
  lemma {:induction false} KeyLinesAre(facts: KeyFacts, previews: seq<string>, limit: int)
    ensures var n: nat := if limit < 1 then 1 else limit;
      KeyLines(facts, previews, limit) ==
        (if facts.paths == [] then [] else ["- Paths: " + Join(", ", facts.paths)])
        + (if facts.numbers == [] then [] else ["- Numbers/dates: " + Join(", ", facts.numbers)])
        + (if facts.names == [] then [] else ["- Identifiers: " + Join(", ", facts.names)])
        + (if |previews| <= n then [] else ["... (" + Decimal(|previews| - n) + " older messages omitted)"])
        + LastLines(previews, n)
  {
  }

  /** The whole text: decisions, open tasks and key facts under their own headings. */
  lemma {:induction false} SummaryReads(ms: seq<Message>, limit: int, hints: Hints)
    ensures BuildSummary(ms, limit, hints) ==
      "[Summary of earlier conversation:" + "\n"
      + ("Decisions" + "\n" + (Join("\n", OrNone(FirstThree(HintedLines(ms, hints.decision)))) + "\n"
      + ("Open tasks" + "\n" + (Join("\n", OrNone(FirstThree(HintedLines(ms, hints.task)))) + "\n"
      + ("Key facts" + "\n"
         + (Join("\n", KeyLines(FactsOf(RequiredText(ms)), SpokenLines(ms), limit)) + "]"))))))
  {
    SectionsAre(ms, hints);
  }

  // ---------------------------------------------------------------- one message

  /** A line without surrounding white space, line feeds and special characters is shown as it
      is. */
  lemma {:induction false} PlainLineIsRaw(role: Role, line: string)
    requires Ascii(line) && '\n' !in line && line != "" && !IsSpace(line[0]) && !IsSpace(line[|line| - 1])
    ensures RawLine(Plain(role, line)) == line
  {
    NormalizeAscii(line);
    assert NewlinesToSpaces(line) == line;
    assert StripStart(line, Spaces) == line && StripEnd(line, Spaces) == line;
  }

  /** Two such lines are shown as one, a space between them. */
  lemma {:induction false} LineFeedIsSpace(role: Role, a: string, b: string)
    requires Ascii(a) && Ascii(b) && '\n' !in a && '\n' !in b && a != "" && b != ""
    requires !IsSpace(a[0]) && !IsSpace(b[|b| - 1])
    ensures RawLine(Plain(role, a + "\n" + b)) == a + " " + b
  {
    var line := a + "\n" + b;
    NormalizeAscii(line);
    assert NewlinesToSpaces(line) == a + " " + b;
    assert (a + " " + b)[0] == a[0] && (a + " " + b)[|a| + |b|] == b[|b| - 1];
  }

  /** For example: what the user decided stands under decisions, what is to do under the open
      tasks, and both messages are previewed. */
  lemma {:induction false} DecisionAndTask(decided: string, todo: string, hints: Hints)
    requires RawLine(Plain(User, decided)) == decided && 0 < |decided| <= 120
    requires RawLine(Plain(User, todo)) == todo && 0 < |todo| <= 120
    requires hints.decision(decided) && !hints.task(decided) && hints.task(todo) && !hints.decision(todo)
    ensures var s := SectionsOf([Plain(User, decided), Plain(User, todo)], hints);
      && s.decisions == ["- " + decided] && s.tasks == ["- " + todo]
      && s.previews == ["- User: " + decided, "- User: " + todo]
  {
    var a, b := Plain(User, decided), Plain(User, todo);
    SectionsAre([a, b], hints);
    TwoHinted(a, b, hints.decision);
    TwoHinted(a, b, hints.task);
    TwoSpoken(a, b);
    LinesOfUser(decided);
    LinesOfUser(todo);
  }

  lemma {:induction false} TwoHinted(a: Message, b: Message, hint: string -> bool)
    ensures HintedLines([a, b], hint) == HintedLine(a, hint) + HintedLine(b, hint)
  {
    assert [a, b][1..] == [b] && [b][1..] == [] && HintedLines([b], hint) == HintedLine(b, hint) + [];
  }

  lemma {:induction false} TwoSpoken(a: Message, b: Message)
    ensures SpokenLines([a, b]) == SpokenLine(a) + SpokenLine(b)
  {
    assert [a, b][1..] == [b] && [b][1..] == [] && SpokenLines([b]) == SpokenLine(b) + [];
  }

  lemma {:induction false} LinesOfUser(text: string)
    requires RawLine(Plain(User, text)) == text && 0 < |text| <= 120
    ensures SpokenLine(Plain(User, text)) == ["- User: " + text]
  {
    assert "- " + "User" + ": " == "- User: ";
  }

  // ---------------------------------------------------------------- the text that a summary is measured by

  /** A run is measured as a transcript: a line for each message, with who speaks. */
  lemma {:induction false} TranscriptReads(text: string, output: string, name: string)
    requires !IsSummary(Plain(User, text)) && !IsSummary(Message(Tool, output, [], None, name))
    requires Ascii(text) && Ascii(output) && output != "" && !IsSpace(output[|output| - 1])
    ensures RenderOriginal([Plain(User, text), Message(Tool, output, [], None, name)])
      == "user: " + text + "\n" + ("tool " + name + ": " + output)
  {
    var a, b := Plain(User, text), Message(Tool, output, [], None, name);
    UserLine(text);
    ToolLine(output, name);
    TwoLines(a, b);
  }

  lemma {:induction false} TwoLines(a: Message, b: Message)
    ensures RenderOriginal([a, b]) == RenderLine(a) + "\n" + RenderLine(b)
  {
    var ms := [a, b];
    var lines := seq(|ms|, i requires 0 <= i < |ms| => RenderLine(ms[i]));
    assert lines == [RenderLine(a), RenderLine(b)] && lines[1..] == [RenderLine(b)];
    assert Join("\n", lines[1..]) == RenderLine(b);
  }

  lemma {:induction false} UserLine(text: string)
    requires !IsSummary(Plain(User, text)) && Ascii(text)
    ensures RenderLine(Plain(User, text)) == "user: " + text
  {
    NormalizeAscii(text);
    assert "user" + ": " == "user: ";
  }

  lemma {:induction false} ToolLine(output: string, name: string)
    requires !IsSummary(Message(Tool, output, [], None, name))
    requires Ascii(output) && output != "" && !IsSpace(output[|output| - 1])
    ensures RenderLine(Message(Tool, output, [], None, name)) == "tool " + name + ": " + output
  {
    var line := "tool " + name + ": " + output;
    NormalizeAscii(output);
    assert line[|line| - 1] == output[|output| - 1] && StripEnd(line, Spaces) == line;
  }

  /** An earlier summary is measured as one, whoever wrote it. */
  lemma {:induction false} SummaryLineReads(m: Message)
    requires MARKER <= m.content && Ascii(m.content)
    ensures RenderOriginal([m]) == "summary: " + m.content
  {
    NormalizeAscii(m.content);
    assert m.content[0] == '[' && StripStart(m.content, Spaces) == m.content;
    assert RenderOriginal([m]) == RenderLine(m);
  }
}
