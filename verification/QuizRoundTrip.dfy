/** Extraction undoes rendering
    (src/application/education/quiz_engine.py, lines 48-92 and 146-166). */
module QuizRoundTrip {
  import opened Texts
  import opened QuizNote

  /** A line that is no prompt, no quiz heading, and one line. */
  predicate Inert(line: string) {
    ParsePrompt(line).None? && !IsQuizHeading(line) && '\n' !in line
  }

  predicate OneLine(line: string) {
    !IsQuizHeading(line) && '\n' !in line
  }

  // ---------------------------------------------------------------- the lines of a note

  /** A line that opens with one of "#>" and a space. */
  predicate Marked(line: string) {
    |line| > 1 && line[0] in "#>" && line[1] == ' '
  }

  lemma {:induction false} MarkedIsInert(line: string)
    requires '\n' !in line && (line == "" || Marked(line))
    ensures Inert(line)
  {
  }

  lemma {:induction false} RuleIsInert()
    ensures Inert("---")
  {
    assert "---"[1..] == "--";
  }

  /** A level-two heading that does not start with a Q. */
  lemma {:induction false} OtherHeading(line: string)
    requires |line| > 3 && line[0] == '#' && line[2] == ' ' && !IsSpace(line[3]) && UpperChar(line[3]) != 'Q'
    requires '\n' !in line
    ensures Inert(line)
  {
    assert line[2..] == [' '] + line[3..];
    SkipOne(' ', line[3..], Spaces);
    StripEndIsPrefix(line[3..], Spaces);
  }

  lemma {:induction false} SectionHeadingIsInert()
    ensures Inert(QUESTIONS)
  {
    OtherHeading(QUESTIONS);
  }

  lemma {:induction false} TitleLine(title: string)
    requires '\n' !in title
    ensures Inert("# Quiz: " + title)
  {
    MarkedIsInert("# Quiz: " + title);
  }

  lemma {:induction false} TopicLine(title: string)
    requires '\n' !in title
    ensures Inert(TOPIC + title)
  {
    MarkedIsInert(TOPIC + title);
  }

  lemma {:induction false} SourceLine(path: string)
    requires '\n' !in path
    ensures Inert(SOURCE + path + UNEDITED)
  {
    assert '\n' !in SOURCE && '\n' !in UNEDITED;
    MarkedIsInert(SOURCE + path + UNEDITED);
  }

  lemma {:induction false} PhaseLine()
    ensures Inert(PHASE)
  {
    var mark, name := "> **Pedagogy Phase:** ", "Retrieval Practice (Active Recall)";
    assert '\n' !in mark && '\n' !in name && PHASE == mark + name;
    MarkedIsInert(PHASE);
  }

  lemma {:induction false} HeaderLineIsInert(title: string, path: string, k: nat)
    requires '\n' !in title && '\n' !in path && k < 9
    ensures Inert(HeaderLines(title, path)[k])
  {
    if k < 4 {
      HeaderTopIsInert(title, path, k);
    } else {
      HeaderEndIsInert(title, path, k);
    }
  }

  lemma {:induction false} HeaderTopIsInert(title: string, path: string, k: nat)
    requires '\n' !in title && '\n' !in path && k < 4
    ensures Inert(HeaderLines(title, path)[k])
  {
    match k
    case 0 => TitleLine(title);
    case 1 => MarkedIsInert("");
    case 2 => TopicLine(title);
    case 3 => SourceLine(path);
  }

  lemma {:induction false} HeaderEndIsInert(title: string, path: string, k: nat)
    requires 4 <= k < 9
    ensures Inert(HeaderLines(title, path)[k])
  {
    match k
    case 4 => PhaseLine();
    case 6 => RuleIsInert();
    case 8 => SectionHeadingIsInert();
    case _ => MarkedIsInert("");
  }

  predicate AllInert(lines: seq<string>) {
    forall k :: 0 <= k < |lines| ==> Inert(lines[k])
  }

  lemma {:induction false} HeaderIsInert(title: string, path: string)
    requires '\n' !in title && '\n' !in path
    ensures AllInert(HeaderLines(title, path))
    ensures var h := HeaderLines(title, path); |h| == 9 && Trimmed(h[8])
  {
    forall k: nat | k < 9 ensures Inert(HeaderLines(title, path)[k]) {
      HeaderLineIsInert(title, path, k);
    }
  }

  lemma {:induction false} DecimalIsOneLine(n: nat)
    ensures '\n' !in Decimal(n)
    decreases n
  {
    if n >= 10 {
      DecimalIsOneLine(n / 10);
    }
  }

  lemma {:induction false} ItemHeadingIsInert(n: nat)
    ensures Inert("### Item " + Decimal(n))
  {
    DecimalIsOneLine(n);
    var line := "### Item " + Decimal(n);
    assert line[2] == '#' && SkipSpaces(line[2..]) == line[2..];
  }

  predicate AllValues(items: seq<Item>) {
    forall k :: 0 <= k < |items| ==> IsValue(items[k].prompt) && IsValue(items[k].answer)
  }

  predicate AllOneLine(lines: seq<string>) {
    forall k :: 0 <= k < |lines| ==> OneLine(lines[k])
  }

  lemma {:induction false} BulletIsOneLine(mark: string, value: string)
    requires mark != "" && mark[0] == '-' && '\n' !in mark && '\n' !in value
    ensures OneLine(mark + value)
  {
    assert (mark + value)[0] == '-';
  }

  lemma {:induction false} OneItemIsLines(n: nat, item: Item)
    requires '\n' !in item.prompt && '\n' !in item.answer
    ensures AllOneLine(OneItem(n, item))
  {
    ItemHeadingIsInert(n);
    assert '\n' !in PROMPT && '\n' !in ANSWER;
    BulletIsOneLine(PROMPT, item.prompt);
    BulletIsOneLine(ANSWER, item.answer);
    MarkedIsInert("");
  }

  lemma {:induction false} ItemLinesAreOneLine(n: nat, items: seq<Item>)
    requires AllValues(items)
    ensures AllOneLine(ItemLines(n, items))
    decreases |items|
  {
    if items != [] {
      OneItemIsLines(n, items[0]);
      ItemLinesAreOneLine(n + 1, items[1..]);
      AppendLines(OneItem(n, items[0]), ItemLines(n + 1, items[1..]));
    }
  }

  lemma {:induction false} AppendLines(a: seq<string>, b: seq<string>)
    requires AllOneLine(a) && AllOneLine(b)
    ensures AllOneLine(a + b)
  {
    forall k | 0 <= k < |a + b| ensures OneLine((a + b)[k]) {
      assert (a + b)[k] == if k < |a| then a[k] else b[k - |a|];
    }
  }

  // ---------------------------------------------------------------- the text is those lines

  /** Stripping the end and adding a line feed only normalises the end of the note. */
  lemma {:induction false} NoteIsJoin(lines: seq<string>)
    requires lines != [] && Trimmed(lines[|lines| - 1])
    ensures NoteText(lines) == Join("\n", lines + [""])
    ensures NoteText(lines + [""]) == Join("\n", lines + [""])
  {
    var text := Join("\n", lines);
    JoinOfConcat("\n", lines, [""]);
    assert Join("\n", lines + [""]) == text + "\n";
    LastOfJoin(lines);
    assert (text + "\n")[..|text|] == text;
  }

  lemma {:induction false} LastOfJoin(lines: seq<string>)
    requires lines != [] && Trimmed(lines[|lines| - 1])
    ensures var text := Join("\n", lines); text != "" && !IsSpace(text[|text| - 1])
  {
    if |lines| > 1 {
      LastOfJoin(lines[1..]);
    }
  }

  /** The lines end with a trimmed line and an empty one. */
  predicate EndsWell(ls: seq<string>) {
    |ls| >= 4 && ls[|ls| - 1] == "" && Trimmed(ls[|ls| - 2])
  }

  lemma {:induction false} OneItemEnds(n: nat, item: Item)
    requires IsValue(item.answer)
    ensures EndsWell(OneItem(n, item))
  {
    ValueIsTrimmed(item.answer);
    var line := ANSWER + item.answer;
    assert line[0] == '-' && line[|line| - 1] == item.answer[|item.answer| - 1];
  }

  lemma {:induction false} EndsWellAfter(a: seq<string>, b: seq<string>)
    requires EndsWell(b)
    ensures EndsWell(a + b)
  {
  }

  /** The lines of the items end with the last answer and an empty line. */
  lemma {:induction false} ItemLinesEnd(n: nat, items: seq<Item>)
    requires items != [] && AllValues(items)
    ensures EndsWell(ItemLines(n, items))
    decreases |items|
  {
    if |items| == 1 {
      OneItemEnds(n, items[0]);
      assert ItemLines(n, items) == OneItem(n, items[0]) + [] == OneItem(n, items[0]);
    } else {
      ItemLinesEnd(n + 1, items[1..]);
      EndsWellAfter(OneItem(n, items[0]), ItemLines(n + 1, items[1..]));
    }
  }

  lemma {:induction false} NoteLines(title: string, path: string, items: seq<Item>)
    requires '\n' !in title && '\n' !in path && AllValues(items)
    ensures var lines := HeaderLines(title, path) + ItemLines(1, items);
      AllOneLine(lines) && SplitNewlines(NoteText(lines)) == if items == [] then lines + [""] else lines
  {
    HeaderIsInert(title, path);
    ItemLinesAreOneLine(1, items);
    if items != [] {
      ItemLinesEnd(1, items);
    }
    LinesComeBack(HeaderLines(title, path), ItemLines(1, items));
  }

  lemma {:induction false} LinesComeBack(header: seq<string>, body: seq<string>)
    requires header != [] && AllOneLine(header) && Trimmed(header[|header| - 1])
    requires AllOneLine(body) && (body == [] || EndsWell(body))
    ensures AllOneLine(header + body)
    ensures SplitNewlines(NoteText(header + body)) == if body == [] then header + body + [""] else header + body
  {
    AppendLines(header, body);
    var lines := header + body;
    if body == [] {
      assert lines == header;
      NoteIsJoin(lines);
      SplitOfJoin(lines + [""]);
    } else {
      EndsWellAfter(header, body);
      var front := lines[..|lines| - 1];
      assert lines == front + [""];
      NoteIsJoin(front);
      SplitOfJoin(lines);
    }
  }

  // ---------------------------------------------------------------- reading the lines

  lemma {:induction false} NoQuizHeading(lines: seq<string>, i: nat)
    requires i <= |lines| && AllOneLine(lines)
    ensures NextHeading(lines, i, true) == |lines|
    decreases |lines| - i
  {
    if i < |lines| {
      NoQuizHeading(lines, i + 1);
    }
  }

  lemma {:induction false} NoItemAt(lines: seq<string>, k: nat)
    requires k < |lines| && Inert(lines[k])
    ensures ItemAt(lines, k).None?
  {
  }

  lemma {:induction false} SameThroughout(f: nat -> seq<Item>, i: nat, j: nat)
    requires i <= j && forall k :: i <= k < j ==> f(k) == f(k + 1)
    ensures f(i) == f(j)
    decreases j - i
  {
    if i < j {
      SameThroughout(f, i + 1, j);
    }
  }

  lemma {:induction false} SkipLine(lines: seq<string>, i: nat, seen: set<string>)
    requires i < |lines| && ItemAt(lines, i).None?
    ensures ItemsFrom(lines, i, seen) == ItemsFrom(lines, i + 1, seen)
  {
  }

  lemma {:induction false} SkipInert(lines: seq<string>, i: nat, j: nat, seen: set<string>)
    requires i <= j <= |lines| && forall k :: i <= k < j ==> Inert(lines[k])
    ensures ItemsFrom(lines, i, seen) == ItemsFrom(lines, j, seen)
  {
    var from := (k: nat) => if k <= |lines| then ItemsFrom(lines, k, seen) else [];
    forall k: nat | i <= k < j ensures from(k) == from(k + 1) {
      NoItemAt(lines, k);
      SkipLine(lines, k, seen);
    }
    SameThroughout(from, i, j);
  }

  lemma {:induction false} ReadsOne(lines: seq<string>, i: nat, item: Item)
    requires i + 1 < |lines| && lines[i] == PROMPT + item.prompt && lines[i + 1] == ANSWER + item.answer
    requires IsValue(item.prompt) && IsValue(item.answer)
    ensures ItemAt(lines, i) == Some((item, i + 2))
  {
    PromptReadsBack(item.prompt);
    AnswerReadsBack(item.answer);
    assert lines[i + 1][0] == '-' && lines[i + 1][0] in lines[i + 1];
    assert FirstNonBlank(lines, i + 1) == i + 1;
  }

  /** Prompts differ from each other and from those seen before. */
  predicate FreshPrompts(items: seq<Item>, seen: set<string>) {
    items == [] || (items[0].prompt !in seen && FreshPrompts(items[1..], seen + {items[0].prompt}))
  }

  predicate DistinctPrompts(items: seq<Item>) {
    forall i, j :: 0 <= i < j < |items| ==> items[i].prompt != items[j].prompt
  }

  lemma {:induction false} DistinctAreFresh(items: seq<Item>, seen: set<string>)
    requires DistinctPrompts(items) && forall item <- items :: item.prompt !in seen
    ensures FreshPrompts(items, seen)
    decreases |items|
  {
    if items != [] {
      forall item <- items[1..] ensures item.prompt !in seen + {items[0].prompt} {
        var k :| 0 <= k < |items[1..]| && items[1..][k] == item;
        assert items[k + 1] == item && item in items;
      }
      DistinctAreFresh(items[1..], seen + {items[0].prompt});
    }
  }

  /** The four lines of an item give that item and leave the rest. */
  lemma {:induction false} ReadsItem(lines: seq<string>, i: nat, n: nat, item: Item, seen: set<string>)
    requires i + 4 <= |lines| && lines[i..i + 4] == OneItem(n, item)
    requires IsValue(item.prompt) && IsValue(item.answer) && item.prompt !in seen
    ensures ItemsFrom(lines, i, seen) == [item] + ItemsFrom(lines, i + 4, seen + {item.prompt})
  {
    ItemHeadingIsInert(n);
    MarkedIsInert("");
    FourLines(lines, i, OneItem(n, item));
    NoItemAt(lines, i);
    NoItemAt(lines, i + 3);
    ReadsOne(lines, i + 1, item);
    AroundItem(lines, i, item, seen);
  }

  lemma {:induction false} FourLines(lines: seq<string>, i: nat, four: seq<string>)
    requires i + 4 <= |lines| && |four| == 4 && lines[i..i + 4] == four
    ensures lines[i] == four[0] && lines[i + 1] == four[1] && lines[i + 2] == four[2] && lines[i + 3] == four[3]
  {
    var s := lines[i..i + 4];
    assert s[0] == lines[i] && s[1] == lines[i + 1] && s[2] == lines[i + 2] && s[3] == lines[i + 3];
  }

  lemma {:induction false} AroundItem(lines: seq<string>, i: nat, item: Item, seen: set<string>)
    requires i + 4 <= |lines| && ItemAt(lines, i).None? && ItemAt(lines, i + 3).None?
    requires ItemAt(lines, i + 1) == Some((item, i + 3)) && Takes(item, seen)
    ensures ItemsFrom(lines, i, seen) == [item] + ItemsFrom(lines, i + 4, seen + {item.prompt})
  {
    SkipLine(lines, i, seen);
    TakesIt(lines, i + 1, item, seen);
    SkipLine(lines, i + 3, seen + {item.prompt});
  }

  lemma {:induction false} TakesIt(lines: seq<string>, i: nat, item: Item, seen: set<string>)
    requires i + 2 <= |lines| && ItemAt(lines, i) == Some((item, i + 2)) && Takes(item, seen)
    ensures ItemsFrom(lines, i, seen) == [item] + ItemsFrom(lines, i + 2, seen + {item.prompt})
  {
  }

  /** Where the lines of the items, or one empty line, are left. */
  predicate LeftAt(lines: seq<string>, i: nat, n: nat, items: seq<Item>) {
    i <= |lines| && (lines[i..] == ItemLines(n, items) || (items == [] && lines[i..] == [""]))
  }

  lemma {:induction false} LeftAfterItem(lines: seq<string>, i: nat, n: nat, items: seq<Item>)
    requires items != [] && LeftAt(lines, i, n, items)
    ensures i + 4 <= |lines| && lines[i..i + 4] == OneItem(n, items[0])
    ensures LeftAt(lines, i + 4, n + 1, items[1..])
  {
    var tail, four, rest := lines[i..], OneItem(n, items[0]), ItemLines(n + 1, items[1..]);
    assert |four| == 4 && tail == four + rest;
    assert tail[..4] == four && tail[4..] == rest;
    assert lines[i..i + 4] == tail[..4] && lines[i + 4..] == tail[4..];
  }

  lemma {:induction false} TailValues(items: seq<Item>)
    requires items != [] && AllValues(items)
    ensures AllValues(items[1..]) && IsValue(items[0].prompt) && IsValue(items[0].answer)
  {
  }

  lemma {:induction false} ReadsAll(lines: seq<string>, i: nat, n: nat, items: seq<Item>, seen: set<string>)
    requires LeftAt(lines, i, n, items) && AllValues(items) && FreshPrompts(items, seen)
    ensures ItemsFrom(lines, i, seen) == items
    decreases |items|
  {
    if items == [] {
      ReadsEnd(lines, i, seen);
    } else {
      LeftAfterItem(lines, i, n, items);
      TailValues(items);
      ReadsAll(lines, i + 4, n + 1, items[1..], seen + {items[0].prompt});
      ReadsMore(lines, i, n, items, seen);
    }
  }

  lemma {:induction false} ReadsMore(lines: seq<string>, i: nat, n: nat, items: seq<Item>, seen: set<string>)
    requires items != [] && i + 4 <= |lines| && lines[i..i + 4] == OneItem(n, items[0])
    requires IsValue(items[0].prompt) && IsValue(items[0].answer) && items[0].prompt !in seen
    requires ItemsFrom(lines, i + 4, seen + {items[0].prompt}) == items[1..]
    ensures ItemsFrom(lines, i, seen) == items
  {
    ReadsItem(lines, i, n, items[0], seen);
    Prepended(ItemsFrom(lines, i, seen), ItemsFrom(lines, i + 4, seen + {items[0].prompt}), items);
  }

  lemma {:induction false} Prepended(all: seq<Item>, rest: seq<Item>, items: seq<Item>)
    requires items != [] && all == [items[0]] + rest && rest == items[1..]
    ensures all == items
  {
  }

  lemma {:induction false} ReadsEnd(lines: seq<string>, i: nat, seen: set<string>)
    requires i <= |lines| && (lines[i..] == [] || lines[i..] == [""])
    ensures ItemsFrom(lines, i, seen) == []
  {
    if i < |lines| {
      assert lines[i] == lines[i..][0];
      MarkedIsInert("");
      NoItemAt(lines, i);
      SkipLine(lines, i, seen);
    }
  }

  // ---------------------------------------------------------------- no inline or bullet items

  /** A line that opens no such item, whatever follows it. */
  predicate NoQuestionLine(line: string) {
    line == "" || line[0] !in "-*" || (SkipSpaces(line[1..]) != "" && UpperChar(SkipSpaces(line[1..])[0]) != 'Q')
  }

  lemma {:induction false} SkipInFront(s: string, rest: string)
    requires SkipSpaces(s) != ""
    ensures SkipSpaces(s + rest) == SkipSpaces(s) + rest
  {
    if IsSpace(s[0]) {
      assert (s + rest)[1..] == s[1..] + rest;
      SkipInFront(s[1..], rest);
    }
  }

  lemma {:induction false} OpensNothing(lines: seq<string>, m: nat)
    requires m < |lines| && NoQuestionLine(lines[m])
    ensures !OpensQuestion(lines, m)
  {
    if lines[m] != "" && lines[m][0] in "-*" {
      SkipInFront(lines[m][1..], Following(lines, m + 1));
      NotTheWord(SkipSpaces(lines[m][1..]), Following(lines, m + 1));
    }
  }

  lemma {:induction false} NotTheWord(s: string, rest: string)
    requires s != "" && UpperChar(s[0]) != 'Q'
    ensures AfterWord(s + rest, "Q:").None?
  {
    assert (s + rest)[0] == s[0] && UpperChar("Q:"[0]) == 'Q';
  }

  lemma {:induction false} StarredLine(mark: string, value: string)
    requires |mark| > 2 && mark[0] == '-' && mark[1] == ' ' && mark[2] == '*'
    ensures NoQuestionLine(mark + value)
  {
    var rest := (mark + value)[2..];
    assert (mark + value)[1..] == [' '] + rest && rest[0] == '*';
    SkipOne(' ', rest, Spaces);
    assert StripStart(rest, Spaces) == rest;
  }

  lemma {:induction false} HeaderHasNoQuestion(title: string, path: string, k: nat)
    requires k < 9
    ensures NoQuestionLine(HeaderLines(title, path)[k])
  {
    var line := HeaderLines(title, path)[k];
    if k == 6 {
      assert line == "---" && line[1..] == "--" && StripStart("--", Spaces) == "--";
    } else if line != "" {
      assert line[0] == '#' || line[0] == '>';
    }
  }

  predicate NoQuestionLines(lines: seq<string>) {
    forall k :: 0 <= k < |lines| ==> NoQuestionLine(lines[k])
  }

  lemma {:induction false} ItemHasNoQuestion(n: nat, item: Item)
    ensures NoQuestionLines(OneItem(n, item))
  {
    StarredLine(PROMPT, item.prompt);
    StarredLine(ANSWER, item.answer);
    assert ("### Item " + Decimal(n))[0] == '#';
  }

  lemma {:induction false} AppendNoQuestion(a: seq<string>, b: seq<string>)
    requires NoQuestionLines(a) && NoQuestionLines(b)
    ensures NoQuestionLines(a + b)
  {
    forall k | 0 <= k < |a + b| ensures NoQuestionLine((a + b)[k]) {
      assert (a + b)[k] == if k < |a| then a[k] else b[k - |a|];
    }
  }

  lemma {:induction false} ItemsHaveNoQuestion(n: nat, items: seq<Item>)
    ensures NoQuestionLines(ItemLines(n, items))
    decreases |items|
  {
    if items != [] {
      ItemHasNoQuestion(n, items[0]);
      ItemsHaveNoQuestion(n + 1, items[1..]);
      AppendNoQuestion(OneItem(n, items[0]), ItemLines(n + 1, items[1..]));
    }
  }

  /** Neither the inline nor the bullet expression matches anything in a rendered note. */
  lemma {:induction false} RenderedHasNoQuestion(title: string, path: string, items: seq<Item>)
    requires '\n' !in title && '\n' !in path && AllValues(items)
    ensures NoQuestions(SplitNewlines(NoteText(HeaderLines(title, path) + ItemLines(1, items))))
  {
    var header, body := HeaderLines(title, path), ItemLines(1, items);
    NoteLines(title, path, items);
    forall k: nat | k < 9 ensures NoQuestionLine(header[k]) {
      HeaderHasNoQuestion(title, path, k);
    }
    ItemsHaveNoQuestion(1, items);
    AppendNoQuestion(header, body);
    AppendNoQuestion(header + body, [""]);
    AllOpenNothing(SplitNewlines(NoteText(header + body)));
  }

  lemma {:induction false} AllOpenNothing(lines: seq<string>)
    requires NoQuestionLines(lines)
    ensures NoQuestions(lines)
  {
    forall m: nat | m < |lines| ensures !OpensQuestion(lines, m) {
      OpensNothing(lines, m);
    }
  }

  // ---------------------------------------------------------------- the round trip

  /** For every list of items with distinct prompts whose prompts and answers are single-line,
      single-spaced, not empty and not placeholders, and every single-line title and source
      path: extracting from the rendered note gives back exactly those items in order, and the
      inline and bullet expressions add nothing. */
  lemma {:induction false} ExtractUndoesRender(title: string, path: string, items: seq<Item>, forms: Forms)
    requires '\n' !in title && '\n' !in path
    requires AllValues(items) && DistinctPrompts(items) && NeedQuestions(forms)
    ensures Extracted(NoteText(HeaderLines(title, path) + ItemLines(1, items)), forms) == items
  {
    var lines := SplitNewlines(NoteText(HeaderLines(title, path) + ItemLines(1, items)));
    RenderedLines(title, path, items);
    NoQuizHeading(lines, 0);
    RenderedHasNoQuestion(title, path, items);
    OnlyTemplate(lines, forms);
    ReadsAfterHeader(lines, 9, items);
  }

  lemma {:induction false} RenderedLines(title: string, path: string, items: seq<Item>)
    requires '\n' !in title && '\n' !in path && AllValues(items)
    ensures var lines := SplitNewlines(NoteText(HeaderLines(title, path) + ItemLines(1, items)));
      && AllOneLine(lines) && LeftAt(lines, 9, 1, items)
      && forall k :: 0 <= k < 9 ==> Inert(lines[k])
  {
    var header := HeaderLines(title, path);
    NoteLines(title, path, items);
    HeaderIsInert(title, path);
    LinesAfterHeader(header, ItemLines(1, items), SplitNewlines(NoteText(header + ItemLines(1, items))));
  }

  lemma {:induction false} OnlyTemplate(lines: seq<string>, forms: Forms)
    requires NoQuestions(lines) && NeedQuestions(forms)
    ensures Taken(forms(lines), {}) + ItemsFrom(lines, 0, SeenAfter(forms(lines), {})) == ItemsFrom(lines, 0, {})
  {
    assert forms(lines) == [];
    assert [] + ItemsFrom(lines, 0, {}) == ItemsFrom(lines, 0, {});
  }

  lemma {:induction false} ReadsAfterHeader(lines: seq<string>, h: nat, items: seq<Item>)
    requires AllOneLine(lines) && h <= |lines| && forall k :: 0 <= k < h ==> Inert(lines[k])
    requires LeftAt(lines, h, 1, items) && AllValues(items) && DistinctPrompts(items)
    ensures ItemsFrom(lines, 0, {}) == items
  {
    SkipInert(lines, 0, h, {});
    DistinctAreFresh(items, {});
    ReadsAll(lines, h, 1, items, {});
  }

  lemma {:induction false} LinesAfterHeader(header: seq<string>, body: seq<string>, lines: seq<string>)
    requires AllOneLine(header + body)
    requires lines == if body == [] then header + body + [""] else header + body
    ensures AllOneLine(lines) && |header| <= |lines|
    ensures forall k :: 0 <= k < |header| ==> lines[k] == header[k]
    ensures lines[|header|..] == if body == [] then [""] else body
  {
    assert OneLine("");
  }
}
