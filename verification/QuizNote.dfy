/** Writing quiz items into a note and reading them back
    (src/application/education/quiz_engine.py, lines 18-92 and 146-166).

    The item expression of the template form is read as a line parser: a prompt line, any
    blank lines, then an answer line.  The inline and bullet expressions, which run first, are
    a parameter of which only the opening is used: a bullet, white space, "Q:". */
module QuizNote {
  import opened Texts

  datatype Item = Item(prompt: string, answer: string)

  // ---------------------------------------------------------------- rendering

  const TOPIC: string := "> **Topic:** "
  const PROMPT: string := "- **Prompt:** "
  const ANSWER: string := "- **Expected Binary Answer:** "
  const SOURCE: string := "> **Source note:** [["
  const UNEDITED: string := "]] (not edited; questions live here)"
  const PHASE: string := "> **Pedagogy Phase:** " + "Retrieval Practice (Active Recall)"
  const QUESTIONS: string := "## 1. Active Recall Questions"

  function HeaderLines(title: string, path: string): seq<string> {
    ["# Quiz: " + title, "", TOPIC + title, SOURCE + path + UNEDITED, PHASE, "", "---", "", QUESTIONS]
  }

  function OneItem(n: nat, item: Item): seq<string> {
    ["### Item " + Decimal(n), PROMPT + item.prompt, ANSWER + item.answer, ""]
  }

  /** The lines of the items, numbered from n. */
  function ItemLines(n: nat, items: seq<Item>): seq<string>
    decreases |items|
  {
    if items == [] then [] else OneItem(n, items[0]) + ItemLines(n + 1, items[1..])
  }

  function NoteText(lines: seq<string>): string {
    StripEnd(Join("\n", lines), Spaces) + "\n"
  }

  method RenderQuizNote(title: string, path: string, items: seq<Item>) returns (note: string)
    ensures note == NoteText(HeaderLines(title, path) + ItemLines(1, items))
  {
    var lines := HeaderLines(title, path);
    for k := 0 to |items|
      invariant lines + ItemLines(k + 1, items[k..]) == HeaderLines(title, path) + ItemLines(1, items)
    {
      assert items[k..][1..] == items[k + 1..];
      ghost var before, rest := lines, ItemLines(k + 2, items[k + 1..]);
      lines := lines + OneItem(k + 1, items[k]);
      assert before + (OneItem(k + 1, items[k]) + rest) == lines + rest;
    }
    assert lines + [] == lines;
    note := NoteText(lines);
  }

  // ---------------------------------------------------------------- reading

  /** s.split("\n") */
  function SplitNewlines(s: string): (lines: seq<string>)
    ensures lines != []
  {
    if s == "" then [""]
    else
      var rest := SplitNewlines(s[1..]);
      if s[0] == '\n' then [""] + rest else [[s[0]] + rest[0]] + rest[1..]
  }

  function UpperChar(c: char): char {
    if 'a' <= c <= 'z' then (c as int - 32) as char else c
  }

  /** What follows the word at the start of s, upper and lower case alike. */
  function AfterWord(s: string, word: string): Option<string> {
    if |word| <= |s| && forall i :: 0 <= i < |word| ==> UpperChar(s[i]) == UpperChar(word[i]) then Some(s[|word|..])
    else None
  }

  function SkipStars(s: string): string {
    StripStart(s, Chars("*"))
  }

  function SkipSpaces(s: string): string {
    StripStart(s, Spaces)
  }

  /** After the word: stars, a colon, stars, and a value that is not blank. */
  function ValueAfter(s: Option<string>): Option<string> {
    if s.None? then None
    else
      var t := SkipStars(s.value);
      if t == "" || t[0] != ':' then None
      else
        var v := Strip(SkipStars(t[1..]));
        if v == "" then None else Some(v)
  }

  /** The rest of a bullet line, past the bullet, spaces and stars. */
  function Bullet(line: string): Option<string> {
    if line == "" || line[0] !in "-*" then None else Some(SkipStars(SkipSpaces(line[1..])))
  }

  function ParsePrompt(line: string): Option<string> {
    match Bullet(line)
    case None => None
    case Some(s) => ValueAfter(AfterWord(s, "Prompt"))
  }

  /** "Answer" or "Binary Answer", each after at least one space. */
  function AfterAnswer(s: string): Option<string> {
    var t := SkipSpaces(s);
    if t == s then None
    else match AfterWord(t, "Binary")
      case None => AfterWord(t, "Answer")
      case Some(u) => if SkipSpaces(u) == u then None else AfterWord(SkipSpaces(u), "Answer")
  }

  function ParseAnswer(line: string): Option<string> {
    match Bullet(StripStart(line, Chars(" \t")))
    case None => None
    case Some(s) =>
      match AfterWord(s, "Expected")
      case None => None
      case Some(t) => ValueAfter(AfterAnswer(t))
  }

  /** A bracketed template hint. */
  predicate IsPlaceholder(s: string) {
    |s| >= 2 && s[0] == '[' && s[|s| - 1] == ']' && forall i :: 0 < i < |s| - 1 ==> s[i] != ']'
  }

  function Normalized(s: string): string {
    Join(" ", SplitWords(s))
  }

  predicate IsBlank(line: string) {
    forall c <- line :: IsSpace(c)
  }

  function FirstNonBlank(lines: seq<string>, i: nat): (k: nat)
    requires i <= |lines|
    ensures i <= k <= |lines|
    decreases |lines| - i
  {
    if i == |lines| || !IsBlank(lines[i]) then i else FirstNonBlank(lines, i + 1)
  }

  predicate Takes(item: Item, seen: set<string>) {
    item.prompt != "" && item.answer != "" && !IsPlaceholder(item.prompt) && !IsPlaceholder(item.answer)
    && item.prompt !in seen
  }

  /** The item whose prompt is line i, with the line after it; an item needs an answer on
      the next line that is not blank. */
  function ItemAt(lines: seq<string>, i: nat): (r: Option<(Item, nat)>)
    requires i < |lines|
    ensures r.Some? ==> i < r.value.1 <= |lines|
  {
    var q, k := ParsePrompt(lines[i]), FirstNonBlank(lines, i + 1);
    if q.None? || k == |lines| then None
    else match ParseAnswer(lines[k])
      case None => None
      case Some(a) => Some((Item(Normalized(q.value), Normalized(a)), k + 1))
  }

  /** The items from line i on; a prompt that was seen before is left out. */
  function ItemsFrom(lines: seq<string>, i: nat, seen: set<string>): seq<Item>
    requires i <= |lines|
    decreases |lines| - i
  {
    if i == |lines| then []
    else match ItemAt(lines, i)
      case None => ItemsFrom(lines, i + 1, seen)
      case Some((item, next)) =>
        if Takes(item, seen) then [item] + ItemsFrom(lines, next, seen + {item.prompt})
        else ItemsFrom(lines, next, seen)
  }

  /** A level-two heading, and the one that names the quiz section. */
  predicate IsHeading(line: string) {
    "##" <= line && SkipSpaces(line[2..]) != line[2..] && SkipSpaces(line[2..]) != ""
  }

  predicate IsQuizHeading(line: string) {
    IsHeading(line) && AfterWord(Strip(line[2..]), "Quiz") == Some("")
  }

  /** The first line from i on that is a quiz heading (or any level-two heading). */
  function NextHeading(lines: seq<string>, i: nat, quiz: bool): (k: nat)
    requires i <= |lines|
    ensures i <= k <= |lines|
    decreases |lines| - i
  {
    if i == |lines| || (if quiz then IsQuizHeading(lines[i]) else IsHeading(lines[i])) then i
    else NextHeading(lines, i + 1, quiz)
  }

  /** The lines under the quiz heading, or all lines when there is none. */
  function QuizSection(lines: seq<string>): seq<string> {
    var k := NextHeading(lines, 0, true);
    if k == |lines| then lines else lines[k + 1..NextHeading(lines, k + 1, false)]
  }

  // ---------------------------------------------------------------- the inline and bullet forms

  /** The text from line m on opens as an inline or bullet item does; its white space may run
      over line ends. */
  predicate OpensQuestion(lines: seq<string>, m: nat)
    requires m < |lines|
  {
    && lines[m] != "" && lines[m][0] in "-*"
    && AfterWord(SkipSpaces(lines[m][1..] + Following(lines, m + 1)), "Q:").Some?
  }

  /** The line ends and lines from line m on. */
  function Following(lines: seq<string>, m: nat): string
    requires m <= |lines|
    decreases |lines| - m
  {
    if m == |lines| then "" else "\n" + lines[m] + Following(lines, m + 1)
  }

  predicate NoQuestions(lines: seq<string>) {
    forall m :: 0 <= m < |lines| ==> !OpensQuestion(lines, m)
  }

  /** What the two expressions find in the lines of a section, in the order of their matches. */
  type Forms = seq<string> -> seq<Item>

  ghost predicate NeedQuestions(forms: Forms) {
    forall lines :: NoQuestions(lines) ==> forms(lines) == []
  }

  /** The found items that are taken, and the prompts seen after them. */
  function Taken(found: seq<Item>, seen: set<string>): seq<Item> {
    if found == [] then []
    else if Takes(found[0], seen) then [found[0]] + Taken(found[1..], seen + {found[0].prompt})
    else Taken(found[1..], seen)
  }

  function SeenAfter(found: seq<Item>, seen: set<string>): set<string> {
    if found == [] then seen
    else SeenAfter(found[1..], if Takes(found[0], seen) then seen + {found[0].prompt} else seen)
  }

  function Extracted(note: string, forms: Forms): seq<Item> {
    var lines := QuizSection(SplitNewlines(note));
    Taken(forms(lines), {}) + ItemsFrom(lines, 0, SeenAfter(forms(lines), {}))
  }

  method TakeFound(found: seq<Item>) returns (items: seq<Item>, seen: set<string>)
    ensures items == Taken(found, {}) && seen == SeenAfter(found, {})
  {
    items, seen := [], {};
    for k := 0 to |found|
      invariant items + Taken(found[k..], seen) == Taken(found, {})
      invariant SeenAfter(found[k..], seen) == SeenAfter(found, {})
    {
      assert found[k..][1..] == found[k + 1..];
      if Takes(found[k], seen) {
        Regroup(items, found[k], Taken(found[k + 1..], seen + {found[k].prompt}));
        items := items + [found[k]];
        seen := seen + {found[k].prompt};
      }
    }
    assert items + [] == items;
  }

  /** One step over the lines: what is taken, and where the reading goes on. */
  lemma {:induction false} OneStep(lines: seq<string>, i: nat, seen: set<string>)
    requires i < |lines|
    ensures match ItemAt(lines, i)
      case None => ItemsFrom(lines, i, seen) == ItemsFrom(lines, i + 1, seen)
      case Some((item, next)) =>
        ItemsFrom(lines, i, seen) ==
          (if Takes(item, seen) then [item] + ItemsFrom(lines, next, seen + {item.prompt})
           else ItemsFrom(lines, next, seen))
  {
  }

  method ExtractQuizItems(note: string, forms: Forms) returns (items: seq<Item>)
    ensures items == Extracted(note, forms)
  {
    var lines := QuizSection(SplitNewlines(note));
    var seen;
    items, seen := TakeFound(forms(lines));
    var rest := ReadTemplate(lines, seen);
    items := items + rest;
  }

  /** The matches of the template form, one after the other. */
  method ReadTemplate(lines: seq<string>, before: set<string>) returns (items: seq<Item>)
    ensures items == ItemsFrom(lines, 0, before)
  {
    var i: nat, seen := 0, before;
    items := [];
    while i < |lines|
      invariant i <= |lines|
      invariant items + ItemsFrom(lines, i, seen) == ItemsFrom(lines, 0, before)
      decreases |lines| - i
    {
      OneStep(lines, i, seen);
      var found := ItemAt(lines, i);
      if found.None? {
        i := i + 1;
        continue;
      }
      var item := found.value.0;
      i := found.value.1;
      if Takes(item, seen) {
        Regroup(items, item, ItemsFrom(lines, i, seen + {item.prompt}));
        items := items + [item];
        seen := seen + {item.prompt};
      }
    }
    assert items + [] == items;
  }

  lemma {:induction false} Regroup(items: seq<Item>, item: Item, rest: seq<Item>)
    ensures items + ([item] + rest) == items + [item] + rest
  {
  }

  // ---------------------------------------------------------------- lines come back as lines

  lemma {:induction false} SplitOfJoin(lines: seq<string>)
    requires lines != [] && forall l <- lines :: '\n' !in l
    ensures SplitNewlines(Join("\n", lines)) == lines
  {
    assert lines[0] in lines && forall l <- lines[1..] :: l in lines;
    if |lines| == 1 {
      OnlyLine(lines[0]);
      assert lines == [lines[0]];
    } else {
      SplitOfJoin(lines[1..]);
      FirstOfLines(lines[0], Join("\n", lines[1..]));
      assert lines == [lines[0]] + lines[1..];
    }
  }

  lemma {:induction false} OnlyLine(line: string)
    requires '\n' !in line
    ensures SplitNewlines(line) == [line]
  {
    SplitLine(line, "");
    assert line + "" == line;
  }

  lemma {:induction false} FirstOfLines(line: string, rest: string)
    requires '\n' !in line
    ensures SplitNewlines(line + "\n" + rest) == [line] + SplitNewlines(rest)
  {
    SplitLine(line, "\n" + rest);
    assert ("\n" + rest)[1..] == rest && line + "" == line;
    assert ([""] + SplitNewlines(rest))[1..] == SplitNewlines(rest);
    assert line + "\n" + rest == line + ("\n" + rest);
  }

  /** A line without line feeds goes to the front of the first line of what follows. */
  lemma {:induction false} SplitLine(line: string, rest: string)
    requires '\n' !in line
    ensures SplitNewlines(line + rest) == [line + SplitNewlines(rest)[0]] + SplitNewlines(rest)[1..]
  {
    var after := SplitNewlines(rest);
    if line == "" {
      assert line + rest == rest && line + after[0] == after[0] && [after[0]] + after[1..] == after;
    } else {
      assert (line + rest)[1..] == line[1..] + rest;
      SplitLine(line[1..], rest);
      assert [line[0]] + (line[1..] + after[0]) == line + after[0];
    }
  }

  // ---------------------------------------------------------------- each rendered line parses as meant

  lemma {:induction false} SkipOne(c: char, s: string, d: Drop)
    requires Drops(d, c)
    ensures StripStart([c] + s, d) == StripStart(s, d)
  {
    assert ([c] + s)[1..] == s;
  }

  /** A value that is one line, has single spaces only, and is not a placeholder. */
  predicate IsValue(s: string) {
    s != "" && '\n' !in s && Normalized(s) == s && !IsPlaceholder(s)
  }

  predicate Trimmed(s: string) {
    s != "" && !IsSpace(s[0]) && !IsSpace(s[|s| - 1])
  }

  lemma {:induction false} WordsAreTrimmed(s: string)
    ensures forall w <- SplitWords(s) :: Trimmed(w)
    decreases |s|
  {
    var rest := s[RunLength(s, true)..];
    if rest != "" {
      WordsAreTrimmed(rest[RunLength(rest, false)..]);
    }
  }

  lemma {:induction false} JoinIsTrimmed(words: seq<string>)
    requires words != [] && forall w <- words :: Trimmed(w)
    ensures Trimmed(Join(" ", words))
  {
    assert words[0] in words && forall w <- words[1..] :: w in words;
    if |words| > 1 {
      JoinIsTrimmed(words[1..]);
      var rest := Join(" ", words[1..]);
      var all := words[0] + " " + rest;
      assert all[0] == words[0][0] && all[|all| - 1] == rest[|rest| - 1];
    }
  }

  lemma {:induction false} ValueIsTrimmed(s: string)
    requires s != "" && Normalized(s) == s
    ensures Trimmed(s) && Strip(s) == s
  {
    WordsAreTrimmed(s);
    JoinIsTrimmed(SplitWords(s));
  }

  /** Reading "** " and a value after the colon. */
  lemma {:induction false} ValueReadsBack(v: string)
    requires v != "" && Normalized(v) == v
    ensures ValueAfter(Some(":** " + v)) == Some(v)
  {
    ValueIsTrimmed(v);
    var t := ":** " + v;
    assert SkipStars(t) == t;
    assert t[1..] == ['*'] + (['*'] + (" " + v));
    SkipOne('*', ['*'] + (" " + v), Chars("*"));
    SkipOne('*', " " + v, Chars("*"));
    assert SkipStars(" " + v) == " " + v;
    assert " " + v == [' '] + v;
    SkipOne(' ', v, Spaces);
    assert StripStart(v, Spaces) == v;
  }

  /** The bullet, space and stars in front of a rendered word. */
  lemma {:induction false} BulletReadsBack(line: string, word: string)
    requires word != "" && !IsSpace(word[0]) && word[0] != '*'
    requires line == "- **" + word
    ensures Bullet(line) == Some(word)
  {
    assert line[1..] == [' '] + (['*'] + (['*'] + word));
    SkipOne(' ', ['*'] + (['*'] + word), Spaces);
    var stars := ['*'] + (['*'] + word);
    assert StripStart(stars, Spaces) == stars;
    SkipOne('*', ['*'] + word, Chars("*"));
    SkipOne('*', word, Chars("*"));
    assert SkipStars(word) == word;
  }

  lemma {:induction false} PromptReadsBack(q: string)
    requires q != "" && Normalized(q) == q
    ensures ParsePrompt(PROMPT + q) == Some(q)
  {
    var word := "Prompt" + (":** " + q);
    assert PROMPT + q == "- **" + word;
    BulletReadsBack(PROMPT + q, word);
    assert word[|"Prompt"|..] == ":** " + q;
    assert AfterWord(word, "Prompt") == Some(":** " + q);
    ValueReadsBack(q);
  }

  lemma {:induction false} AnswerLine(a: string)
    ensures ANSWER + a == "- **" + ("Expected" + (" " + ("Binary" + (" Answer" + (":** " + a)))))
  {
  }

  lemma {:induction false} AnswerReadsBack(a: string)
    requires a != "" && Normalized(a) == a
    ensures ParseAnswer(ANSWER + a) == Some(a)
  {
    var rest := " " + ("Binary" + (" Answer" + (":** " + a)));
    AnswerLine(a);
    AnswerBullet(ANSWER + a, rest);
    AnswerWords(":** " + a);
    ValueReadsBack(a);
  }

  lemma {:induction false} AnswerBullet(line: string, rest: string)
    requires line == "- **" + ("Expected" + rest)
    ensures StripStart(line, Chars(" \t")) == line
    ensures Bullet(line) == Some("Expected" + rest) && AfterWord("Expected" + rest, "Expected") == Some(rest)
  {
    BulletReadsBack(line, "Expected" + rest);
    assert ("Expected" + rest)[|"Expected"|..] == rest;
  }

  lemma {:induction false} AnswerWords(value: string)
    ensures AfterAnswer(" " + ("Binary" + (" Answer" + value))) == Some(value)
  {
    var answer := "Answer" + value;
    var binary := "Binary" + (" Answer" + value);
    var s := " " + binary;
    assert s == [' '] + binary;
    SkipOne(' ', binary, Spaces);
    assert StripStart(binary, Spaces) == binary && |s| == |binary| + 1;
    assert binary[|"Binary"|..] == " Answer" + value == [' '] + answer;
    SkipOne(' ', answer, Spaces);
    assert StripStart(answer, Spaces) == answer;
    assert answer[|"Answer"|..] == value;
  }
}
