/** What extraction leaves out of a note, and where it reads
    (src/application/education/quiz_engine.py, lines 24 and 48-92). */
module QuizTaken {
  import opened Texts
  import opened QuizNote

  // ---------------------------------------------------------------- placeholders and repeats

  /** A hint of the template: anything in one pair of square brackets. */
  ghost predicate Bracketed(s: string) {
    exists inner: string :: ']' !in inner && s == "[" + inner + "]"
  }

  lemma {:induction false} PlaceholderIsBracketed(s: string)
    ensures IsPlaceholder(s) <==> Bracketed(s)
  {
    if IsPlaceholder(s) {
      var inner := s[1..|s| - 1];
      assert s == "[" + inner + "]" && forall i :: 0 <= i < |inner| ==> inner[i] == s[i + 1];
    }
    if Bracketed(s) {
      var inner: string :| ']' !in inner && s == "[" + inner + "]";
      assert forall i :: 0 < i < |s| - 1 ==> s[i] == inner[i - 1] && inner[i - 1] in inner;
    }
  }

  /** An item with a prompt and an answer, neither of them a placeholder. */
  ghost predicate Proper(item: Item) {
    item.prompt != "" && item.answer != "" && !Bracketed(item.prompt) && !Bracketed(item.answer)
  }

  lemma {:induction false} TakesProper(item: Item, seen: set<string>)
    ensures Takes(item, seen) <==> Proper(item) && item.prompt !in seen
  {
    PlaceholderIsBracketed(item.prompt);
    PlaceholderIsBracketed(item.answer);
  }

  predicate DistinctPrompts(items: seq<Item>) {
    forall i, j :: 0 <= i < j < |items| ==> items[i].prompt != items[j].prompt
  }

  /** Proper items with prompts of their own. */
  ghost predicate AllNew(items: seq<Item>, seen: set<string>) {
    (forall x <- items :: Proper(x) && x.prompt !in seen) && DistinctPrompts(items)
  }

  lemma {:induction false} NewInFront(item: Item, rest: seq<Item>, seen: set<string>)
    requires Takes(item, seen) && AllNew(rest, seen + {item.prompt})
    ensures AllNew([item] + rest, seen)
  {
    TakesProper(item, seen);
    var all := [item] + rest;
    forall i, j | 0 <= i < j < |all| ensures all[i].prompt != all[j].prompt {
      assert all[j] == rest[j - 1] && rest[j - 1] in rest;
      assert i > 0 ==> all[i] == rest[i - 1];
    }
  }

  lemma {:induction false} ReadInFront(lines: seq<string>, i: nat, seen: set<string>, item: Item, next: nat)
    requires i < |lines| && ItemAt(lines, i) == Some((item, next)) && Takes(item, seen)
    requires AllNew(ItemsFrom(lines, next, seen + {item.prompt}), seen + {item.prompt})
    ensures AllNew(ItemsFrom(lines, i, seen), seen)
  {
    var rest := ItemsFrom(lines, next, seen + {item.prompt});
    NewInFront(item, rest, seen);
    assert ItemsFrom(lines, i, seen) == [item] + rest;
  }

  lemma {:induction false} ItemsAreNew(lines: seq<string>, i: nat, seen: set<string>)
    requires i <= |lines|
    ensures AllNew(ItemsFrom(lines, i, seen), seen)
    decreases |lines| - i
  {
    if i < |lines| {
      OneStep(lines, i, seen);
      var found := ItemAt(lines, i);
      if found.None? {
        ItemsAreNew(lines, i + 1, seen);
      } else if Takes(found.value.0, seen) {
        ItemsAreNew(lines, found.value.1, seen + {found.value.0.prompt});
        ReadInFront(lines, i, seen, found.value.0, found.value.1);
      } else {
        ItemsAreNew(lines, found.value.1, seen);
      }
    }
  }

  /** Of found items the proper ones are taken unless their prompt was seen before. */
  lemma {:induction false} TakenAreNew(found: seq<Item>, seen: set<string>)
    ensures AllNew(Taken(found, seen), seen)
    ensures seen <= SeenAfter(found, seen)
    ensures forall x <- Taken(found, seen) :: x.prompt in SeenAfter(found, seen)
    ensures forall x <- found :: Proper(x) ==> x.prompt in SeenAfter(found, seen)
    ensures forall p <- SeenAfter(found, seen) :: p in seen || exists x <- Taken(found, seen) :: x.prompt == p
  {
    if found != [] {
      var item, rest := found[0], found[1..];
      TakesProper(item, seen);
      if Takes(item, seen) {
        TakenAreNew(rest, seen + {item.prompt});
        NewInFront(item, Taken(rest, seen + {item.prompt}), seen);
        TakenFirst(found, seen);
      } else {
        TakenAreNew(rest, seen);
      }
      assert forall x <- found :: x == item || x in rest;
    }
  }

  lemma {:induction false} TakenFirst(found: seq<Item>, seen: set<string>)
    requires found != [] && Takes(found[0], seen)
    ensures Taken(found, seen)[0] == found[0] && Taken(found, seen)[1..] == Taken(found[1..], seen + {found[0].prompt})
    ensures SeenAfter(found, seen) == SeenAfter(found[1..], seen + {found[0].prompt})
  {
  }

  /** From any note: no item is without prompt or answer, none is a placeholder, and no prompt
      comes twice, whichever forms the items have. */
  lemma {:induction false} ExtractedAreProper(note: string, forms: Forms)
    ensures forall x <- Extracted(note, forms) :: Proper(x)
    ensures DistinctPrompts(Extracted(note, forms))
  {
    var lines := QuizSection(SplitNewlines(note));
    var first, seen := Taken(forms(lines), {}), SeenAfter(forms(lines), {});
    var rest := ItemsFrom(lines, 0, seen);
    TakenAreNew(forms(lines), {});
    ItemsAreNew(lines, 0, seen);
    var all: seq<Item> := first + rest;
    forall i, j | 0 <= i < j < |all| ensures all[i].prompt != all[j].prompt {
      if i < |first| <= j {
        assert first[i] in first && rest[j - |first|] in rest;
      }
    }
  }

  /** What the inline and bullet forms find is taken at most once, and taken if it is proper. */
  lemma {:induction false} FoundIsTaken(note: string, forms: Forms, item: Item)
    requires item in forms(QuizSection(SplitNewlines(note))) && Proper(item)
    ensures exists x <- Extracted(note, forms) :: x.prompt == item.prompt
  {
    var found := forms(QuizSection(SplitNewlines(note)));
    TakenAreNew(found, {});
    var x :| x in Taken(found, {}) && x.prompt == item.prompt;
    assert x in Extracted(note, forms);
  }

  // ---------------------------------------------------------------- the quiz section

  /** No line starts a heading of the second level. */
  predicate NoHeadings(lines: seq<string>) {
    forall m :: 0 <= m < |lines| ==> !("##" <= lines[m])
  }

  lemma {:induction false} QuizIsHeading()
    ensures IsHeading("## Quiz") && IsQuizHeading("## Quiz")
  {
    var rest := "## Quiz"[2..];
    assert rest == " Quiz" && rest[1..] == "Quiz";
    assert SkipSpaces("Quiz") == "Quiz" && SkipSpaces(rest) == "Quiz";
    assert StripEnd("Quiz", Spaces) == "Quiz" && Strip(rest) == "Quiz";
    assert UpperChar('Q') == 'Q' && "Quiz"[4..] == "";
  }

  lemma {:induction false} OtherIsHeading(title: string)
    requires title != "" && !IsSpace(title[0])
    ensures IsHeading("## " + title)
  {
    var rest := ("## " + title)[2..];
    assert rest == " " + title && rest[1..] == title && SkipSpaces(title) == title;
  }

  lemma {:induction false} NextAfterPlain(lines: seq<string>, i: nat, k: nat, quiz: bool)
    requires i <= k <= |lines| && forall m :: i <= m < k ==> !("##" <= lines[m])
    requires k < |lines| ==> (if quiz then IsQuizHeading(lines[k]) else IsHeading(lines[k]))
    ensures NextHeading(lines, i, quiz) == k
    decreases k - i
  {
    if i < k {
      NextAfterPlain(lines, i + 1, k, quiz);
    }
  }

  lemma {:induction false} ReadToEnd(before: seq<string>, body: seq<string>)
    requires NoHeadings(before) && NoHeadings(body)
    ensures QuizSection(before + ["## Quiz"] + body) == body
  {
    var lines, k := before + ["## Quiz"] + body, |before|;
    QuizIsHeading();
    assert lines[k] == "## Quiz" && lines[k + 1..|lines|] == body;
    assert forall m :: 0 <= m < k ==> lines[m] == before[m];
    assert forall m :: k < m < |lines| ==> lines[m] == body[m - k - 1];
    NextAfterPlain(lines, 0, k, true);
    NextAfterPlain(lines, k + 1, |lines|, false);
  }

  lemma {:induction false} ReadToHeading(before: seq<string>, body: seq<string>, title: string, after: seq<string>)
    requires NoHeadings(before) && NoHeadings(body) && title != "" && !IsSpace(title[0])
    ensures QuizSection(before + ["## Quiz"] + body + ["## " + title] + after) == body
  {
    var lines, k, e := before + ["## Quiz"] + body + ["## " + title] + after, |before|, |before| + 1 + |body|;
    QuizIsHeading();
    OtherIsHeading(title);
    assert lines[k] == "## Quiz" && lines[e] == "## " + title && lines[k + 1..e] == body;
    assert forall m :: 0 <= m < k ==> lines[m] == before[m];
    assert forall m :: k < m < e ==> lines[m] == body[m - k - 1];
    NextAfterPlain(lines, 0, k, true);
    NextAfterPlain(lines, k + 1, e, false);
  }

  /** Items are read under the heading "## Quiz" up to the next heading of that level, or to the
      end of the note. */
  lemma {:induction false} SectionIsRead(before: seq<string>, body: seq<string>, title: string, after: seq<string>)
    requires NoHeadings(before) && NoHeadings(body) && title != "" && !IsSpace(title[0])
    ensures QuizSection(before + ["## Quiz"] + body) == body
    ensures QuizSection(before + ["## Quiz"] + body + ["## " + title] + after) == body
  {
    ReadToEnd(before, body);
    ReadToHeading(before, body, title, after);
  }

  /** Without such a heading the whole note is read. */
  lemma {:induction false} WholeNoteIsRead(lines: seq<string>)
    requires NoHeadings(lines)
    ensures QuizSection(lines) == lines
  {
    NextAfterPlain(lines, 0, |lines|, true);
  }

  // ---------------------------------------------------------------- items without bold marks

  lemma {:induction false} PlainValue(v: string)
    requires Strip(v) != ""
    ensures ValueAfter(Some(": " + v)) == Some(Strip(v))
  {
    var t := ": " + v;
    assert SkipStars(t) == t && t[1..] == " " + v && SkipStars(" " + v) == " " + v;
    assert " " + v == [' '] + v;
    SkipOne(' ', v, Spaces);
  }

  lemma {:induction false} PlainBullet(mark: char, word: string)
    requires mark == '-' || mark == '*'
    requires word != "" && !IsSpace(word[0]) && word[0] != '*'
    ensures Bullet([mark] + (" " + word)) == Some(word)
  {
    var line := [mark] + (" " + word);
    assert line[1..] == [' '] + word;
    SkipOne(' ', word, Spaces);
    assert StripStart(word, Spaces) == word && SkipStars(word) == word;
  }

  /** A prompt without bold marks, with either bullet, in small or capital letters. */
  lemma {:induction false} PlainPromptReads(mark: char, word: string, q: string)
    requires mark == '-' || mark == '*'
    requires word in {"Prompt", "prompt", "PROMPT"} && Strip(q) != ""
    ensures ParsePrompt([mark] + (" " + (word + (": " + q)))) == Some(Strip(q))
  {
    var rest := word + (": " + q);
    assert rest[|word|..] == ": " + q && rest[0] == word[0];
    PlainBullet(mark, rest);
    PromptWord(word, ": " + q);
    PlainValue(q);
  }

  lemma PromptWord(word: string, rest: string)
    requires word in {"Prompt", "prompt", "PROMPT"}
    ensures AfterWord(word + rest, "Prompt") == Some(rest)
  {
    var s := word + rest;
    assert s[|word|..] == rest;
    assert forall i :: 0 <= i < 6 ==> s[i] == word[i];
    assert word[0] in "Pp" && word[1] in "Rr" && word[2] in "Oo";
    assert word[3] in "Mm" && word[4] in "Pp" && word[5] in "Tt";
  }

  lemma {:induction false} AnswerAfter(value: string)
    ensures AfterAnswer(" " + ("Answer" + value)) == Some(value)
  {
    var answer := "Answer" + value;
    assert " " + answer == [' '] + answer;
    SkipOne(' ', answer, Spaces);
    assert StripStart(answer, Spaces) == answer && answer[|"Answer"|..] == value;
    assert answer[0] == 'A' && AfterWord(answer, "Binary") == None;
  }

  lemma {:induction false} ExpectedLine(rest: string)
    ensures var line := ['-'] + (" " + ("Expected" + rest));
      && StripStart(line, Chars(" \t")) == line && Bullet(line) == Some("Expected" + rest)
      && AfterWord("Expected" + rest, "Expected") == Some(rest)
  {
    PlainBullet('-', "Expected" + rest);
    assert ("Expected" + rest)[|"Expected"|..] == rest;
  }

  /** An answer without the word "Binary" and without bold marks. */
  lemma {:induction false} PlainAnswerReads(a: string)
    requires Strip(a) != ""
    ensures ParseAnswer(['-'] + (" " + ("Expected" + (" " + ("Answer" + (": " + a)))))) == Some(Strip(a))
  {
    ExpectedLine(" " + ("Answer" + (": " + a)));
    AnswerAfter(": " + a);
    PlainValue(a);
  }

  /** "Binary" needs a space after it. */
  lemma {:induction false} JoinedWordsAreNoAnswer(a: string)
    ensures ParseAnswer(['-'] + (" " + ("Expected" + (" " + ("Binary" + ("Answer" + a)))))) == None
  {
    var t := "Answer" + a;
    var u := "Binary" + t;
    ExpectedLine(" " + u);
    assert " " + u == [' '] + u;
    SkipOne(' ', u, Spaces);
    assert StripStart(u, Spaces) == u && u[|"Binary"|..] == t && SkipSpaces(t) == t;
  }

  /** The answer line may be indented by spaces and tabs. */
  lemma {:induction false} IndentedAnswer(indent: string, line: string)
    requires (forall c <- indent :: c == ' ' || c == '\t') && line != "" && (line[0] == '-' || line[0] == '*')
    ensures ParseAnswer(indent + line) == ParseAnswer(line)
  {
    StripStartOf(indent, line, Chars(" \t"));
  }

  // ---------------------------------------------------------------- an item of a plain note

  /** A value of one or more words, spread over the line, whose words single-spaced are the text. */
  ghost predicate Spells(v: string, text: string) {
    exists ws: seq<string>, gaps: seq<string> ::
      |gaps| == |ws| + 1 && AllWords(ws) && AreGaps(gaps) && ws != [] && v == Spread(ws, gaps) && text == Join(" ", ws)
  }

  function PlainPrompt(q: string): string {
    ['-'] + (" " + ("Prompt" + (": " + q)))
  }

  function PlainAnswer(a: string): string {
    ['-'] + (" " + ("Expected" + (" " + ("Answer" + (": " + a)))))
  }

  ghost predicate PromptLine(line: string, text: string) {
    exists q :: line == PlainPrompt(q) && Spells(q, text)
  }

  /** The answer may be indented. */
  ghost predicate AnswerLine(line: string, text: string) {
    exists indent: string, a ::
      (forall c <- indent :: c == ' ' || c == '\t') && line == indent + PlainAnswer(a) && Spells(a, text)
  }

  /** The first line and line k are prompt and answer of the item; the lines between are blank. */
  ghost predicate PlainItem(lines: seq<string>, k: nat, item: Item) {
    0 < k < |lines| && PromptLine(lines[0], item.prompt) && AnswerLine(lines[k], item.answer)
    && forall m :: 0 < m < k ==> IsBlank(lines[m])
  }

  lemma {:induction false} SpelledIsRead(v: string, text: string)
    requires Spells(v, text)
    ensures Strip(v) != "" && Normalized(Strip(v)) == text
  {
    var ws: seq<string>, gaps: seq<string> :|
      |gaps| == |ws| + 1 && AllWords(ws) && AreGaps(gaps) && ws != [] && v == Spread(ws, gaps) && text == Join(" ", ws);
    WordsOfSpread(ws, gaps);
    WordsOfStrip(v);
    assert SplitWords("") == [];
  }

  lemma {:induction false} PromptLineReads(line: string, text: string)
    requires PromptLine(line, text)
    ensures ParsePrompt(line).Some? && Normalized(ParsePrompt(line).value) == text
  {
    var q :| line == PlainPrompt(q) && Spells(q, text);
    SpelledIsRead(q, text);
    PlainPromptReads('-', "Prompt", q);
  }

  lemma {:induction false} AnswerLineReads(line: string, text: string)
    requires AnswerLine(line, text)
    ensures ParseAnswer(line).Some? && Normalized(ParseAnswer(line).value) == text && !IsBlank(line)
  {
    var indent: string, a :|
      (forall c <- indent :: c == ' ' || c == '\t') && line == indent + PlainAnswer(a) && Spells(a, text);
    SpelledIsRead(a, text);
    PlainAnswerReads(a);
    IndentedAnswer(indent, PlainAnswer(a));
    assert line[|indent|] == '-' && '-' in line;
  }

  lemma {:induction false} FirstAfterBlanks(lines: seq<string>, i: nat, k: nat)
    requires i <= k < |lines| && !IsBlank(lines[k]) && forall m :: i <= m < k ==> IsBlank(lines[m])
    ensures FirstNonBlank(lines, i) == k
    decreases k - i
  {
    if i < k {
      FirstAfterBlanks(lines, i + 1, k);
    }
  }

  /** A prompt line and, after any blank lines, an answer line are an item; of both texts runs of
      white space become one space. */
  lemma {:induction false} ItemIsRead(lines: seq<string>, k: nat, item: Item)
    requires PlainItem(lines, k, item)
    ensures ItemAt(lines, 0) == Some((item, k + 1))
  {
    PromptLineReads(lines[0], item.prompt);
    AnswerLineReads(lines[k], item.answer);
    FirstAfterBlanks(lines, 1, k);
    ItemFromLines(lines, k, ParsePrompt(lines[0]).value, ParseAnswer(lines[k]).value);
  }

  lemma {:induction false} ItemFromLines(lines: seq<string>, k: nat, q: string, a: string)
    requires 0 < k < |lines| && FirstNonBlank(lines, 1) == k
    requires ParsePrompt(lines[0]) == Some(q) && ParseAnswer(lines[k]) == Some(a)
    ensures ItemAt(lines, 0) == Some((Item(Normalized(q), Normalized(a)), k + 1))
  {
  }

  /** If it is proper, it is taken from the note. */
  lemma {:induction false} PlainItemIsTaken(lines: seq<string>, k: nat, item: Item, forms: Forms)
    requires PlainItem(lines, k, item) && Proper(item)
    requires (forall line <- lines :: '\n' !in line) && NoHeadings(lines) && forms(lines) == []
    ensures var items := Extracted(Join("\n", lines), forms); items != [] && items[0] == item
  {
    ItemIsRead(lines, k, item);
    ExtractedStarts(lines, item, k + 1, forms);
  }

  lemma {:induction false} ExtractedStarts(lines: seq<string>, item: Item, next: nat, forms: Forms)
    requires lines != [] && ItemAt(lines, 0) == Some((item, next)) && Proper(item)
    requires (forall line <- lines :: '\n' !in line) && NoHeadings(lines) && forms(lines) == []
    ensures var items := Extracted(Join("\n", lines), forms); items != [] && items[0] == item
  {
    SplitOfJoin(lines);
    WholeNoteIsRead(lines);
    TakesProper(item, {});
    FirstIsTaken(lines, item, next);
  }

  lemma {:induction false} FirstIsTaken(lines: seq<string>, item: Item, next: nat)
    requires lines != [] && ItemAt(lines, 0) == Some((item, next)) && Takes(item, {})
    ensures ItemsFrom(lines, 0, {}) != [] && ItemsFrom(lines, 0, {})[0] == item
  {
  }

  /** A heading that goes on after "Quiz" does not open a section. */
  lemma {:induction false} LongerHeadingIsNone(more: string)
    requires more != "" && !IsSpace(more[|more| - 1])
    ensures !IsQuizHeading("## Quiz" + more)
  {
    var title := "Quiz" + more;
    var rest := ("## Quiz" + more)[2..];
    assert rest == " " + title + "";
    StripOf(" ", title, "");
    assert title[4..] == more;
  }
}
