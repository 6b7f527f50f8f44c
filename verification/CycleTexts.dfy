/** Texts that the text detector catches, built from what they repeat
    (src/application/kernel/cycle_detector.py, lines 80-131). */
module CycleTexts {
  import opened Texts
  import opened Copies
  import opened CycleDetector

  // ---------------------------------------------------------------- repeated blocks

  lemma {:induction false} RepeatSize<T>(block: seq<T>, n: nat)
    ensures |Repeat(block, n)| == n * |block|
    decreases n
  {
    if n > 0 {
      RepeatSize(block, n - 1);
      OneLess(n, |block|);
    }
  }

  lemma {:induction false} EndOfEnd<T>(s: seq<T>, t: seq<T>, n: nat)
    requires EndsWith(s, t) && |t| <= n
    ensures n <= |s| ==> EndsWith(s[|s| - n..], t)
  {
    if n <= |s| {
      assert s[|s| - n..][n - |t|..] == s[|s| - |t|..];
    }
  }

  lemma Products(a: nat, b: nat, n: nat)
    requires a <= b
    ensures a * n <= b * n && n * a <= n * b
  {
  }

  /** n blocks of that size fit in no less than n times the size. */
  lemma {:induction false} BlocksFit(size: nat, n: nat, total: nat)
    requires n >= 1 && n * size <= total
    ensures size <= FloorDiv(total, n)
  {
    var k := total / n;
    assert n * (k + 1) == n * k + n > total;
    if k < size {
      Products(k + 1, size, n);
    }
  }

  // ---------------------------------------------------------------- repeated phrases

  lemma {:induction false} EndOfTail(text: string, t: string, size: nat)
    requires EndsWith(text, t) && |t| <= size
    ensures EndsWith(TailSlice(text, size), t)
  {
    EndOfEnd(text, t, size);
    if size == 0 {
      assert text[0..] == text;
    }
  }

  lemma {:induction false} PhrasesFit(block: string, minPhrase: nat, threshold: nat)
    requires |block| <= 4 * minPhrase
    ensures |Repeat(block, threshold)| <= TailLength(minPhrase, threshold)
  {
    RepeatSize(block, threshold);
    Products(|block|, 4 * minPhrase, threshold);
    assert TailLength(minPhrase, threshold) == threshold * (4 * minPhrase);
  }

  /** The last characters that the test looks at still end in the repeated phrase. */
  lemma {:induction false} TailEnds(text: string, block: string, minPhrase: nat, threshold: nat)
    requires |block| <= 4 * minPhrase
    requires EndsWith(text, Repeat(block, threshold)) && Strip(text) == text
    ensures EndsWith(TailOf(text, minPhrase, threshold), Repeat(block, threshold))
  {
    PhrasesFit(block, minPhrase, threshold);
    EndOfTail(text, Repeat(block, threshold), TailLength(minPhrase, threshold));
  }

  /** A stripped text that ends in enough copies of a phrase of at least minPhrase and at most
      four times as many characters raises the alarm, whatever is before them. */
  lemma {:induction false} RepeatedPhraseIsCaught(text: string, block: string, minPhrase: nat, threshold: nat)
    requires threshold >= 2 && minPhrase >= 1 && minPhrase <= |block| <= 4 * minPhrase
    requires Strip(text) == text && EndsWith(text, Repeat(block, threshold))
    ensures TextCycles(text, minPhrase, threshold)
  {
    var tail := TailOf(text, minPhrase, threshold);
    RepeatSize(block, threshold);
    Products(minPhrase, |block|, threshold);
    Products(1, threshold, |block|);
    TailEnds(text, block, minPhrase, threshold);
    BlocksFit(|block|, threshold, |tail|);
    assert EndsInCopies(tail, |block|, threshold);
    assert SomeCopies(tail, AtLeastOne(minPhrase), FloorDiv(|tail|, threshold), CharCopies(threshold));
  }

  // ---------------------------------------------------------------- repeated words

  lemma {:induction false} LastOfJoin(ws: seq<string>)
    requires ws != [] && AllWords(ws)
    ensures Join(" ", ws) != "" && !IsSpace(Join(" ", ws)[0]) && !IsSpace(Join(" ", ws)[|Join(" ", ws)| - 1])
  {
    assert ws[0] in ws && forall w <- ws[1..] :: w in ws;
    assert ws[0][0] in ws[0] && ws[0][|ws[0]| - 1] in ws[0];
    if |ws| > 1 {
      LastOfJoin(ws[1..]);
      FirstOfJoin(ws);
    }
  }

  lemma {:induction false} JoinedIsStripped(ws: seq<string>)
    requires ws != [] && AllWords(ws)
    ensures Strip(Join(" ", ws)) == Join(" ", ws)
  {
    LastOfJoin(ws);
  }

  /** A text whose words end in enough copies of three to fifty words raises the alarm, if it has
      the characters that minPhrase asks for. */
  lemma {:induction false} RepeatedWordsAreCaught(ws: seq<string>, block: seq<string>, minPhrase: int, threshold: nat)
    requires threshold >= 1 && AllWords(ws) && 3 <= |block| <= 50 && EndsWith(ws, Repeat(block, threshold))
    requires |Join(" ", ws)| >= minPhrase * threshold
    ensures TextCycles(Join(" ", ws), minPhrase, threshold)
  {
    var text := Join(" ", ws);
    RepeatSize(block, threshold);
    Products(1, threshold, |block|);
    JoinedIsStripped(ws);
    LastOfJoin(ws);
    WordsOfJoin(ws);
    BlocksFit(|block|, threshold, |ws|);
    assert EndsInCopies(ws, |block|, threshold);
    assert SomeCopies(ws, MIN_GRAM, Min(MAX_GRAM, FloorDiv(|ws|, threshold)), threshold);
  }

  // ---------------------------------------------------------------- a threshold of one

  lemma {:induction false} OneCopy<T>(block: seq<T>)
    ensures Repeat(block, 1) == block
  {
    assert Repeat(block, 0) + block == block;
  }

  /** With a threshold of one every text of three words raises the alarm. */
  lemma {:induction false} ThreeWordsAreCaught(ws: seq<string>, minPhrase: int)
    requires AllWords(ws) && |ws| >= 3 && |Join(" ", ws)| >= minPhrase
    ensures TextCycles(Join(" ", ws), minPhrase, 1)
  {
    var block := ws[|ws| - 3..];
    OneCopy(block);
    RepeatedWordsAreCaught(ws, block, minPhrase, 1);
  }

  /** With fewer words the same threshold still takes two copies of a phrase. */
  lemma {:induction false} TwoWordsNeedTwoCopies(ws: seq<string>, minPhrase: nat)
    requires AllWords(ws) && ws != [] && |ws| < 3 && minPhrase >= 1
    ensures TextCycles(Join(" ", ws), minPhrase, 1) ==>
      exists p :: minPhrase <= p && EndsInCopies(TailOf(Join(" ", ws), minPhrase, 1), p, 2)
  {
    JoinedIsStripped(ws);
    WordsOfJoin(ws);
    assert FloorDiv(|ws|, 1) == |ws|;
  }

  // ---------------------------------------------------------------- nothing else

  lemma {:induction false} EndInside<T>(s: seq<T>, n: int, t: seq<T>)
    requires n > 0 && EndsWith(TailSlice(s, n), t)
    ensures EndsWith(s, t)
  {
    var tail := TailSlice(s, n);
    assert tail[|tail| - |t|..] == s[|s| - |t|..];
  }

  /** The copies of words or characters at the end of a text that raise the alarm. */
  ghost predicate WordsRepeat(text: string, threshold: nat) {
    exists block: seq<string> :: 3 <= |block| <= 50 && EndsWith(SplitWords(text), Repeat(block, threshold))
  }

  ghost predicate PhraseRepeats(text: string, minPhrase: nat, copies: nat) {
    exists block: string :: |block| >= minPhrase && EndsWith(Strip(text), Repeat(block, copies))
  }

  lemma {:induction false} WordCopiesRepeat(text: string, hi: int, threshold: nat)
    requires hi <= 50 && SomeCopies(SplitWords(Strip(text)), 3, hi, threshold)
    ensures WordsRepeat(text, threshold)
  {
    WordsOfStrip(text);
    var p :| 3 <= p <= hi && EndsInCopies(SplitWords(text), p, threshold);
    var block: seq<string> :| |block| == p && EndsWith(SplitWords(text), Repeat(block, threshold));
  }

  lemma {:induction false} PhraseCopiesRepeat(text: string, size: int, minPhrase: nat, hi: int, copies: nat)
    requires size > 0 && SomeCopies(TailSlice(Strip(text), size), minPhrase, hi, copies)
    ensures PhraseRepeats(text, minPhrase, copies)
  {
    var tail := TailSlice(Strip(text), size);
    var p :| minPhrase <= p <= hi && EndsInCopies(tail, p, copies);
    var block: string :| |block| == p && EndsWith(tail, Repeat(block, copies));
    EndInside(Strip(text), size, Repeat(block, copies));
  }

  /** Only repeats raise the alarm: threshold copies of three to fifty words, or as many copies
      and at least two of a phrase of minPhrase characters or more. */
  lemma {:induction false} OnlyRepeatsAreCaught(text: string, minPhrase: nat, threshold: nat)
    requires minPhrase >= 1 && threshold >= 1 && TextCycles(text, minPhrase, threshold)
    ensures text != ""
    ensures WordsRepeat(text, threshold) || PhraseRepeats(text, minPhrase, if threshold < 2 then 2 else threshold)
  {
    RepeatsMean(text, minPhrase, threshold);
    TailIsSome(minPhrase, threshold);
    var words, tail := SplitWords(Strip(text)), TailOf(text, minPhrase, threshold);
    var most := Min(MAX_GRAM, FloorDiv(|words|, threshold));
    if SomeCopies(words, 3, most, threshold) {
      WordCopiesRepeat(text, most, threshold);
    } else {
      PhraseCopiesRepeat(text, TailLength(minPhrase, threshold), minPhrase, FloorDiv(|tail|, threshold),
                         CharCopies(threshold));
    }
  }

  lemma {:induction false} RepeatsMean(text: string, minPhrase: nat, threshold: nat)
    requires minPhrase >= 1 && threshold >= 1 && TextCycles(text, minPhrase, threshold)
    ensures var words, tail := SplitWords(Strip(text)), TailOf(text, minPhrase, threshold);
      || SomeCopies(words, 3, Min(MAX_GRAM, FloorDiv(|words|, threshold)), threshold)
      || SomeCopies(tail, minPhrase, FloorDiv(|tail|, threshold), CharCopies(threshold))
  {
  }

  lemma TailIsSome(minPhrase: nat, threshold: nat)
    requires minPhrase >= 1 && threshold >= 1
    ensures TailLength(minPhrase, threshold) > 0
  {
    Products(1, minPhrase, threshold);
  }

  lemma EmptyTextIsNormal(minPhrase: int, threshold: int)
    requires threshold != 0
    ensures !TextCycles("", minPhrase, threshold)
  {
  }
}
