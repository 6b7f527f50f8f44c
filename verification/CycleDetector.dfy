/** Detecting repeated tool calls and repeated text (src/application/kernel/cycle_detector.py):
    the alarm is exactly periodicity of the end of what was recorded. */
module CycleDetector {
  import opened Texts
  import opened Copies
  import opened Signatures

  function AtLeastZero(n: int): nat {
    if n < 0 then 0 else n
  }

  /** The history ends in `repeats` copies of a block of one, two or three entries. */
  ghost predicate Cycling<T(!new)>(history: seq<T>, repeats: int) {
    exists p :: 1 <= p <= 3 && EndsInCopies(history, p, AtLeastZero(repeats))
  }

  /** s[-n:] */
  function TailSlice<T>(s: seq<T>, n: int): seq<T> {
    if n > 0 then (if n <= |s| then s[|s| - n..] else s)
    else if -n <= |s| then s[-n..] else []
  }

  /** The oscillation test for one period: enough history, and every earlier block of the
      last `repeats` equals the last one. */
  method PeriodRepeats(history: seq<string>, period: nat, repeats: int) returns (matched: bool)
    requires period >= 1
    ensures matched <==> repeats <= 0 || Copied(history, period, repeats)
  {
    if repeats <= 0 {
      return true;
    }
    if |history| < repeats * period {
      if Copied(history, period, repeats) {
        WalkNeedsRoom(history, Last(history, period), repeats);
      }
      return false;
    }
    assert period <= repeats * period by {
      OneLess(repeats, period);
      NotNegative(repeats - 1, period);
    }
    matched := MatchBack(history, period, repeats);
  }

  lemma NotNegative(a: nat, b: nat)
    ensures a * b >= 0
  {
  }

  class Detector {
    const maxRepeats: int
    var history: seq<string>
    var toolNames: seq<seq<string>>
    ghost var batches: seq<seq<ToolCall>>   // the batches recorded so far

    ghost predicate Valid()
      reads this
    {
      history == SignaturesOf(batches)
    }

    constructor (maxRepeats: int)
      ensures this.maxRepeats == maxRepeats && history == [] && toolNames == []
      ensures Valid() && batches == []
    {
      this.maxRepeats := maxRepeats;
      history, toolNames, batches := [], [], [];
    }

    method Reset()
      modifies this
      ensures history == [] && toolNames == []
      ensures Valid() && batches == []
    {
      history, toolNames, batches := [], [], [];
    }

    /** An empty batch changes nothing; any other is recorded, and raises the alarm exactly
        when the recorded batches then end in repeats of a block of length 1, 2 or 3.  The
        history of signatures decides that as long as no tool name holds a colon. */
    method RecordAndCheck(calls: seq<ToolCall>) returns (alarm: bool)
      requires Valid()
      modifies this
      ensures Valid()
      ensures calls == [] ==>
        !alarm && history == old(history) && toolNames == old(toolNames) && batches == old(batches)
      ensures calls != [] ==>
        (&& batches == old(batches) + [calls]
         && history == old(history) + [Signature(calls)]
         && toolNames == old(toolNames) + [seq(|calls|, i requires 0 <= i < |calls| => calls[i].name)]
         && (alarm <==> Cycling(history, maxRepeats))
         && (AllSeparable(batches) ==> (alarm <==> Cycling(batches, maxRepeats))))
    {
      if calls == [] {
        return false;
      }
      var sig := Signature(calls);
      history := history + [sig];
      toolNames := toolNames + [seq(|calls|, i requires 0 <= i < |calls| => calls[i].name)];
      batches := batches + [calls];
      alarm := CheckHistory(history, sig, maxRepeats);
      if AllSeparable(batches) {
        BatchesCycle(batches, maxRepeats);
      }
    }
  }

  /** The signatures repeat if and only if the batches do. */
  lemma {:induction false} BatchesCycle(batches: seq<seq<ToolCall>>, repeats: int)
    requires AllSeparable(batches) && batches != []
    ensures Cycling(SignaturesOf(batches), repeats) <==> Cycling(batches, repeats)
  {
    var n := AtLeastZero(repeats);
    if n == 0 {
      NoCopies(batches, 1);
      NoCopies(SignaturesOf(batches), 1);
      assert 1 <= 1 <= 3 && EndsInCopies(batches, 1, 0) && EndsInCopies(SignaturesOf(batches), 1, 0);
    } else {
      forall p | 1 <= p <= 3 ensures EndsInCopies(SignaturesOf(batches), p, n) <==> EndsInCopies(batches, p, n) {
        SameCopies(batches, p, n);
      }
    }
  }

  /** A block of one, two or three batches, repeated often enough, raises the alarm. */
  lemma {:induction false} CyclesAreCaught(front: seq<seq<ToolCall>>, block: seq<seq<ToolCall>>, repeats: nat)
    requires 1 <= |block| <= 3 && repeats >= 1
    ensures Cycling(front + Repeat(block, repeats), repeats)
  {
    var all := front + Repeat(block, repeats);
    assert all[|front|..] == Repeat(block, repeats) && EndsWith(all, Repeat(block, repeats));
    assert AtLeastZero(repeats) == repeats && EndsInCopies(all, |block|, AtLeastZero(repeats));
  }

  /** Two copies at the end: the last element is also the one a block earlier. */
  lemma {:induction false} CopiedTwice<T>(s: seq<T>, p: nat, n: nat)
    requires p >= 1 && n >= 2 && Copied(s, p, n)
    ensures |s| >= 2 * p && s[|s| - 1 - p] == s[|s| - 1]
  {
    var block, front := Last(s, p), s[..|s| - p];
    assert Walk(front, block, n - 1) && EndsWith(front, block);
    assert front[|front| - p..][p - 1] == block[p - 1];
  }

  /** Normal work: a batch that none of the three before it equals raises no alarm. */
  lemma {:induction false} NewBatchIsNormal(batches: seq<seq<ToolCall>>, calls: seq<ToolCall>, repeats: int)
    requires repeats >= 2
    requires forall k :: 0 <= k < |batches| && |batches| - 3 <= k ==> batches[k] != calls
    ensures !Cycling(batches + [calls], repeats)
  {
    CyclingByWalks(batches + [calls], repeats);
    NotCopied(batches, calls, 1, repeats);
    NotCopied(batches, calls, 2, repeats);
    NotCopied(batches, calls, 3, repeats);
  }

  lemma {:induction false} NotCopied(batches: seq<seq<ToolCall>>, calls: seq<ToolCall>, p: nat, repeats: nat)
    requires repeats >= 2 && 1 <= p <= 3
    requires forall k :: 0 <= k < |batches| && |batches| - 3 <= k ==> batches[k] != calls
    ensures !Copied(batches + [calls], p, repeats)
  {
    var all := batches + [calls];
    assert all[|batches|] == calls && (p <= |batches| ==> all[|batches| - p] == batches[|batches| - p]);
    if Copied(all, p, repeats) {
      CopiedTwice(all, p, repeats);
    }
  }

  /** The alarm of one history is one of three walks. */
  lemma {:induction false} CyclingByWalks<T(!new)>(history: seq<T>, repeats: int)
    requires history != []
    ensures Cycling(history, repeats) <==>
      repeats <= 0 || Copied(history, 1, repeats) || Copied(history, 2, repeats) || Copied(history, 3, repeats)
  {
    if repeats <= 0 {
      NoCopies(history, 1);
      assert 1 <= 1 <= 3 && EndsInCopies(history, 1, AtLeastZero(repeats));
    } else {
      CopiedIsEnding(history, 1, repeats);
      CopiedIsEnding(history, 2, repeats);
      CopiedIsEnding(history, 3, repeats);
      var n := AtLeastZero(repeats);
      assert EndsInCopies(history, 1, n) ==> Cycling(history, repeats);
      assert EndsInCopies(history, 2, n) ==> Cycling(history, repeats);
      assert EndsInCopies(history, 3, n) ==> Cycling(history, repeats);
    }
  }

  /** The last `repeats` signatures all equal the latest one. */
  lemma {:induction false} SameSignature(history: seq<string>, sig: string, repeats: int)
    requires history != [] && history[|history| - 1] == sig && repeats >= 1
    ensures Copied(history, 1, repeats) <==>
      |history| >= repeats && forall i :: 0 <= i < repeats ==> TailSlice(history, repeats)[i] == sig
  {
    assert Last(history, 1) == [sig];
    WalkSingle(history, sig, repeats);
    if |history| >= repeats {
      TailIs(history, sig, repeats);
    }
  }

  lemma {:induction false} TailIs(history: seq<string>, sig: string, repeats: int)
    requires 1 <= repeats <= |history|
    ensures (forall i :: 0 <= i < repeats ==> TailSlice(history, repeats)[i] == sig) <==>
      forall i :: |history| - repeats <= i < |history| ==> history[i] == sig
  {
    var recent, from := TailSlice(history, repeats), |history| - repeats;
    assert forall i :: 0 <= i < repeats ==> recent[i] == history[from + i];
    assert forall i :: from <= i < |history| ==> history[i] == recent[i - from];
  }

  method CheckHistory(history: seq<string>, sig: string, repeats: int) returns (alarm: bool)
    requires history != [] && history[|history| - 1] == sig
    ensures alarm <==> Cycling(history, repeats)
  {
    CyclingByWalks(history, repeats);
    if repeats >= 1 {
      SameSignature(history, sig, repeats);
    }
    if |history| >= repeats {
      var recent := TailSlice(history, repeats);
      if forall i :: 0 <= i < |recent| ==> recent[i] == sig {
        return true;
      }
    }
    for period := 2 to 4
      invariant period > 2 ==> repeats >= 1 && !Copied(history, 2, repeats)
      invariant period > 3 ==> !Copied(history, 3, repeats)
    {
      var matched := PeriodRepeats(history, period, repeats);
      if matched {
        return true;
      }
    }
    return false;
  }

  // ---------------------------------------------------------------- repeated text

  function Min(a: int, b: int): int {
    if a <= b then a else b
  }

  function AtLeastOne(n: int): nat {
    if n < 1 then 1 else n
  }

  const MAX_GRAM: nat := 50
  const MIN_GRAM: nat := 3

  /** The copies that the word test needs: the last phrase itself is always one. */
  function WordCopies(threshold: int): nat {
    if threshold < 1 then 1 else threshold
  }

  /** The copies that the character test needs: one next to the last even when the threshold
      is one. */
  function CharCopies(threshold: int): nat {
    if threshold < 2 then 2 else threshold
  }

  /** Some block length in lo..hi has n copies at the end. */
  ghost predicate SomeCopies<T(!new)>(s: seq<T>, lo: nat, hi: int, n: nat) {
    exists p :: lo <= p <= hi && EndsInCopies(s, p, n)
  }

  /** Python's total // n, which rounds down. */
  function FloorDiv(total: nat, n: int): int
    requires n != 0
  {
    if n > 0 then total / n else -((total - n - 1) / -n)
  }

  lemma PiecesFit(total: nat, n: int)
    requires n >= 1
    ensures 0 <= FloorDiv(total, n) <= total
    ensures total < n * MIN_GRAM ==> FloorDiv(total, n) < MIN_GRAM
  {
    var k := total / n;
    assert n * k <= total;
    if k > 0 {
      OneLess(n, k);
      NotNegative(n - 1, k);
    }
  }

  /** Divided by a negative number nothing is positive, and only zero gives zero. */
  lemma NegativeDiv(total: nat, n: int)
    requires n < 0
    ensures FloorDiv(total, n) <= 0 && (FloorDiv(total, n) == 0 <==> total == 0)
  {
    var d := -n;
    var k := (total + d - 1) / d;
    assert total + d - 1 == d * k + (total + d - 1) % d;
  }

  function TailLength(minPhrase: int, threshold: int): int {
    minPhrase * threshold * 4
  }

  function TailOf(text: string, minPhrase: int, threshold: int): string {
    TailSlice(Strip(text), TailLength(minPhrase, threshold))
  }

  /** The end of the words repeats a phrase of three or more words, or the bounded end of the
      text repeats a phrase of minPhrase or more characters (of at least one). */
  ghost predicate PhraseCycles(text: string, minPhrase: int, threshold: int)
    requires threshold >= 1
  {
    var words, tail := SplitWords(Strip(text)), TailOf(text, minPhrase, threshold);
    || SomeCopies(words, MIN_GRAM, Min(MAX_GRAM, FloorDiv(|words|, threshold)), threshold)
    || SomeCopies(tail, AtLeastOne(minPhrase), FloorDiv(|tail|, threshold), CharCopies(threshold))
  }

  /** With a phrase length of zero or less the character test begins with phrases that are empty
      when no more than that many characters are left. */
  predicate EmptyPhraseFits(tail: string, minPhrase: int, longest: int) {
    minPhrase <= 0 && minPhrase <= longest && |tail| <= -minPhrase
  }

  /** What raises the alarm. */
  ghost predicate TextCycles(text: string, minPhrase: int, threshold: int)
    requires threshold != 0
  {
    var tail := TailOf(text, minPhrase, threshold);
    && text != "" && |text| >= minPhrase * threshold
    && (EmptyPhraseFits(tail, minPhrase, FloorDiv(|tail|, threshold))
        || (threshold >= 1 && PhraseCycles(text, minPhrase, threshold)))
  }

  /** Trying every block length from lo to hi. */
  method TryLengths<T(==,!new)>(s: seq<T>, lo: nat, hi: int, n: nat) returns (found: bool)
    requires lo >= 1 && n >= 1 && hi <= |s|
    ensures found <==> SomeCopies(s, lo, hi, n)
  {
    var p := lo;
    while p <= hi
      invariant p >= lo
      invariant forall x :: lo <= x < p ==> !EndsInCopies(s, x, n)
      decreases hi + 1 - p
    {
      found := MatchBack(s, p, n);
      CopiedIsEnding(s, p, n);
      if found {
        return;
      }
      p := p + 1;
    }
    return false;
  }

  /** Trying the phrase lengths of zero and less, from lo on: what stands before such a phrase
      is beyond the end of the text and empty, so an empty phrase repeats without end. */
  method TryEmptyPhrases(tail: string, lo: int, hi: int) returns (found: bool)
    ensures found <==> EmptyPhraseFits(tail, lo, hi)
  {
    var p := lo;
    while p <= hi && p <= 0
      invariant p >= lo
      invariant p > lo ==> lo <= 0 && |tail| > -lo
      decreases hi - p
    {
      if TailSlice(tail, p) == "" {
        return true;
      }
      p := p + 1;
    }
    return false;
  }

  /** The word test and the character test.  A negative threshold leaves no length above zero
      to try. */
  method TryPhrases(text: string, minPhrase: int, threshold: int) returns (alarm: bool)
    requires text != "" && threshold != 0 && |text| >= minPhrase * threshold
    ensures alarm <==> TextCycles(text, minPhrase, threshold)
  {
    var words, tail := SplitWords(Strip(text)), TailOf(text, minPhrase, threshold);
    if threshold >= 1 {
      PiecesFit(|words|, threshold);
      PiecesFit(|tail|, threshold);
    } else {
      NegativeDiv(|words|, threshold);
      NegativeDiv(|tail|, threshold);
    }
    if |words| >= threshold * MIN_GRAM {
      var limit := Min(MAX_GRAM, FloorDiv(|words|, threshold));
      var found := TryLengths(words, MIN_GRAM, limit, WordCopies(threshold));
      if found {
        return true;
      }
    }
    var longest := FloorDiv(|tail|, threshold);
    alarm := TryEmptyPhrases(tail, minPhrase, longest);
    if !alarm {
      alarm := TryLengths(tail, AtLeastOne(minPhrase), longest, CharCopies(threshold));
    }
  }

  /** The alarm, or nothing when the division by a threshold of zero raises. */
  method RecordAndCheckText(text: string, minPhrase: int, threshold: int) returns (alarm: Option<bool>)
    ensures alarm.None? <==> threshold == 0 && text != ""
    ensures alarm.Some? && threshold != 0 ==> (alarm.value <==> TextCycles(text, minPhrase, threshold))
    ensures text == "" ==> alarm == Some(false)
  {
    if text == "" || |text| < minPhrase * threshold {
      return Some(false);
    }
    if threshold == 0 {
      return None;
    }
    var found := TryPhrases(text, minPhrase, threshold);
    return Some(found);
  }
}
