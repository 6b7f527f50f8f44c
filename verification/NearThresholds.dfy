/** Which overlaps make two quiz items near, said of questions given as lists of words
    (src/application/education/grounded.py, lines 29, 66-71 and 242-270). */
module NearThresholds {
  import opened Texts
  import opened NearDuplicates

  predicate LowerAz(c: char) {
    'a' <= c <= 'z'
  }

  /** What a word may hold after its first letter. */
  predicate WordSign(c: char) {
    LowerAz(c) || '0' <= c <= '9' || c == '-'
  }

  /** A word that is its own stem: three to five of these, a letter first. */
  predicate ShortWord(w: string) {
    3 <= |w| <= 5 && LowerAz(w[0]) && forall c <- w :: WordSign(c)
  }

  /** Such words, none of them a stop word and none twice. */
  predicate WordList(ws: seq<string>, stop: set<string>) {
    (forall w <- ws :: ShortWord(w) && w !in stop) && forall i, j :: 0 <= i < j < |ws| ==> ws[i] != ws[j]
  }

  function SetOf(ws: seq<string>): set<string> {
    set w | w in ws
  }

  function Sentence(ws: seq<string>): string {
    Join(" ", ws)
  }

  // ---------------------------------------------------------------- the words of a sentence

  /** A letter first, and at least three characters. */
  predicate LongEnough(w: string) {
    |w| >= 3 && LowerAz(w[0]) && forall c <- w :: WordSign(c)
  }

  lemma {:induction false} TailRuns(w: string, rest: string)
    requires (forall c <- w :: WordSign(c)) && (rest == "" || rest[0] == ' ')
    ensures WordTail(w + rest) == |w|
  {
    if w == "" {
      assert w + rest == rest;
    } else {
      assert w[0] in w && (w + rest)[1..] == w[1..] + rest && forall c <- w[1..] :: c in w;
      TailRuns(w[1..], rest);
    }
  }

  lemma {:induction false} WordFirst(w: string, rest: string)
    requires LongEnough(w) && (rest == "" || rest[0] == ' ')
    ensures Words(w + rest) == [w] + Words(rest)
  {
    var s := w + rest;
    assert s[1..] == w[1..] + rest && forall c <- w[1..] :: c in w;
    TailRuns(w[1..], rest);
    assert s[..|w|] == w && s[|w|..] == rest;
  }

  lemma {:induction false} SpaceSkipped(rest: string)
    ensures Words(" " + rest) == Words(rest)
  {
    assert (" " + rest)[1..] == rest;
  }

  lemma {:induction false} WordsOfSentence(ws: seq<string>)
    requires forall w <- ws :: LongEnough(w)
    ensures Words(Sentence(ws)) == ws
  {
    if ws != [] {
      assert ws[0] in ws && forall w <- ws[1..] :: w in ws;
      WordsOfSentence(ws[1..]);
      if |ws| == 1 {
        WordFirst(ws[0], "");
        assert ws[0] + "" == ws[0] && ws == [ws[0]];
      } else {
        WordFirst(ws[0], " " + Sentence(ws[1..]));
        SpaceSkipped(Sentence(ws[1..]));
        FirstOfJoin(ws);
      }
    }
  }

  lemma {:induction false} LowerOfConcat(a: string, b: string)
    ensures Lower(a + b) == Lower(a) + Lower(b)
  {
  }

  lemma {:induction false} LowerOfWord(w: string)
    requires forall c <- w :: WordSign(c)
    ensures Lower(w) == w
  {
    assert forall i :: 0 <= i < |w| ==> w[i] in w;
  }

  lemma {:induction false} LowerOfSentence(ws: seq<string>)
    requires forall w <- ws :: LongEnough(w)
    ensures Lower(Sentence(ws)) == Sentence(ws)
  {
    if ws != [] {
      assert ws[0] in ws && forall w <- ws[1..] :: w in ws;
      LowerOfWord(ws[0]);
      LowerOfSentence(ws[1..]);
      if |ws| > 1 {
        FirstOfJoin(ws);
        LowerOfConcat(ws[0], " " + Sentence(ws[1..]));
        LowerOfConcat(" ", Sentence(ws[1..]));
        assert Lower(" ") == " ";
      }
    }
  }

  lemma {:induction false} ListIsLong(ws: seq<string>, stop: set<string>)
    requires WordList(ws, stop)
    ensures forall w <- ws :: LongEnough(w) && w !in stop && Stem(w) == w
  {
  }

  /** The stems of such a sentence are its words. */
  lemma {:induction false} StemsOfSentence(ws: seq<string>, stop: set<string>)
    requires WordList(ws, stop)
    ensures Stems(Sentence(ws), stop) == SetOf(ws)
  {
    ListIsLong(ws, stop);
    LowerOfSentence(ws);
    WordsOfSentence(ws);
    assert Stems(Sentence(ws), stop) == set w <- ws | w !in stop :: Stem(w);
  }

  /** In any sentence of words, those that are stop words do not count, and the others count by
      their first five characters. */
  lemma {:induction false} StemsAre(ws: seq<string>, stop: set<string>, t: string)
    requires forall w <- ws :: LongEnough(w)
    ensures t in Stems(Sentence(ws), stop) <==>
      exists w <- ws :: w !in stop && t == if |w| <= 5 then w else w[..5]
  {
    LowerOfSentence(ws);
    WordsOfSentence(ws);
  }

  /** The same text but for capitals. */
  predicate SameLetters(a: string, b: string) {
    |a| == |b| && forall i :: 0 <= i < |a| ==>
      a[i] == b[i] || ('A' <= a[i] <= 'Z' && LowerAz(b[i]) && b[i] as int - a[i] as int == 32)
  }

  lemma {:induction false} CapitalsDoNotCount(a: string, b: string, stop: set<string>)
    requires SameLetters(a, b)
    ensures Stems(a, stop) == Stems(b, stop)
  {
    assert Lower(a) == Lower(b);
  }

  /** Words of one or two characters do not count. */
  lemma {:induction false} ShortWordsDoNotCount(w: string, rest: string)
    requires |w| <= 2 && forall c <- w :: WordSign(c)
    ensures Words(w + (" " + rest)) == Words(rest)
  {
    SpaceSkipped(rest);
    var s := w + (" " + rest);
    if w == "" {
      assert s == " " + rest;
    } else {
      assert forall c <- w[1..] :: c in w;
      TailRuns(w[1..], " " + rest);
      assert s[1..] == w[1..] + (" " + rest);
      ShortWordsDoNotCount(w[1..], rest);
    }
  }

  /** Numbers do not count, nor does anything else without a letter. */
  lemma {:induction false} NumbersDoNotCount(w: string, rest: string)
    requires forall c <- w :: WordSign(c) && !LowerAz(c)
    ensures Words(w + (" " + rest)) == Words(rest)
  {
    var s := w + (" " + rest);
    if w == "" {
      SpaceSkipped(rest);
      assert s == " " + rest;
    } else {
      assert w[0] in w && forall c <- w[1..] :: c in w;
      NumbersDoNotCount(w[1..], rest);
      assert s[1..] == w[1..] + (" " + rest) && s[0] == w[0];
    }
  }

  /** A longer word counts by its first five letters. */
  lemma {:induction false} LongWordsByStart(start: string, a: string, b: string, stop: set<string>)
    requires |start| == 5 && LongEnough(start + a) && LongEnough(start + b)
    requires start + a !in stop && start + b !in stop
    ensures Stems(start + a, stop) == Stems(start + b, stop) == {start}
  {
    StemOfOne(start, a, stop);
    StemOfOne(start, b, stop);
  }

  lemma {:induction false} StemOfOne(start: string, a: string, stop: set<string>)
    requires |start| == 5 && LongEnough(start + a) && start + a !in stop
    ensures Stems(start + a, stop) == {start}
  {
    var w := start + a;
    LowerOfWord(w);
    WordFirst(w, "");
    assert w + "" == w && Words("") == [] && Words(w) == [w];
    assert Stem(w) == start by {
      assert w[..5] == start;
      if |w| == 5 {
        assert a == "" && w == start;
      }
    }
  }

  // ---------------------------------------------------------------- counting

  lemma {:induction false} SizeOfList(ws: seq<string>)
    requires forall i, j :: 0 <= i < j < |ws| ==> ws[i] != ws[j]
    ensures |SetOf(ws)| == |ws|
  {
    if ws != [] {
      var front, last := ws[..|ws| - 1], ws[|ws| - 1];
      SizeOfList(front);
      assert ws == front + [last] && last !in front;
      assert SetOf(ws) == SetOf(front) + {last};
    }
  }

  /** Shared words and the words that only one of two lists has. */
  predicate Parts(shared: seq<string>, one: seq<string>, two: seq<string>, stop: set<string>) {
    WordList(shared + one + two, stop)
  }

  lemma {:induction false} PartsAreLists(shared: seq<string>, one: seq<string>, two: seq<string>, stop: set<string>)
    requires Parts(shared, one, two, stop)
    ensures WordList(shared + one, stop) && WordList(shared + two, stop) && WordList(shared, stop)
  {
    var all := shared + one + two;
    assert forall i :: 0 <= i < |shared + one| ==> (shared + one)[i] == all[i];
    assert forall i :: 0 <= i < |shared| ==> shared[i] == all[i];
    SharedAndTwo(shared, one, two, stop);
  }

  lemma {:induction false} SharedAndTwo(shared: seq<string>, one: seq<string>, two: seq<string>, stop: set<string>)
    requires Parts(shared, one, two, stop)
    ensures WordList(shared + two, stop)
  {
    var all, part := shared + one + two, shared + two;
    forall i | 0 <= i < |part| ensures part[i] == all[if i < |shared| then i else i + |one|] {
    }
  }

  /** How many words two such lists have in common, and in all. */
  lemma {:induction false} Overlap(shared: seq<string>, one: seq<string>, two: seq<string>, stop: set<string>)
    requires Parts(shared, one, two, stop)
    ensures var a, b := SetOf(shared + one), SetOf(shared + two);
      && |a| == |shared| + |one| && |b| == |shared| + |two|
      && |a * b| == |shared| && |a + b| == |shared| + |one| + |two|
  {
    var a, b, all := SetOf(shared + one), SetOf(shared + two), shared + one + two;
    PartsAreLists(shared, one, two, stop);
    SizeOfList(shared + one);
    SizeOfList(shared + two);
    SizeOfList(shared);
    SizeOfList(all);
    OnlyShared(shared, one, two, stop);
    assert a + b == SetOf(all);
  }

  lemma {:induction false} OnlyShared(shared: seq<string>, one: seq<string>, two: seq<string>, stop: set<string>)
    requires Parts(shared, one, two, stop)
    ensures SetOf(shared + one) * SetOf(shared + two) == SetOf(shared)
  {
    var all := shared + one + two;
    forall i, j | 0 <= i < |one| && 0 <= j < |two| ensures one[i] != two[j] {
      assert all[|shared| + i] == one[i] && all[|shared| + |one| + j] == two[j];
    }
  }

  // ---------------------------------------------------------------- the thresholds

  function Fewer(a: nat, b: nat): nat {
    if a <= b then a else b
  }

  /** Two items are near if and only if twice the words that their questions share are three
      times the others or more; or four times the shared ones are all the others or more, and
      the shorter answer has three words of which four fifths are in the other. */
  lemma {:induction false} NearIff(shared: seq<string>, one: seq<string>, two: seq<string>,
                                   known: seq<string>, first: seq<string>, second: seq<string>, stop: set<string>)
    requires Parts(shared, one, two, stop) && Parts(known, first, second, stop)
    ensures var shorter := |known| + Fewer(|first|, |second|);
      IsNearDuplicate(Sentence(shared + one), Sentence(known + first), Sentence(shared + two), Sentence(known + second),
                      stop)
      <==>
        && shared + one != [] && shared + two != []
        && (|| 2 * |shared| >= 3 * (|one| + |two|)
            || (shorter >= 3 && 4 * |shared| >= |one| + |two| && 5 * |known| >= 4 * shorter))
  {
    PartsAreLists(shared, one, two, stop);
    PartsAreLists(known, first, second, stop);
    StemsOfSentence(shared + one, stop);
    StemsOfSentence(shared + two, stop);
    StemsOfSentence(known + first, stop);
    StemsOfSentence(known + second, stop);
    Overlap(shared, one, two, stop);
    Overlap(known, first, second, stop);
    NearByCounts(SetOf(shared + one), SetOf(known + first), SetOf(shared + two), SetOf(known + second));
  }

  lemma NearByCounts(q1: set<string>, a1: set<string>, q2: set<string>, a2: set<string>)
    ensures StemsNear(q1, a1, q2, a2) <==>
      && |q1| != 0 && |q2| != 0
      && (|| 5 * |q1 * q2| >= 3 * |q1 + q2|
          || (Fewer(|a1|, |a2|) >= 3 && 5 * |q1 * q2| >= |q1 + q2| && 5 * |a1 * a2| >= 4 * Fewer(|a1|, |a2|)))
  {
  }

  /** Three shared words beside one other in each question are near whatever the answers are;
      two are not unless the answers agree. */
  lemma {:induction false} ThreeOfFiveIsNear(s: seq<string>, x: string, y: string, a: seq<string>, b: seq<string>,
                                             stop: set<string>)
    requires |s| in {2, 3} && Parts(s, [x], [y], stop) && Parts([], a, b, stop)
    ensures IsNearDuplicate(Sentence(s + [x]), Sentence(a), Sentence(s + [y]), Sentence(b), stop) <==> |s| == 3
  {
    NearIff(s, [x], [y], [], a, b, stop);
    assert [] + a == a && [] + b == b;
  }
}
