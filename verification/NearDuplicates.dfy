/** When two quiz items ask essentially the same thing
    (src/application/education/grounded.py, lines 29, 66-71 and 242-270). */
module NearDuplicates {
  import opened Texts

  // ---------------------------------------------------------------- word stems

  function LowerChar(c: char): char {
    if 'A' <= c <= 'Z' then (c as int + 32) as char else c
  }

  function Lower(s: string): string {
    seq(|s|, i requires 0 <= i < |s| => LowerChar(s[i]))
  }

  predicate StartsWord(c: char) {
    'a' <= c <= 'z'
  }

  predicate ContinuesWord(c: char) {
    'a' <= c <= 'z' || '0' <= c <= '9' || c == '-'
  }

  function WordTail(s: string): (n: nat)
    ensures n <= |s|
  {
    if s != "" && ContinuesWord(s[0]) then 1 + WordTail(s[1..]) else 0
  }

  /** The length of the word that starts at the start of s, or 0: a letter and at least two
      letters, digits or hyphens. */
  function WordLength(s: string): (n: nat)
    ensures n <= |s|
  {
    if s != "" && StartsWord(s[0]) && WordTail(s[1..]) >= 2 then 1 + WordTail(s[1..]) else 0
  }

  function Words(s: string): seq<string>
    decreases |s|
  {
    if s == "" then []
    else
      var n := WordLength(s);
      if n == 0 then Words(s[1..]) else [s[..n]] + Words(s[n..])
  }

  function Stem(w: string): string {
    if |w| <= 5 then w else w[..5]
  }

  /** The stems of a text's words, stop words left out. */
  function Stems(text: string, stop: set<string>): set<string> {
    set w <- Words(Lower(text)) | w !in stop :: Stem(w)
  }

  // ---------------------------------------------------------------- surrounding white space

  lemma {:induction false} TailBeforeSpace(s: string, c: char)
    requires IsSpace(c)
    ensures WordTail(s + [c]) == WordTail(s)
  {
    if s != "" {
      assert (s + [c])[1..] == s[1..] + [c];
      TailBeforeSpace(s[1..], c);
    }
  }

  lemma {:induction false} WordsBeforeSpace(s: string, c: char)
    requires IsSpace(c)
    ensures Words(s + [c]) == Words(s)
    decreases |s|
  {
    var t := s + [c];
    if s == "" {
      assert t[1..] == "";
    } else {
      assert t[1..] == s[1..] + [c];
      TailBeforeSpace(s[1..], c);
      var n := WordLength(s);
      if n == 0 {
        WordsBeforeSpace(s[1..], c);
      } else {
        assert t[n..] == s[n..] + [c] && t[..n] == s[..n];
        WordsBeforeSpace(s[n..], c);
      }
    }
  }

  lemma {:induction false} WordsOfStripEnd(s: string)
    ensures Words(Lower(StripEnd(s, Spaces))) == Words(Lower(s))
  {
    if s != "" && IsSpace(s[|s| - 1]) {
      var front := s[..|s| - 1];
      WordsOfStripEnd(front);
      assert Lower(s) == Lower(front) + [s[|s| - 1]];
      WordsBeforeSpace(Lower(front), s[|s| - 1]);
    }
  }

  lemma {:induction false} WordsOfStripStart(s: string)
    ensures Words(Lower(StripStart(s, Spaces))) == Words(Lower(s))
  {
    if s != "" && IsSpace(s[0]) {
      WordsOfStripStart(s[1..]);
      assert Lower(s)[1..] == Lower(s[1..]) && WordLength(Lower(s)) == 0;
    }
  }

  /** Storing a text stripped does not change its stems. */
  lemma {:induction false} StemsOfStrip(text: string, stop: set<string>)
    ensures Stems(Strip(text), stop) == Stems(text, stop)
  {
    WordsOfStripStart(text);
    WordsOfStripEnd(StripStart(text, Spaces));
  }

  // ---------------------------------------------------------------- similarity

  function Smaller(a: set<string>, b: set<string>): nat {
    if |a| <= |b| then |a| else |b|
  }

  /** The question stems overlap by three fifths; or by a fifth, and four fifths of the
      smaller answer, of at least three stems, are in the other. */
  predicate StemsNear(q1: set<string>, a1: set<string>, q2: set<string>, a2: set<string>) {
    q1 != {} && q2 != {} &&
    (|| 5 * |q1 * q2| >= 3 * |q1 + q2|
     || (Smaller(a1, a2) >= 3 && 5 * |q1 * q2| >= |q1 + q2| && 5 * |a1 * a2| >= 4 * Smaller(a1, a2)))
  }

  predicate IsNearDuplicate(question: string, answer: string, question2: string, answer2: string, stop: set<string>) {
    StemsNear(Stems(question, stop), Stems(answer, stop), Stems(question2, stop), Stems(answer2, stop))
  }

  lemma NearIsSymmetric(q1: string, a1: string, q2: string, a2: string, stop: set<string>)
    ensures IsNearDuplicate(q1, a1, q2, a2, stop) == IsNearDuplicate(q2, a2, q1, a1, stop)
  {
    var s1, s2, t1, t2 := Stems(q1, stop), Stems(q2, stop), Stems(a1, stop), Stems(a2, stop);
    assert s1 * s2 == s2 * s1 && s1 + s2 == s2 + s1 && t1 * t2 == t2 * t1;
  }
}
