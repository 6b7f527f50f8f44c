/** What a step cannot see: a ledger of a thousand and one rows
    (src/application/education/grounded.py, lines 273-294;
    src/application/education/course_step_artifacts.py, lines 84-108). */
module LedgerLimit {
  import opened Texts
  import opened NearDuplicates
  import opened Ledger

  const BLANK: Row := Row("", "")

  function BlankId(k: nat): string {
    seq(k, i => 'x')
  }

  /** n rows without a question. */
  function Blanks(n: nat): Rows {
    if n == 0 then map[] else Blanks(n - 1)[BlankId(n - 1) := BLANK]
  }

  function BlankListing(n: nat): seq<(string, Row)> {
    seq(n, k requires 0 <= k < n => (BlankId(k), BLANK))
  }

  lemma {:induction false} BlanksAre(n: nat, id: string)
    ensures |Blanks(n)| == n
    ensures id in Blanks(n) <==> |id| < n && id == BlankId(|id|)
    ensures id in Blanks(n) ==> Blanks(n)[id] == BLANK
  {
    if n > 0 {
      BlanksAre(n - 1, id);
      BlanksAre(n - 1, BlankId(n - 1));
    }
  }

  const HIDDEN: string := "hidden"

  /** A thousand rows without a question, and one with. */
  function Crowded(question: string, answer: string): Rows {
    Blanks(LIST_LIMIT)[HIDDEN := Row(question, answer)]
  }

  lemma {:induction false} NoQuestionIsNear(question: string, answer: string, stop: set<string>)
    ensures !NearRow("", "", Row(question, answer), stop) && !NearRow(question, answer, BLANK, stop)
  {
    assert Words(Lower("")) == [];
    assert Stems("", stop) == {};
  }

  lemma {:induction false} CrowdedRow(question: string, answer: string, id: string)
    ensures var rows := Crowded(question, answer);
      && |rows| == LIST_LIMIT + 1
      && (id in rows <==> id == HIDDEN || (|id| < LIST_LIMIT && id == BlankId(|id|)))
      && (id in rows && id != HIDDEN ==> rows[id] == BLANK)
  {
    BlanksAre(LIST_LIMIT, id);
    BlanksAre(LIST_LIMIT, HIDDEN);
    BlankIsNotHidden(6);
  }

  lemma {:induction false} BlankIsNotHidden(k: nat)
    ensures BlankId(k) != HIDDEN
  {
    if k > 0 {
      assert BlankId(k)[0] == 'x' && HIDDEN[0] == 'h';
    }
  }

  lemma {:induction false} CrowdedIsDistinct(question: string, answer: string, stop: set<string>)
    ensures NoNearDuplicates(Crowded(question, answer), stop)
  {
    var rows := Crowded(question, answer);
    forall i, j | i in rows && j in rows && i != j
      ensures !NearRow(rows[i].prompt, rows[i].answer, rows[j], stop)
    {
      CrowdedRow(question, answer, i);
      CrowdedRow(question, answer, j);
      NoQuestionIsNear(rows[i].prompt, rows[i].answer, stop);
      NoQuestionIsNear(rows[j].prompt, rows[j].answer, stop);
    }
  }

  lemma {:induction false} BlankIsThere(question: string, answer: string, k: nat)
    requires k < LIST_LIMIT
    ensures BlankId(k) in Crowded(question, answer) && Crowded(question, answer)[BlankId(k)] == BLANK
  {
    CrowdedRow(question, answer, BlankId(k));
    BlankIsNotHidden(k);
  }

  lemma {:induction false} DistinctBlanks(i: nat, j: nat)
    requires i < j
    ensures BlankId(i) != BlankId(j)
  {
    assert |BlankId(i)| == i && |BlankId(j)| == j;
  }

  lemma {:induction false} BlanksCanBeListed(question: string, answer: string)
    ensures IsListing(BlankListing(LIST_LIMIT), Crowded(question, answer))
  {
    var listing, rows := BlankListing(LIST_LIMIT), Crowded(question, answer);
    CrowdedRow(question, answer, HIDDEN);
    forall i, j | 0 <= i < j < |listing| ensures listing[i].0 != listing[j].0 {
      DistinctBlanks(i, j);
    }
    forall e | e in listing ensures e.0 in rows && rows[e.0] == e.1 {
      var k :| 0 <= k < LIST_LIMIT && e == listing[k];
      BlankIsThere(question, answer, k);
    }
  }

  lemma {:induction false} BlanksRepeatNothing(n: nat, own: string, c: Composed, stop: set<string>)
    ensures FirstRepeat(BlankListing(n), own, c, stop) == None
  {
    forall e | e in BlankListing(n) ensures !RepeatedBy(e, own, c, stop) {
      NoQuestionIsNear(c.question, c.answer, stop);
    }
  }

  /** Writing a question that an unlisted row has. */
  function Repeating(slug: string, question: string, answer: string): Writing {
    Writing(Construction, slug, None, Some(Composed(true, question, answer, None)), "", true)
  }

  lemma {:induction false} RepeatIsWritten(slug: string, question: string, answer: string, stop: set<string>)
    requires Stems(question, stop) != {}
    ensures ItemWritten(Repeating(slug, question, answer), BlankListing(LIST_LIMIT), stop)
      == Some(Row(Strip(question), Strip(answer)))
  {
    var c := Composed(true, question, answer, None);
    assert Words(Lower("")) == [];
    StemsOfStrip(question, stop);
    BlanksRepeatNothing(LIST_LIMIT, ItemId(slug, Construction), c, stop);
  }

  lemma {:induction false} NearItself(question: string, answer: string, stop: set<string>)
    requires Stems(question, stop) != {}
    ensures NearRow(question, answer, Row(question, answer), stop)
  {
    var q := Stems(question, stop);
    assert q * q == q && q + q == q;
  }

  /** A ledger of a thousand and one rows without near-duplicates, a listing of it, and a write
      that compares with that listing and stores a near-duplicate. */
  lemma {:induction false} UnlistedRowIsRepeated(slug: string, question: string, answer: string, stop: set<string>)
    requires Stems(question, stop) != {}
    ensures var rows, listing := Crowded(question, answer), BlankListing(LIST_LIMIT);
      && |rows| == 1001 && NoNearDuplicates(rows, stop) && IsListing(listing, rows)
      && !NoNearDuplicates(Written(rows, Repeating(slug, question, answer), listing, stop), stop)
  {
    var rows, own := Crowded(question, answer), ItemId(slug, Construction);
    CrowdedRow(question, answer, HIDDEN);
    CrowdedIsDistinct(question, answer, stop);
    BlanksCanBeListed(question, answer);
    RepeatIsWritten(slug, question, answer, stop);
    var stored := Row(Strip(question), Strip(answer));
    NearItself(question, answer, stop);
    StoredIsNearAsAsked(Composed(true, question, answer, None), Row(question, answer), stop);
    assert own[0] == 'c' && HIDDEN[0] == 'h';
    var after := rows[own := stored];
    assert own in after && HIDDEN in after && NearRow(after[own].prompt, after[own].answer, after[HIDDEN], stop);
  }

  lemma {:induction false} AStem()
    ensures Stems("abc", {}) != {}
  {
    var w := Lower("abc");
    assert w == "abc";
    assert WordTail("") == 0 && "c"[1..] == "" && "bc"[1..] == "c" && w[1..] == "bc";
    assert WordTail("c") == 1 && WordTail("bc") == 2 && WordLength(w) == 3;
    assert Words(w)[0] == "abc";
    assert Stem("abc") in Stems("abc", {});
  }

  /** For example the question "abc". */
  lemma {:induction false} AQuestionIsRepeated(slug: string)
    ensures var rows, listing := Crowded("abc", ""), BlankListing(LIST_LIMIT);
      && IsListing(listing, rows) && NoNearDuplicates(rows, {})
      && !NoNearDuplicates(Written(rows, Repeating(slug, "abc", ""), listing, {}), {})
  {
    AStem();
    UnlistedRowIsRepeated(slug, "abc", "", {});
  }
}
