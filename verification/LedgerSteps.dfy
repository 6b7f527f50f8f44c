/** Which row a course step writes, and what it takes its question from
    (src/application/education/course_step_artifacts.py, lines 75-109, 200-290 and 350-510). */
module LedgerSteps {
  import opened Texts
  import opened NearDuplicates
  import opened Ledger

  // ---------------------------------------------------------------- rows of their own

  /** Where the step's name begins in an item id. */
  function NameAt(slug: string): nat {
    8 + |slug|
  }

  lemma {:induction false} IdSign(slug: string, s: Step, k: nat)
    requires k < |StepName(s)| && NameAt(slug) + k < 48
    ensures NameAt(slug) + k < |ItemId(slug, s)| && ItemId(slug, s)[NameAt(slug) + k] == StepName(s)[k]
  {
  }

  /** The first two letters of their names tell the steps apart. */
  lemma StepsDiffer(s: Step, t: Step)
    requires s != t
    ensures |StepName(s)| >= 2 && |StepName(t)| >= 2
    ensures StepName(s)[0] != StepName(t)[0] || StepName(s)[1] != StepName(t)[1]
  {
  }

  lemma {:induction false} ShortSlugApart(slug: string, s: Step, t: Step)
    requires |slug| <= 38 && s != t
    ensures ItemId(slug, s) != ItemId(slug, t)
  {
    StepsDiffer(s, t);
    IdSign(slug, s, 0);
    IdSign(slug, s, 1);
    IdSign(slug, t, 0);
    IdSign(slug, t, 1);
  }

  lemma {:induction false} CutBefore(a: string, b: string, c: string)
    requires |a| >= 48
    ensures (a + b)[..48] == (a + c)[..48]
  {
  }

  lemma {:induction false} LongSlugShares(slug: string)
    requires |slug| >= 39
    ensures ItemId(slug, Elaboration) == ItemId(slug, Environment)
  {
    var start := "course_" + slug + "_" + "e";
    assert "course_" + slug + "_" + StepName(Elaboration) == start + "laboration";
    assert "course_" + slug + "_" + StepName(Environment) == start + "nvironment";
    CutBefore(start, "laboration", "nvironment");
  }

  ghost predicate RowsOfTheirOwn(slug: string) {
    forall s, t :: s != t ==> ItemId(slug, s) != ItemId(slug, t)
  }

  /** The steps of a topic have rows of their own if and only if its slug has at most 38
      characters; slugs may have 48. */
  lemma {:induction false} OwnRowsIff(slug: string)
    ensures RowsOfTheirOwn(slug) <==> |slug| <= 38
  {
    if |slug| <= 38 {
      forall s, t | s != t ensures ItemId(slug, s) != ItemId(slug, t) {
        ShortSlugApart(slug, s, t);
      }
    } else {
      LongSlugShares(slug);
    }
  }

  /** From 41 characters on all steps write the same row. */
  lemma {:induction false} VeryLongSlugShares(slug: string, s: Step, t: Step)
    requires |slug| >= 41
    ensures ItemId(slug, s) == ItemId(slug, t) == ("course_" + slug)[..48]
  {
    OneRow(slug, s);
    OneRow(slug, t);
  }

  lemma {:induction false} OneRow(slug: string, s: Step)
    requires |slug| >= 41
    ensures ItemId(slug, s) == ("course_" + slug)[..48]
  {
    var start := "course_" + slug;
    assert "course_" + slug + "_" + StepName(s) == start + ("_" + StepName(s));
    CutBefore(start, "_" + StepName(s), "");
    assert start + "" == start;
  }

  /** A step of a topic leaves the rows of its other steps alone, if the slug is short enough. */
  lemma {:induction false} OtherStepsKept(rows: Rows, w: Writing, listing: seq<(string, Row)>, stop: set<string>,
                                          s: Step)
    requires |w.slug| <= 38 && s != w.step
    ensures var id, after := ItemId(w.slug, s), Written(rows, w, listing, stop);
      (id in after <==> id in rows) && (id in rows ==> after[id] == rows[id])
  {
    ShortSlugApart(w.slug, s, w.step);
  }

  // ---------------------------------------------------------------- what is stored

  /** Content with a question that repeats no listed item but the step's own. */
  ghost predicate Fresh(c: Composed, listing: seq<(string, Row)>, own: string, stop: set<string>) {
    && c.ok && Strip(c.question) != ""
    && forall e <- listing :: e.0 != own ==> !NearRow(c.question, c.answer, e.1, stop)
  }

  lemma {:induction false} FreshStays(c: Composed, listing: seq<(string, Row)>, own: string, stop: set<string>)
    requires Fresh(c, listing, own, stop)
    ensures Deduped(Some(c), listing, own, stop) == Some(c) && c.question != ""
  {
    assert FirstRepeat(listing, own, c, stop) == None;
    assert Strip("") == "";
  }

  /** Construction, application and environment store the composed question, stripped; dual
      coding prefers its own content; elaboration stores nothing without an explanation. */
  lemma {:induction false} StoredIs(w: Writing, listing: seq<(string, Row)>, stop: set<string>, c: Composed)
    requires w.noteWritten && Fresh(c, listing, ItemId(w.slug, w.step), stop)
    ensures w.step in {Construction, Application, Environment} && w.composed == Some(c) ==>
      ItemWritten(w, listing, stop) == Some(Row(Strip(c.question), Strip(c.answer)))
    ensures w.step == DualCoding && (w.dualCoding == Some(c) || (w.dualCoding == None && w.composed == Some(c))) ==>
      ItemWritten(w, listing, stop) == Some(Row(Strip(c.question), Strip(c.answer)))
    ensures w.step == Elaboration && w.composed == Some(c) ==>
      ItemWritten(w, listing, stop) ==
        if Strip(w.explanation) == "" then None else Some(Row(Strip(c.question), Strip(c.answer)))
  {
    FreshStays(c, listing, ItemId(w.slug, w.step), stop);
  }

  /** A question of white space only is compared with nothing and stored as an empty one. */
  lemma {:induction false} BlankIsStored(w: Writing, listing: seq<(string, Row)>, stop: set<string>, c: Composed)
    requires w.noteWritten && w.step in {Construction, Application, Environment} && w.composed == Some(c)
    requires c.ok && c.question != "" && Strip(c.question) == ""
    ensures ItemWritten(w, listing, stop) == Some(Row("", Strip(c.answer)))
  {
  }

  /** Nothing is stored for a step without a note, without usable content, or whose question
      repeats a listed item of another step. */
  lemma {:induction false} NothingIsStored(w: Writing, listing: seq<(string, Row)>, stop: set<string>)
    requires
      || !w.noteWritten
      || (w.step != DualCoding && w.composed == None)
      || (w.step != DualCoding && w.composed.Some? && !w.composed.value.ok)
    ensures ItemWritten(w, listing, stop) == None && Written(map[], w, listing, stop) == map[]
  {
  }

  lemma {:induction false} RepeatIsNotStored(w: Writing, listing: seq<(string, Row)>, stop: set<string>, c: Composed,
                                             e: (string, Row))
    requires w.step != DualCoding && w.composed == Some(c) && c.ok
    requires e in listing && e.0 != ItemId(w.slug, w.step) && NearRow(c.question, c.answer, e.1, stop)
    ensures ItemWritten(w, listing, stop) == None
  {
    var own := ItemId(w.slug, w.step);
    assert Strip(c.question) != "" by {
      if Strip(c.question) == "" {
        BlankIsNeverNear(c, e.1, stop);
        StoredIsNearAsAsked(c, e.1, stop);
      }
    }
    assert RepeatedBy(e, own, c, stop);
  }

  // ---------------------------------------------------------------- what is dropped

  /** Listed item k is the first that the question of the content nearly repeats. */
  predicate FirstRepeatAt(listing: seq<(string, Row)>, own: string, c: Composed, stop: set<string>, k: nat) {
    k < |listing| && RepeatedBy(listing[k], own, c, stop)
    && forall m :: 0 <= m < k ==> !RepeatedBy(listing[m], own, c, stop)
  }

  lemma {:induction false} FirstRepeatIs(listing: seq<(string, Row)>, own: string, c: Composed, stop: set<string>,
                                         k: nat)
    requires FirstRepeatAt(listing, own, c, stop, k)
    ensures FirstRepeat(listing, own, c, stop) == Some(listing[k].1)
  {
    if k > 0 {
      assert FirstRepeatAt(listing[1..], own, c, stop, k - 1) by {
        assert forall m :: 0 <= m < k - 1 ==> listing[1..][m] == listing[m + 1];
      }
      FirstRepeatIs(listing[1..], own, c, stop, k - 1);
    }
  }

  /** A usable content loses both question and answer when its question nearly repeats a listed
      item, and names the first such item. */
  lemma {:induction false} RepeatIsDropped(c: Composed, listing: seq<(string, Row)>, own: string, stop: set<string>,
                                           k: nat)
    requires c.ok && Strip(c.question) != "" && FirstRepeatAt(listing, own, c, stop, k)
    ensures Deduped(Some(c), listing, own, stop) == Some(Composed(true, "", "", Some(listing[k].1.prompt)))
  {
    FirstRepeatIs(listing, own, c, stop, k);
  }

  /** Any other content is left as it is. */
  lemma {:induction false} OthersAreKept(c: Composed, listing: seq<(string, Row)>, own: string, stop: set<string>)
    requires !c.ok || Strip(c.question) == "" || forall e <- listing :: !RepeatedBy(e, own, c, stop)
    ensures Deduped(Some(c), listing, own, stop) == Some(c)
  {
  }
}
