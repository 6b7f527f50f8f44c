/** Course steps write at most one quiz item each, and never one that nearly repeats another
    (src/application/education/grounded.py, lines 273-313; src/application/education/
    course_step_artifacts.py, lines 75-109 and the writers below it;
    src/infrastructure/memory/repositories/education_mastery_ops.py, lines 35-123). */
module Ledger {
  import opened Texts
  import opened NearDuplicates

  datatype Row = Row(prompt: string, answer: string)

  type Rows = map<string, Row>

  const LIST_LIMIT: nat := 1000

  /** A listing of the ledger: the rows in some order, at most the first thousand. */
  ghost predicate IsListing(listing: seq<(string, Row)>, rows: Rows) {
    && |listing| == (if |rows| <= LIST_LIMIT then |rows| else LIST_LIMIT)
    && (forall i, j :: 0 <= i < j < |listing| ==> listing[i].0 != listing[j].0)
    && (forall e <- listing :: e.0 in rows && rows[e.0] == e.1)
  }

  predicate NearRow(question: string, answer: string, r: Row, stop: set<string>) {
    IsNearDuplicate(question, answer, r.prompt, r.answer, stop)
  }

  /** No two items nearly repeat each other. */
  ghost predicate NoNearDuplicates(rows: Rows, stop: set<string>) {
    forall i, j :: i in rows && j in rows && i != j ==> !NearRow(rows[i].prompt, rows[i].answer, rows[j], stop)
  }

  // ---------------------------------------------------------------- composed content

  /** What the model composed for a step, as far as its quiz item goes. */
  datatype Composed = Composed(ok: bool, question: string, answer: string, duplicateOf: Option<string>)

  predicate RepeatedBy(e: (string, Row), own: string, c: Composed, stop: set<string>) {
    e.0 != own && NearRow(c.question, c.answer, e.1, stop)
  }

  /** The first listed item, other than the step's own, that the question nearly repeats. */
  function FirstRepeat(listing: seq<(string, Row)>, own: string, c: Composed, stop: set<string>): (r: Option<Row>)
    ensures r.Some? <==> exists e <- listing :: RepeatedBy(e, own, c, stop)
  {
    if listing == [] then None
    else if RepeatedBy(listing[0], own, c, stop) then Some(listing[0].1)
    else
      assert listing == [listing[0]] + listing[1..];
      FirstRepeat(listing[1..], own, c, stop)
  }

  method FindDuplicateItem(listing: seq<(string, Row)>, own: string, c: Composed, stop: set<string>)
    returns (found: Option<Row>)
    ensures found == FirstRepeat(listing, own, c, stop)
  {
    for k := 0 to |listing|
      invariant FirstRepeat(listing, own, c, stop) == FirstRepeat(listing[k..], own, c, stop)
    {
      var repeated := RepeatedBy(listing[k], own, c, stop);
      if repeated {
        return Some(listing[k].1);
      }
    }
    return None;
  }

  /** The content without its question and answer when they repeat a listed item.  Only a
      usable reply with a question is compared. */
  function Dropped(c: Composed, listing: seq<(string, Row)>, own: string, stop: set<string>): Composed {
    if !c.ok || Strip(c.question) == "" then c
    else match FirstRepeat(listing, own, c, stop)
      case None => c
      case Some(row) => c.(question := "", answer := "", duplicateOf := Some(row.prompt))
  }

  method DropDuplicateQuiz(content: Option<Composed>, listing: seq<(string, Row)>, own: string, stop: set<string>)
    returns (out: Option<Composed>)
    ensures out == Deduped(content, listing, own, stop)
  {
    if content.None? || !content.value.ok || Strip(content.value.question) == "" {
      return content;
    }
    var c := content.value;
    var dup := FindDuplicateItem(listing, own, c, stop);
    if dup.None? {
      return content;
    }
    return Some(c.(question := "", answer := "", duplicateOf := Some(dup.value.prompt)));
  }

  function Deduped(content: Option<Composed>, listing: seq<(string, Row)>, own: string, stop: set<string>)
    : Option<Composed>
  {
    match content
    case None => None
    case Some(c) => Some(Dropped(c, listing, own, stop))
  }

  // ---------------------------------------------------------------- writing a step

  datatype Step = DualCoding | Elaboration | Construction | Application | Environment

  function StepName(s: Step): string {
    match s
    case DualCoding => "dual_coding"
    case Elaboration => "elaboration"
    case Construction => "construction"
    case Application => "application"
    case Environment => "environment"
  }

  /** The item that a step on a topic (given by its slug) writes and overwrites. */
  function ItemId(slug: string, s: Step): string {
    var id := "course_" + slug + "_" + StepName(s);
    if |id| <= 48 then id else id[..48]
  }

  /** A step to write.  `noteWritten` is whether its wiki note could be created. */
  datatype Writing = Writing(
    step: Step, slug: string, dualCoding: Option<Composed>, composed: Option<Composed>,
    explanation: string, noteWritten: bool)

  /** The content that the step's writer takes its question from, if it writes a note at all. */
  function ContentUsed(w: Writing, dualCoding: Option<Composed>, composed: Option<Composed>): Option<Composed> {
    var usable := if composed.Some? && composed.value.ok then composed else None;
    match w.step
    case DualCoding =>
      var c := if dualCoding.Some? then dualCoding else composed;
      if c.Some? && c.value.ok then c else None
    case Elaboration => if Strip(w.explanation) == "" then None else usable
    case _ => usable
  }

  /** The row that a writer stores: question and answer, stripped. */
  function RowFor(c: Composed): Row {
    Row(Strip(c.question), Strip(c.answer))
  }

  /** The item that a write stores, if any, given the listing it compares with. */
  function ItemWritten(w: Writing, listing: seq<(string, Row)>, stop: set<string>): Option<Row> {
    var own := ItemId(w.slug, w.step);
    var used := ContentUsed(w, Deduped(w.dualCoding, listing, own, stop), Deduped(w.composed, listing, own, stop));
    if w.noteWritten && used.Some? && used.value.question != "" then Some(RowFor(used.value)) else None
  }

  function Written(rows: Rows, w: Writing, listing: seq<(string, Row)>, stop: set<string>): Rows {
    match ItemWritten(w, listing, stop)
    case None => rows
    case Some(row) => rows[ItemId(w.slug, w.step) := row]
  }

  class MasteryLedger {
    var rows: Rows
    const stop: set<string>

    constructor (stop: set<string>)
      ensures rows == map[] && this.stop == stop
    {
      rows := map[];
      this.stop := stop;
    }

    method Upsert(id: string, question: string, answer: string)
      modifies this
      ensures rows == old(rows)[id := Row(Strip(question), Strip(answer))]
    {
      rows := rows[id := Row(Strip(question), Strip(answer))];
    }

    /** Drop a repeated question from each content, then write the step. */
    method WriteStepArtifact(w: Writing, listing: seq<(string, Row)>) returns (itemIds: seq<string>)
      modifies this
      ensures rows == Written(old(rows), w, listing, stop)
      ensures itemIds == if ItemWritten(w, listing, stop).Some? then [ItemId(w.slug, w.step)] else []
    {
      var own := ItemId(w.slug, w.step);
      var dualCoding := DropDuplicateQuiz(w.dualCoding, listing, own, stop);
      var composed := DropDuplicateQuiz(w.composed, listing, own, stop);
      var used := ContentUsed(w, dualCoding, composed);
      itemIds := [];
      if w.noteWritten && used.Some? && used.value.question != "" {
        Upsert(own, used.value.question, used.value.answer);
        itemIds := [own];
      }
    }
  }

  // ---------------------------------------------------------------- what a write keeps

  /** A stored row that the step neither saw nor overwrites, and that the new item repeats. */
  ghost predicate HiddenRepeat(rows: Rows, listing: seq<(string, Row)>, own: string, r: Row, stop: set<string>) {
    exists id :: id in rows && id != own && (id, rows[id]) !in listing && NearRow(r.prompt, r.answer, rows[id], stop)
  }

  lemma {:induction false} StoredIsNearAsAsked(c: Composed, r: Row, stop: set<string>)
    ensures NearRow(RowFor(c).prompt, RowFor(c).answer, r, stop) == NearRow(c.question, c.answer, r, stop)
  {
    StemsOfStrip(c.question, stop);
    StemsOfStrip(c.answer, stop);
  }

  /** A question without words is never near anything. */
  lemma {:induction false} BlankIsNeverNear(c: Composed, r: Row, stop: set<string>)
    requires Strip(c.question) == ""
    ensures !NearRow(RowFor(c).prompt, RowFor(c).answer, r, stop)
  {
    assert Words(Lower("")) == [];
    assert Stems("", stop) == {};
  }

  /** Whatever item a write stores repeats no listed item but the step's own. */
  lemma {:induction false} WrittenIsFresh(w: Writing, listing: seq<(string, Row)>, stop: set<string>, e: (string, Row))
    requires ItemWritten(w, listing, stop).Some? && e in listing && e.0 != ItemId(w.slug, w.step)
    ensures var r := ItemWritten(w, listing, stop).value; !NearRow(r.prompt, r.answer, e.1, stop)
  {
    var own := ItemId(w.slug, w.step);
    var dualCoding, composed := Deduped(w.dualCoding, listing, own, stop), Deduped(w.composed, listing, own, stop);
    var used := ContentUsed(w, dualCoding, composed).value;
    if Strip(used.question) == "" {
      BlankIsNeverNear(used, e.1, stop);
    } else {
      StoredIsNearAsAsked(used, e.1, stop);
      assert FirstRepeat(listing, own, used, stop).None? ==> !RepeatedBy(e, own, used, stop);
    }
  }

  /** The exact condition for one write: a ledger without near-duplicates stays so if and only
      if the new item repeats no row beyond the listed ones. */
  lemma {:induction false} WriteKeepsIff(rows: Rows, w: Writing, listing: seq<(string, Row)>, stop: set<string>)
    requires NoNearDuplicates(rows, stop) && (forall e <- listing :: e.0 in rows && rows[e.0] == e.1)
    ensures NoNearDuplicates(Written(rows, w, listing, stop), stop) <==>
      !(ItemWritten(w, listing, stop).Some?
        && HiddenRepeat(rows, listing, ItemId(w.slug, w.step), ItemWritten(w, listing, stop).value, stop))
  {
    var own := ItemId(w.slug, w.step);
    if ItemWritten(w, listing, stop).Some? {
      var r := ItemWritten(w, listing, stop).value;
      forall id | id in rows && id != own && (id, rows[id]) in listing
        ensures !NearRow(r.prompt, r.answer, rows[id], stop)
      {
        WrittenIsFresh(w, listing, stop, (id, rows[id]));
      }
      UpsertKeepsIff(rows, own, r, stop);
    }
  }

  lemma {:induction false} UpsertKeepsIff(rows: Rows, own: string, r: Row, stop: set<string>)
    requires NoNearDuplicates(rows, stop)
    ensures NoNearDuplicates(rows[own := r], stop) <==>
      forall id :: id in rows && id != own ==> !NearRow(r.prompt, r.answer, rows[id], stop)
  {
    var after := rows[own := r];
    forall id | id in rows && id != own
      ensures NearRow(r.prompt, r.answer, rows[id], stop) == NearRow(rows[id].prompt, rows[id].answer, r, stop)
    {
      NearIsSymmetric(r.prompt, r.answer, rows[id].prompt, rows[id].answer, stop);
    }
    assert after[own] == r && forall id :: id in rows && id != own ==> after[id] == rows[id];
    if id :| id in rows && id != own && NearRow(r.prompt, r.answer, rows[id], stop) {
      assert own in after && id in after && NearRow(after[own].prompt, after[own].answer, after[id], stop);
    }
  }

  lemma {:induction false} DistinctIds(listing: seq<(string, Row)>, k: nat)
    requires k <= |listing| && forall i, j :: 0 <= i < j < |listing| ==> listing[i].0 != listing[j].0
    ensures |set i | 0 <= i < k :: listing[i].0| == k
    decreases k
  {
    var ids := set i | 0 <= i < k :: listing[i].0;
    if k == 0 {
      assert ids == {};
    } else {
      DistinctIds(listing, k - 1);
      var fewer := set i | 0 <= i < k - 1 :: listing[i].0;
      assert ids == fewer + {listing[k - 1].0} && listing[k - 1].0 !in fewer;
    }
  }

  lemma {:induction false} SameSize(a: set<string>, b: set<string>)
    requires a <= b && |a| == |b|
    ensures a == b
  {
    if x :| x in b && x !in a {
      assert |b - {x}| == |b| - 1 && a <= b - {x};
      SubsetSize(a, b - {x});
    }
  }

  lemma {:induction false} SubsetSize(a: set<string>, b: set<string>)
    requires a <= b
    ensures |a| <= |b|
  {
    assert |b| == |a| + |b - a| by {
      assert a + (b - a) == b;
    }
  }

  /** Within a thousand rows the listing shows every one. */
  lemma {:induction false} ListingIsComplete(listing: seq<(string, Row)>, rows: Rows, id: string)
    requires IsListing(listing, rows) && |rows| <= LIST_LIMIT && id in rows
    ensures (id, rows[id]) in listing
  {
    DistinctIds(listing, |listing|);
    var ids := set i | 0 <= i < |listing| :: listing[i].0;
    assert |rows.Keys| == |rows|;
    forall x | x in ids ensures x in rows.Keys {
      var i :| 0 <= i < |listing| && listing[i].0 == x;
      assert listing[i] in listing;
    }
    SameSize(ids, rows.Keys);
    assert id in ids;
    var i :| 0 <= i < |listing| && listing[i].0 == id;
    assert listing[i] in listing && listing[i] == (id, rows[id]);
  }

  // ---------------------------------------------------------------- any sequence of writes

  /** The ledger after the writes in turn; each compares with a listing of the ledger it
      finds, and finds at most a thousand rows. */
  ghost predicate WritesLead(rows: Rows, ws: seq<Writing>, stop: set<string>, after: Rows)
    decreases |ws|
  {
    if ws == [] then after == rows
    else exists listing ::
      |rows| <= LIST_LIMIT && IsListing(listing, rows)
      && WritesLead(Written(rows, ws[0], listing, stop), ws[1..], stop, after)
  }

  /** From a ledger without near-duplicates, every sequence of step writes, re-runs included,
      keeps it so while it stays within a thousand rows. */
  lemma {:induction false} LedgerStaysDistinct(rows: Rows, ws: seq<Writing>, stop: set<string>, after: Rows)
    requires NoNearDuplicates(rows, stop) && WritesLead(rows, ws, stop, after)
    ensures NoNearDuplicates(after, stop)
    decreases |ws|
  {
    if ws != [] {
      var listing :| |rows| <= LIST_LIMIT && IsListing(listing, rows)
        && WritesLead(Written(rows, ws[0], listing, stop), ws[1..], stop, after);
      WriteKeepsIff(rows, ws[0], listing, stop);
      forall id | id in rows ensures (id, rows[id]) in listing {
        ListingIsComplete(listing, rows, id);
      }
      LedgerStaysDistinct(Written(rows, ws[0], listing, stop), ws[1..], stop, after);
    }
  }
}
