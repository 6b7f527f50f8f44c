/** A call without a session id that clears another session's wait
    (src/application/kernel/context_compactor.py, lines 498-539;
    src/application/kernel/compaction_verifier.py, lines 306-310). */
module CompactionClears {
  import opened Texts
  import opened Chat
  import opened SummaryFacts
  import opened Backoff
  import opened Compactor
  import opened CompactionFacts
  import opened CompactionBackoff
  import opened CompactionLoss

  lemma {:induction false} FirstAccepted(first: Message, u: Message, tools: Tools)
    requires tools.accepts(tools.summarize([first], SUMMARY_LINES, 0), [first])
    ensures SomeAccepted([Run([first]), Kept(u, u)], tools, 0)
  {
  }

  /** The first message is summarised and accepted, and the table is empty afterwards. */
  lemma {:induction false} FourClear(first: Message, user: string, a: string, b: string, tools: Tools, table: Table)
    requires Ordinary(first) && tools.accepts(tools.summarize([first], SUMMARY_LINES, 0), [first])
    ensures Compacted(Four(first, user, a, b), TIGHT, tools, table).table == map[]
  {
    var ms := Four(first, user, a, b);
    FourTried(first, user, a, b, table);
    FourPruned(first, user, a, b);
    FourSegments(first, user, a, b);
    FirstAccepted(first, Plain(User, user), tools);
    SessionlessCallClears(ms, TIGHT, tools, table);
  }

  lemma {:induction false} NoteAccepted(text: string)
    requires !IsSummary(Plain(Assistant, text))
    ensures var run := [Plain(Assistant, text)];
      NoteTaker().accepts(NoteTaker().summarize(run, SUMMARY_LINES, 0), run)
  {
    NotePasses(text);
  }

  lemma NoteTakerChecks()
    ensures UsesCheck(NoteTaker())
  {
  }

  lemma {:induction false} NoWaitLeft(id: string, table: Table)
    requires id != "" && table == map[]
    ensures Remaining(map[id := 2], Some(id)) == 2 && Remaining(table, Some(id)) == 0
  {
  }

  /** A session that has two turns to wait, a call without a session that has its only run
      accepted by the check, and no wait left for the session. */
  lemma {:induction false} AnotherWaitIsCleared(id: string, first: Message, user: string, a: string, b: string)
    requires id != "" && Ordinary(first) && first == Plain(Assistant, first.content)
    ensures UsesCheck(NoteTaker()) && TIGHT.session == None
    ensures Remaining(map[id := 2], Some(id)) == 2
    ensures Remaining(Compacted(Four(first, user, a, b), TIGHT, NoteTaker(), map[id := 2]).table, Some(id)) == 0
  {
    NoteAccepted(first.content);
    NoteTakerChecks();
    ClearedBy(id, first, user, a, b, NoteTaker());
  }

  lemma {:induction false} ClearedBy(id: string, first: Message, user: string, a: string, b: string, tools: Tools)
    requires Ordinary(first) && tools.accepts(tools.summarize([first], SUMMARY_LINES, 0), [first]) && id != ""
    ensures Remaining(map[id := 2], Some(id)) == 2
    ensures Remaining(Compacted(Four(first, user, a, b), TIGHT, tools, map[id := 2]).table, Some(id)) == 0
  {
    FourClear(first, user, a, b, tools, map[id := 2]);
    NoWaitLeft(id, Compacted(Four(first, user, a, b), TIGHT, tools, map[id := 2]).table);
  }
}
