/** The second attempt at a run counts as much as the first, and a third is not made
    (src/application/kernel/context_compactor.py, lines 523-539). */
module CompactionRetry {
  import opened Texts
  import opened Chat
  import opened SummaryFacts
  import opened Backoff
  import opened Compactor
  import CompactionReplaces
  import opened CompactionBackoff
  import opened CompactionLoss

  /** The text of the given attempt at the first run. */
  function Attempted(tools: Tools, first: Message, call: nat): string {
    tools.summarize([first], 10, call)
  }

  /** The first attempt is refused and the second accepted. */
  ghost predicate SecondCounts(tools: Tools, first: Message) {
    !tools.accepts(Attempted(tools, first, 0), [first]) && tools.accepts(Attempted(tools, first, 1), [first])
  }

  ghost predicate BothRefused(tools: Tools, first: Message) {
    !tools.accepts(Attempted(tools, first, 0), [first]) && !tools.accepts(Attempted(tools, first, 1), [first])
  }

  lemma {:induction false} SecondFolded(first: Message, u: Message, tools: Tools, table: Table)
    requires SecondCounts(tools, first)
    ensures var p := Fold(Progress([], 0, false, 0, table), [Run([first]), Kept(u, u)], tools, None);
      !p.failed && p.summarized == 1 && p.prefix == [Plain(Assistant, Attempted(tools, first, 1)), u]
  {
    var start := Progress([], 0, false, 0, table);
    var next := Flush(start, [first], tools, None);
    assert [] + [Plain(Assistant, Attempted(tools, first, 1))] == next.prefix;
    assert [Run([first]), Kept(u, u)][1..] == [Kept(u, u)] && [Kept(u, u)][1..] == [];
    assert Fold(next, [Kept(u, u)], tools, None) == next.(prefix := next.prefix + [u]);
  }

  lemma {:induction false} SecondSummarized(first: Message, user: string, a: string, b: string, tools: Tools,
                                            table: Table)
    requires Ordinary(first) && SecondCounts(tools, first) && HasMiddle(Four(first, user, a, b), TIGHT)
    ensures var p := Summarized(PlanOf(Four(first, user, a, b), TIGHT), TIGHT, tools, table);
      && !p.failed && p.summarized == 1
      && p.prefix == [Plain(Assistant, Attempted(tools, first, 1)), Plain(User, user)]
  {
    FourSegments(first, user, a, b);
    SecondFolded(first, Plain(User, user), tools, table);
  }

  /** A run whose second attempt is accepted is replaced by that text. */
  lemma {:induction false} SecondIsUsed(first: Message, user: string, a: string, b: string, tools: Tools, table: Table)
    requires Ordinary(first) && SecondCounts(tools, first)
    ensures Compacted(Four(first, user, a, b), TIGHT, tools, table).messages
      == Four(Plain(Assistant, Attempted(tools, first, 1)), user, a, b)
  {
    var ms, note := Four(first, user, a, b), Plain(Assistant, Attempted(tools, first, 1));
    FourTried(first, user, a, b, table);
    SecondSummarized(first, user, a, b, tools, table);
    FourPruned(first, user, a, b);
    TriedGives(ms, TIGHT, tools, table, PlanOf(ms, TIGHT));
    FourPlan(first, user, a, b);
    assert [] + [note, Plain(User, user)] + ms[2..] == Four(note, user, a, b);
  }

  lemma {:induction false} NoneAccepted(first: Message, u: Message, tools: Tools)
    requires BothRefused(tools, first)
    ensures CompactionReplaces.Accepted([Run([first]), Kept(u, u)], tools, 0) == None
  {
  }

  /** A run that is refused twice leaves the history as it was, whatever a third attempt would
      have given. */
  lemma {:induction false} RefusedTwiceStays(first: Message, user: string, a: string, b: string, tools: Tools,
                                             table: Table)
    requires Ordinary(first) && BothRefused(tools, first)
    ensures Compacted(Four(first, user, a, b), TIGHT, tools, table).messages == Four(first, user, a, b)
  {
    var ms := Four(first, user, a, b);
    FourTried(first, user, a, b, table);
    FourPruned(first, user, a, b);
    FourSegments(first, user, a, b);
    NoneAccepted(first, Plain(User, user), tools);
    AllOrNothing(ms, TIGHT, tools, table);
  }
}
