/** When a call tries to summarise at all, said of its messages
    (src/application/kernel/context_compactor.py, lines 430-441 and 458-521). */
module CompactionTries {
  import opened Texts
  import opened Chat
  import opened SummaryFacts
  import opened Backoff
  import opened Compactor
  import opened CompactionBackoff
  import CompactionFront

  /** Longer than the budget of tokens, of four characters each. */
  predicate OverBudget(pruned: seq<Message>, budget: nat) {
    budget == 0 || Compactor.Chars(pruned) >= 4 * (budget + 1)
  }

  /** The message begins, after white space, with the marker of a summary. */
  ghost predicate Marked(m: Message) {
    exists blank: string, rest: string ::
      Blank(blank) && m.content == blank + MARKER + rest
  }

  /** Some of the middle could be summarised, and it is not all summaries already. */
  ghost predicate SomethingNew(turns: seq<Message>) {
    (exists k :: 0 <= k < |turns| && k !in Pins(turns)) ==>
      exists k :: 0 <= k < |turns| && k !in Pins(turns) && !Marked(turns[k])
  }

  lemma {:induction false} MarkedIff(m: Message)
    ensures IsSummary(m) <==> Marked(m)
  {
    if IsSummary(m) {
      var blank := StartCut(m.content, Spaces);
      var rest := StripStart(m.content, Spaces)[|MARKER|..];
      assert m.content == blank + MARKER + rest;
    }
    if Marked(m) {
      var blank: string, rest: string :| Blank(blank) && m.content == blank + MARKER + rest;
      assert m.content == blank + (MARKER + rest) && (MARKER + rest)[0] == '[';
      StripStartOf(blank, MARKER + rest, Spaces);
    }
  }

  lemma {:induction false} NewIff(turns: seq<Message>)
    ensures SomethingNew(turns) <==> !AllSummaries(Unpinned(turns, Pins(turns), 0))
  {
    var free := Unpinned(turns, Pins(turns), 0);
    forall m ensures m in free <==> exists k :: 0 <= k < |turns| && k !in Pins(turns) && turns[k] == m {
      CompactionFront.UnpinnedAre(turns, Pins(turns), 0, m);
    }
    forall m ensures IsSummary(m) <==> Marked(m) {
      MarkedIff(m);
    }
    forall k | 0 <= k < |turns| && k !in Pins(turns) ensures turns[k] in free {
    }
    if free != [] {
      assert free[0] in free;
    }
  }

  /** A call tries to summarise exactly when it is forced, or over its budget with no backoff to
      wait out; and something stands between what is kept at both ends that is not all summaries. */
  lemma {:induction false} TriedExactly(messages: seq<Message>, cfg: Config, table: Table)
    ensures var p := Prune(VisibleOnly(messages), cfg);
      Tried(messages, cfg, table) <==>
        && (cfg.force || (OverBudget(p, cfg.budget) && Remaining(table, cfg.session) == 0))
        && HasMiddle(p, cfg) && SomethingNew(PlanOf(p, cfg).middle)
  {
    WorthIff(Prune(VisibleOnly(messages), cfg), cfg);
  }

  lemma {:induction false} WorthIff(p: seq<Message>, cfg: Config)
    ensures WorthSummarizing(p, cfg) <==>
      (cfg.force || OverBudget(p, cfg.budget)) && HasMiddle(p, cfg) && SomethingNew(PlanOf(p, cfg).middle)
  {
    if HasMiddle(p, cfg) {
      NewIff(PlanOf(p, cfg).middle);
    }
  }

  // ---------------------------------------------------------------- what a call reports

  /** The call gets as far as finding that all it could summarise are summaries already. */
  ghost predicate NothingLeft(p: seq<Message>, cfg: Config) {
    (cfg.force || OverBudget(p, cfg.budget)) && HasMiddle(p, cfg) && !SomethingNew(PlanOf(p, cfg).middle)
  }

  /** The sizes before and after, the number of truncated outputs, and whether anything was done:
      messages were summarised, or outputs truncated; but truncation is not reported by a call
      that finds nothing left to summarise. */
  lemma {:induction false} MetricsAre(messages: seq<Message>, cfg: Config, tools: Tools, table: Table)
    ensures var o, v := Compacted(messages, cfg, tools, table), VisibleOnly(messages);
      && o.metrics.originalTokens == (if v == [] then 0 else EstimateTokens(v))
      && o.metrics.compactedTokens == (if v == [] then 0 else EstimateTokens(o.messages))
      && o.metrics.toolsTruncated == TruncatedCount(v, cfg)
      && (o.metrics.applied <==>
            o.metrics.turnsCompacted > 0 || (TruncatedCount(v, cfg) > 0 && !NothingLeft(Prune(v, cfg), cfg)))
  {
    var v := VisibleOnly(messages);
    var p := Prune(v, cfg);
    if v != [] {
      if HasMiddle(p, cfg) {
        NewIff(PlanOf(p, cfg).middle);
      }
      PruningReports(p, EstimateTokens(v), TruncatedCount(v, cfg), cfg, tools, table);
    }
  }

  /** The outcome reports these sizes and counts. */
  predicate Reports(o: Outcome, original: nat, truncated: nat) {
    && o.metrics.originalTokens == original && o.metrics.compactedTokens == EstimateTokens(o.messages)
    && o.metrics.toolsTruncated == truncated
  }

  lemma {:induction false} SummariesReport(p: seq<Message>, plan: Plan, original: nat, truncated: nat, cfg: Config,
                                           tools: Tools, table: Table)
    ensures var o := AfterSummaries(p, plan, original, truncated, cfg, tools, table);
      Reports(o, original, truncated) && (o.metrics.applied <==> o.metrics.turnsCompacted > 0 || truncated > 0)
  {
  }

  lemma {:induction false} PruningReports(p: seq<Message>, original: nat, truncated: nat, cfg: Config, tools: Tools,
                                          table: Table)
    ensures var o := AfterPruning(p, original, truncated, cfg, tools, table);
      var nothingNew := && (cfg.force || EstimateTokens(p) > cfg.budget)
        && HasMiddle(p, cfg) && NothingNew(PlanOf(p, cfg));
      && Reports(o, original, truncated)
      && (o.metrics.applied <==> o.metrics.turnsCompacted > 0 || (truncated > 0 && !nothingNew))
  {
    if HasMiddle(p, cfg) {
      SummariesReport(p, PlanOf(p, cfg), original, truncated, cfg, tools, table);
    }
  }
}
