/** All or nothing, and how long a failed session waits
    (src/application/kernel/context_compactor.py, lines 498-557;
    src/application/kernel/compaction_verifier.py, lines 289-310). */
module CompactionBackoff {
  import opened Texts
  import opened Chat
  import opened Backoff
  import opened Compactor
  import opened CompactionReplaces

  // ---------------------------------------------------------------- the table over one compaction

  /** What folding leaves in the table: a refused run stores the wait, accepted runs clear. */
  function TableAfter(t: Table, segs: seq<Segment>, tools: Tools, calls: nat, session: Option<string>): Table {
    if segs == [] then t
    else match segs[0]
      case Kept(_, _) => TableAfter(t, segs[1..], tools, calls, session)
      case Run(run) =>
        var tries := TrySummary(run, tools, calls);
        if tries.text.None? then SetTurns(t, session, DEFAULT_TURNS)
        else TableAfter(Reset(t, session), segs[1..], tools, tries.calls, session)
  }

  lemma {:induction false} FoldTable(p: Progress, segs: seq<Segment>, tools: Tools, session: Option<string>)
    requires !p.failed
    requires forall k :: 0 <= k < |segs| && segs[k].Run? ==> segs[k].messages != []
    ensures Fold(p, segs, tools, session).table == TableAfter(p.table, segs, tools, p.calls, session)
    decreases |segs|
  {
    if segs != [] {
      assert forall k :: 0 <= k < |segs| - 1 ==> segs[1..][k] == segs[k + 1];
      match segs[0]
      case Kept(_, kept) => FoldTable(p.(prefix := p.prefix + [kept]), segs[1..], tools, session);
      case Run(run) =>
        var next := Flush(p, run, tools, session);
        if next.failed {
          FoldFailed(next, segs[1..], tools, session);
        } else {
          FoldTable(next, segs[1..], tools, session);
        }
    }
  }

  /** With a session: 2 turns to wait after a refusal, none after acceptance, other sessions
      untouched.  Without one: nothing stored, but one accepted run clears every session. */
  lemma {:induction false} TableOutcome(t: Table, segs: seq<Segment>, tools: Tools, calls: nat, session: Option<string>)
    ensures var after := TableAfter(t, segs, tools, calls, session);
      var ok := Accepted(segs, tools, calls).Some?;
      && (HasSession(session) && !ok ==> after == t[session.value := 2])
      && (HasSession(session) && ok && RunCount(segs) > 0 ==> after == t - {session.value})
      && (ok && RunCount(segs) == 0 ==> after == t)
      && (session == None ==> after == if SomeAccepted(segs, tools, calls) then map[] else t)
  {
    if segs != [] {
      match segs[0]
      case Kept(_, _) => TableOutcome(t, segs[1..], tools, calls, session);
      case Run(run) =>
        var tries := TrySummary(run, tools, calls);
        if tries.text.Some? {
          TableOutcome(Reset(t, session), segs[1..], tools, tries.calls, session);
        }
    }
  }

  /** At least one run of this compaction is accepted before any is refused. */
  predicate SomeAccepted(segs: seq<Segment>, tools: Tools, calls: nat) {
    segs != [] &&
    match segs[0]
    case Kept(_, _) => SomeAccepted(segs[1..], tools, calls)
    case Run(run) => TrySummary(run, tools, calls).text.Some?
  }

  // ---------------------------------------------------------------- one call

  /** An automatic call that reaches the check while turns remain. */
  predicate SkippedByBackoff(messages: seq<Message>, cfg: Config, table: Table)
  {
    ReachesBackoff(messages, cfg) && !cfg.force && Remaining(table, cfg.session) > 0
  }

  predicate Tried(messages: seq<Message>, cfg: Config, table: Table)
  {
    ReachesBackoff(messages, cfg) && (cfg.force || Remaining(table, cfg.session) == 0)
  }

  function PlanFor(messages: seq<Message>, cfg: Config): Plan
    requires HasMiddle(Prune(VisibleOnly(messages), cfg), cfg)
  {
    PlanOf(Prune(VisibleOnly(messages), cfg), cfg)
  }

  lemma PruneLength(messages: seq<Message>, cfg: Config)
    ensures Prune(messages, cfg) == [] <==> messages == []
  {
  }

  lemma {:induction false} TriedCall(messages: seq<Message>, cfg: Config, tools: Tools, table: Table)
    requires Tried(messages, cfg, table)
    ensures var visible := VisibleOnly(messages);
      Compacted(messages, cfg, tools, table) ==
        AfterSummaries(Prune(visible, cfg), PlanFor(messages, cfg), EstimateTokens(visible),
                       TruncatedCount(visible, cfg), cfg, tools, table)
  {
    PruneLength(VisibleOnly(messages), cfg);
  }

  lemma {:induction false} EarlyExit(pruned: seq<Message>, original: nat, truncated: nat, cfg: Config, tools: Tools,
                                     table: Table)
    requires !WorthSummarizing(pruned, cfg)
    ensures var o := AfterPruning(pruned, original, truncated, cfg, tools, table);
      o.messages == pruned && o.metrics.turnsCompacted == 0 && o.table == table
  {
  }

  lemma {:induction false} BackoffExit(pruned: seq<Message>, original: nat, truncated: nat, cfg: Config, tools: Tools,
                                       table: Table)
    requires WorthSummarizing(pruned, cfg) && !cfg.force && Remaining(table, cfg.session) > 0
    ensures var o := AfterPruning(pruned, original, truncated, cfg, tools, table);
      o.messages == pruned && o.metrics.turnsCompacted == 0 && o.table == Consume(table, cfg.session)
  {
  }

  lemma {:induction false} UntriedCall(messages: seq<Message>, cfg: Config, tools: Tools, table: Table)
    requires !Tried(messages, cfg, table)
    ensures var o := Compacted(messages, cfg, tools, table);
      && o.messages == Prune(VisibleOnly(messages), cfg) && o.metrics.turnsCompacted == 0
      && o.table == if SkippedByBackoff(messages, cfg, table) then Consume(table, cfg.session) else table
  {
    var visible := VisibleOnly(messages);
    var pruned, original, truncated := Prune(visible, cfg), EstimateTokens(visible), TruncatedCount(visible, cfg);
    PruneLength(visible, cfg);
    if visible != [] {
      if WorthSummarizing(pruned, cfg) {
        BackoffExit(pruned, original, truncated, cfg, tools, table);
      } else {
        EarlyExit(pruned, original, truncated, cfg, tools, table);
      }
    }
  }

  /** All or nothing: when any run is refused twice, the result is the pruned history with no
      summary from any other run, and the session has two turns to wait. */
  lemma {:induction false} AllOrNothing(messages: seq<Message>, cfg: Config, tools: Tools, table: Table)
    requires Tried(messages, cfg, table)
    requires Accepted(PlanFor(messages, cfg).Segs(), tools, 0) == None
    ensures var o := Compacted(messages, cfg, tools, table);
      && o.messages == Prune(VisibleOnly(messages), cfg) && o.metrics.turnsCompacted == 0
      && (HasSession(cfg.session) ==> o.table == table[cfg.session.value := 2])
  {
    TriedCall(messages, cfg, tools, table);
    var plan := PlanFor(messages, cfg);
    TableOfTried(messages, cfg, tools, table);
    SummarizedReplaces(plan, cfg, tools, table);
    TableOutcome(table, plan.Segs(), tools, 0, cfg.session);
  }

  lemma {:induction false} TableOfTried(messages: seq<Message>, cfg: Config, tools: Tools, table: Table)
    requires Tried(messages, cfg, table)
    ensures Compacted(messages, cfg, tools, table).table
      == TableAfter(table, PlanFor(messages, cfg).Segs(), tools, 0, cfg.session)
  {
    TriedCall(messages, cfg, tools, table);
    var plan := PlanFor(messages, cfg);
    PlanSegments(plan);
    FoldTable(Progress([], 0, false, 0, table), plan.Segs(), tools, cfg.session);
  }

  /** A session-less call that has a run accepted clears the wait of every session. */
  lemma {:induction false} SessionlessCallClears(messages: seq<Message>, cfg: Config, tools: Tools, table: Table)
    requires cfg.session == None
    ensures Compacted(messages, cfg, tools, table).table ==
      if Tried(messages, cfg, table) && SomeAccepted(PlanFor(messages, cfg).Segs(), tools, 0) then map[] else table
  {
    if Tried(messages, cfg, table) {
      TableOfTried(messages, cfg, tools, table);
      TableOutcome(table, PlanFor(messages, cfg).Segs(), tools, 0, cfg.session);
    } else {
      UntriedCall(messages, cfg, tools, table);
    }
  }

  /** When messages really are replaced. */
  lemma {:induction false} CompactsExactlyWhen(messages: seq<Message>, cfg: Config, tools: Tools, table: Table)
    ensures var o := Compacted(messages, cfg, tools, table);
      var visible := VisibleOnly(messages);
      o.metrics.turnsCompacted > 0 <==>
        && Tried(messages, cfg, table)
        && (var segs := PlanFor(messages, cfg).Segs();
            var texts := Accepted(segs, tools, 0);
            && texts.Some? && RunCount(segs) > 0
            && (cfg.force && TruncatedCount(visible, cfg) == 0 ==>
                  |texts.value| == RunCount(segs)
                  && (var plan := PlanFor(messages, cfg);
                      EstimateTokens(plan.head + Rebuilt(segs, texts.value) + plan.recent) < EstimateTokens(visible))))
  {
    if Tried(messages, cfg, table) {
      var visible := VisibleOnly(messages);
      TriedCall(messages, cfg, tools, table);
      ReplacedWhen(Prune(visible, cfg), PlanFor(messages, cfg), EstimateTokens(visible), TruncatedCount(visible, cfg),
                   cfg, tools, table);
    } else {
      UntriedCall(messages, cfg, tools, table);
    }
  }

  lemma {:induction false} ReplacedWhen(pruned: seq<Message>, plan: Plan, original: nat, truncated: nat, cfg: Config,
                                        tools: Tools, table: Table)
    ensures var segs := plan.Segs();
      var texts := Accepted(segs, tools, 0);
      AfterSummaries(pruned, plan, original, truncated, cfg, tools, table).metrics.turnsCompacted > 0 <==>
        && texts.Some? && RunCount(segs) > 0
        && (cfg.force && truncated == 0 ==>
              |texts.value| == RunCount(segs)
              && EstimateTokens(plan.head + Rebuilt(segs, texts.value) + plan.recent) < original)
  {
    SummarizedReplaces(plan, cfg, tools, table);
    PlanSegments(plan);
    FoldReplaces(Progress([], 0, false, 0, table), plan.Segs(), tools, cfg.session);
    RunsHaveMessages(plan.Segs());
  }

  lemma {:induction false} RunsHaveMessages(segs: seq<Segment>)
    requires forall k :: 0 <= k < |segs| && segs[k].Run? ==> segs[k].messages != []
    ensures RunMessages(segs) > 0 <==> RunCount(segs) > 0
  {
    if segs != [] {
      assert forall k :: 0 <= k < |segs| - 1 ==> segs[1..][k] == segs[k + 1];
      RunsHaveMessages(segs[1..]);
    }
  }

  // ---------------------------------------------------------------- later calls

  datatype Call = Call(messages: seq<Message>, cfg: Config, tools: Tools)

  /** Calls after which session id's wait is only counted down by its own automatic calls:
      any call of another session, and automatic calls of this one. */
  predicate LeavesWait(c: Call, id: string) {
    && c.cfg.session.Some?
    && (c.cfg.session.value == id ==> !c.cfg.force)
  }

  function After(table: Table, calls: seq<Call>): Table
  {
    if calls == [] then table
    else
      var c := calls[|calls| - 1];
      Compacted(c.messages, c.cfg, c.tools, After(table, calls[..|calls| - 1])).table
  }

  /** How many of the calls are for session id and reach the backoff check. */
  function Reaching(calls: seq<Call>, id: string): nat
  {
    if calls == [] then 0
    else
      var c := calls[|calls| - 1];
      Reaching(calls[..|calls| - 1], id)
      + if c.cfg.session == Some(id) && ReachesBackoff(c.messages, c.cfg) then 1 else 0
  }

  lemma {:induction false} OtherSessionUntouched(c: Call, id: string, table: Table)
    requires c.cfg.session.Some? && c.cfg.session.value != id
    ensures var after := Compacted(c.messages, c.cfg, c.tools, table).table;
      Remaining(after, Some(id)) == Remaining(table, Some(id))
  {
    if Tried(c.messages, c.cfg, table) {
      TableOfTried(c.messages, c.cfg, c.tools, table);
      OtherKeysUntouched(table, PlanFor(c.messages, c.cfg).Segs(), c.tools, 0, c.cfg.session, id);
    } else {
      UntriedCall(c.messages, c.cfg, c.tools, table);
    }
  }

  lemma {:induction false} OtherKeysUntouched(t: Table, segs: seq<Segment>, tools: Tools, calls: nat,
                                              session: Option<string>, id: string)
    requires session.Some? && session.value != id
    ensures Remaining(TableAfter(t, segs, tools, calls, session), Some(id)) == Remaining(t, Some(id))
    decreases |segs|
  {
    if segs != [] {
      match segs[0]
      case Kept(_, _) => OtherKeysUntouched(t, segs[1..], tools, calls, session, id);
      case Run(run) =>
        var tries := TrySummary(run, tools, calls);
        if tries.text.Some? {
          OtherKeysUntouched(Reset(t, session), segs[1..], tools, tries.calls, session, id);
        }
    }
  }

  lemma {:induction false} WaitCountsDown(table: Table, calls: seq<Call>, id: string)
    requires id != "" && id in table && table[id] == 2
    requires forall c <- calls :: LeavesWait(c, id)
    requires Reaching(calls, id) <= 2
    ensures Remaining(After(table, calls), Some(id)) == 2 - Reaching(calls, id)
  {
    if calls != [] {
      var before, c := calls[..|calls| - 1], calls[|calls| - 1];
      assert c in calls && forall x <- before :: x in calls;
      WaitCountsDown(table, before, id);
      if c.cfg.session == Some(id) {
        UntriedCall(c.messages, c.cfg, c.tools, After(table, before));
      } else {
        OtherSessionUntouched(c, id, After(table, before));
      }
    }
  }

  /** Exactly the next two automatic calls of the session that reach the check are skipped:
      the call after `calls` is skipped iff fewer than two have reached it, and it is tried
      when exactly two have. */
  lemma {:induction false} ExactlyTwoSkipped(table: Table, calls: seq<Call>, c: Call, id: string)
    requires id != "" && id in table && table[id] == 2
    requires forall x <- calls + [c] :: LeavesWait(x, id)
    requires c.cfg.session == Some(id) && ReachesBackoff(c.messages, c.cfg)
    requires Reaching(calls, id) <= 2
    ensures SkippedByBackoff(c.messages, c.cfg, After(table, calls)) <==> Reaching(calls, id) < 2
    ensures Tried(c.messages, c.cfg, After(table, calls)) <==> Reaching(calls, id) == 2
  {
    assert c in calls + [c] && forall x <- calls :: x in calls + [c];
    WaitCountsDown(table, calls, id);
  }
}
