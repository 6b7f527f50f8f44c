/** Rewriting a chat history to fit the model's window
    (src/application/kernel/context_compactor.py, lines 286-595).

    `Compacted` says what one call gives; the method of the same shape as the source is
    proved to compute it.  The files CompactionReplaces, CompactionFacts, CompactionPairing
    and CompactionBackoff prove what that result means. */
module Compactor {
  import opened Texts
  import opened Chat
  import opened SummaryFacts
  import opened SummaryCheck
  import opened Backoff

  /** A summarizer sees the run, the line limit, and which call of this compaction it is;
      the check sees the candidate and the run. */
  datatype Tools = Tools(summarize: (seq<Message>, int, nat) -> string, accepts: (string, seq<Message>) -> bool)

  /** Short runs need not get shorter. */
  predicate MustShrink(run: seq<Message>) {
    |RenderOriginal(run)| > 360
  }

  /** The check that the source uses. */
  predicate Verified(candidate: string, run: seq<Message>) {
    CheckSummary(candidate, run, MustShrink(run)) == []
  }

  ghost predicate UsesCheck(tools: Tools) {
    forall candidate, run :: tools.accepts(candidate, run) == Verified(candidate, run)
  }

  const SUMMARY_LINES: int := 10

  /** The budgets are taken as resolved; `headChars` of a long tool output are kept at its
      start and the rest of the limit at its end.  `artifact` is the line naming the file that
      the full output was saved to, or empty. */
  datatype Config = Config(
    budget: nat, toolChars: nat, headChars: nat, keepLastTurns: int, preserveRoot: bool, force: bool,
    session: Option<string>, artifact: Message -> string)
  {
    /** How much of a long output is kept at its start: at most the whole limit. */
    function Head(): nat {
      if headChars <= toolChars then headChars else toolChars
    }

    function Keep(): nat {
      if keepLastTurns * 2 < 2 then 2 else keepLastTurns * 2
    }
  }

  // ---------------------------------------------------------------- sizes and tool outputs

  function CallChars(calls: seq<ToolCall>): nat {
    if calls == [] then 0 else |calls[0].name| + |calls[0].argText| + CallChars(calls[1..])
  }

  function Chars(ms: seq<Message>): nat {
    if ms == [] then 0 else |ms[0].content| + CallChars(ms[0].toolCalls) + Chars(ms[1..])
  }

  function EstimateTokens(ms: seq<Message>): nat {
    if Chars(ms) / 4 < 1 then 1 else Chars(ms) / 4
  }

  predicate IsVisible(m: Message) {
    m.role != SkillProposal && m.role != Note
  }

  function VisibleOnly(ms: seq<Message>): seq<Message> {
    if ms == [] then [] else (if IsVisible(ms[0]) then [ms[0]] else []) + VisibleOnly(ms[1..])
  }

  predicate Oversized(m: Message, cfg: Config) {
    m.role == Tool && |m.content| > cfg.toolChars
  }

  function TruncatedText(m: Message, cfg: Config): string
    requires Oversized(m, cfg)
  {
    var omitted := |m.content| - cfg.toolChars;
    cfg.artifact(m) + m.content[..cfg.Head()] + OmissionNote(omitted)
    + m.content[|m.content| - (cfg.toolChars - cfg.Head())..]
  }

  function OmissionNote(omitted: nat): string {
    "\n\n... [TRUNCATED: " + Decimal(omitted) + " characters omitted for context budget] ...\n\n"
  }

  function PruneOne(m: Message, cfg: Config): Message
  {
    if Oversized(m, cfg) then Message(m.role, TruncatedText(m, cfg), [], m.toolCallId, m.name) else m
  }

  /** Truncation keeps both ends of the output, together as long as the limit, but does not
      bound the result by the limit. */
  lemma {:induction false} TruncationKeepsEnds(m: Message, cfg: Config)
    requires Oversized(m, cfg)
    ensures var r, head, tail := PruneOne(m, cfg).content, cfg.Head(), cfg.toolChars - cfg.Head();
      && cfg.artifact(m) + m.content[..head] <= r
      && |r| >= tail && r[|r| - tail..] == m.content[|m.content| - tail..]
      && PruneOne(m, cfg) == Message(Tool, r, [], m.toolCallId, m.name)
      && |r| == |cfg.artifact(m)| + cfg.toolChars + |OmissionNote(|m.content| - cfg.toolChars)| > cfg.toolChars
  {
  }

  /** So a truncated output is truncated again by the next call: the limit is never met. */
  lemma {:induction false} TruncationRepeats(m: Message, cfg: Config)
    ensures Oversized(PruneOne(m, cfg), cfg) <==> Oversized(m, cfg)
  {
    if Oversized(m, cfg) {
      TruncationKeepsEnds(m, cfg);
    }
  }

  function Prune(ms: seq<Message>, cfg: Config): seq<Message>
  {
    seq(|ms|, i requires 0 <= i < |ms| => PruneOne(ms[i], cfg))
  }

  function TruncatedCount(ms: seq<Message>, cfg: Config): nat {
    if ms == [] then 0
    else TruncatedCount(ms[..|ms| - 1], cfg) + if Oversized(ms[|ms| - 1], cfg) then 1 else 0
  }

  // ---------------------------------------------------------------- what stays outside the middle

  /** The system message and, when preserved, the first user message. */
  function HeadCount(ms: seq<Message>, preserveRoot: bool): (n: nat)
    ensures n <= |ms|
  {
    var system := if ms != [] && ms[0].role == System then 1 else 0;
    if preserveRoot && system < |ms| && ms[system].role == User then system + 1 else system
  }

  /** The recent window never opens on a tool return whose call would be compacted away. */
  function Retreat(turns: seq<Message>, split: nat): (n: nat)
    requires split < |turns|
    ensures n <= split
    ensures n > 0 ==> turns[n].role != Tool
    ensures forall i :: n < i <= split ==> turns[i].role == Tool
  {
    if split > 0 && turns[split].role == Tool then Retreat(turns, split - 1) else split
  }

  // ---------------------------------------------------------------- pinned messages

  const SKILL_VIEW: string := "skill_view"

  /** The last skill_view call among calls. */
  function LastView(calls: seq<ToolCall>): Option<ToolCall> {
    if calls == [] then None
    else if calls[|calls| - 1].name == SKILL_VIEW then Some(calls[|calls| - 1])
    else LastView(calls[..|calls| - 1])
  }

  predicate IsReturn(m: Message, id: string) {
    m.role == Tool && m.toolCallId == Some(id)
  }

  /** The first return of call id from index i on, or |turns|. */
  function FirstReturn(turns: seq<Message>, i: nat, id: string): (r: nat)
    requires i <= |turns|
    ensures i <= r <= |turns|
    ensures r < |turns| ==> IsReturn(turns[r], id)
    decreases |turns| - i
  {
    if i == |turns| || IsReturn(turns[i], id) then i else FirstReturn(turns, i + 1, id)
  }

  /** Turn c is an assistant message whose last skill_view call is answered later on. */
  predicate AnsweredView(turns: seq<Message>, c: nat) {
    && c < |turns| && turns[c].role == Assistant && LastView(turns[c].toolCalls).Some?
    && FirstReturn(turns, c + 1, LastView(turns[c].toolCalls).value.id) < |turns|
  }

  /** The latest answered skill_view before index n, or none. */
  function LatestView(turns: seq<Message>, n: nat): (r: Option<nat>)
    ensures r.Some? ==> r.value < n && AnsweredView(turns, r.value)
  {
    if n == 0 then None
    else if AnsweredView(turns, n - 1) then Some(n - 1)
    else LatestView(turns, n - 1)
  }

  function LatestUser(turns: seq<Message>, n: nat): (r: Option<nat>)
    requires n <= |turns|
    ensures r.Some? ==> r.value < n && turns[r.value].role == User
  {
    if n == 0 then None else if turns[n - 1].role == User then Some(n - 1) else LatestUser(turns, n - 1)
  }

  function UserPin(turns: seq<Message>): map<nat, Message> {
    match LatestUser(turns, |turns|)
    case None => map[]
    case Some(u) => map[u := turns[u]]
  }

  function ViewPin(turns: seq<Message>): map<nat, Message> {
    match LatestView(turns, |turns|)
    case None => map[]
    case Some(c) =>
      var call := LastView(turns[c].toolCalls).value;
      var r := FirstReturn(turns, c + 1, call.id);
      map[c := turns[c].(toolCalls := [call]), r := turns[r]]
  }

  /** The latest user message and the latest answered skill_view with its return; the
      calling message keeps that one call only. */
  function Pins(turns: seq<Message>): map<nat, Message> {
    UserPin(turns) + ViewPin(turns)
  }

  method PinnedIntermediate(turns: seq<Message>) returns (pinned: map<nat, Message>)
    ensures pinned == Pins(turns)
  {
    pinned := map[];
    var idx: nat := |turns|;
    while idx > 0
      invariant idx <= |turns| && pinned == map[]
      invariant LatestUser(turns, idx) == LatestUser(turns, |turns|)
    {
      idx := idx - 1;
      if turns[idx].role == User {
        pinned := pinned[idx := turns[idx]];
        break;
      }
    }
    assert pinned == UserPin(turns);
    var cidx: nat := |turns|;
    while cidx > 0
      invariant cidx <= |turns| && pinned == UserPin(turns)
      invariant LatestView(turns, cidx) == LatestView(turns, |turns|)
    {
      cidx := cidx - 1;
      var view := LastView(turns[cidx].toolCalls);
      if turns[cidx].role != Assistant || view.None? {
        continue;
      }
      var ridx := FirstReturn(turns, cidx + 1, view.value.id);
      if ridx < |turns| {
        pinned := pinned[cidx := turns[cidx].(toolCalls := [view.value])];
        pinned := pinned[ridx := turns[ridx]];
        break;
      }
    }
  }

  // ---------------------------------------------------------------- runs

  datatype Segment = Kept(original: Message, kept: Message) | Run(messages: seq<Message>)

  function Closed(run: seq<Message>): seq<Segment> {
    if run == [] then [] else [Run(run)]
  }

  /** The turns from index i on, cut at the pinned ones; `run` is the run being collected. */
  function Segments(turns: seq<Message>, pins: map<nat, Message>, i: nat, run: seq<Message>): seq<Segment>
    requires i <= |turns|
    decreases |turns| - i
  {
    if i == |turns| then Closed(run)
    else if i in pins then Closed(run) + [Kept(turns[i], pins[i])] + Segments(turns, pins, i + 1, [])
    else Segments(turns, pins, i + 1, run + [turns[i]])
  }

  function Unpinned(turns: seq<Message>, pins: map<nat, Message>, i: nat): seq<Message>
    requires i <= |turns|
    decreases |turns| - i
  {
    if i == |turns| then []
    else (if i in pins then [] else [turns[i]]) + Unpinned(turns, pins, i + 1)
  }

  // ---------------------------------------------------------------- summarizing runs

  /** The accepted text, if any, and the number of summarizer calls made so far. */
  datatype Tries = Tries(text: Option<string>, calls: nat)

  /** Two attempts at a run. */
  function TrySummary(run: seq<Message>, tools: Tools, calls: nat): Tries {
    var first, second := tools.summarize(run, SUMMARY_LINES, calls), tools.summarize(run, SUMMARY_LINES, calls + 1);
    if tools.accepts(first, run) then Tries(Some(first), calls + 1)
    else if tools.accepts(second, run) then Tries(Some(second), calls + 2)
    else Tries(None, calls + 2)
  }

  datatype Progress = Progress(prefix: seq<Message>, summarized: nat, failed: bool, calls: nat, table: Table)

  function Flush(p: Progress, run: seq<Message>, tools: Tools, session: Option<string>): Progress {
    if run == [] then p
    else if p.failed then p.(prefix := p.prefix + run)
    else
      var tries := TrySummary(run, tools, p.calls);
      match tries.text
      case Some(text) =>
        Progress(p.prefix + [Plain(Assistant, text)], p.summarized + |run|, false, tries.calls,
                 Reset(p.table, session))
      case None =>
        Progress(p.prefix + run, p.summarized, true, tries.calls, SetTurns(p.table, session, DEFAULT_TURNS))
  }

  function Fold(p: Progress, segs: seq<Segment>, tools: Tools, session: Option<string>): Progress
    decreases |segs|
  {
    if segs == [] then p
    else
      var next := match segs[0]
        case Kept(_, kept) => p.(prefix := p.prefix + [kept])
        case Run(run) => Flush(p, run, tools, session);
      Fold(next, segs[1..], tools, session)
  }

  // ---------------------------------------------------------------- one call

  datatype Metrics = Metrics(
    originalTokens: nat, compactedTokens: nat, turnsCompacted: nat, toolsTruncated: nat, applied: bool)

  datatype Outcome = Outcome(messages: seq<Message>, metrics: Metrics, table: Table)

  /** The pieces of a history that a compaction works with: what is kept in front, the
      middle, and the recent window. */
  datatype Plan = Plan(head: seq<Message>, middle: seq<Message>, recent: seq<Message>)
  {
    function Segs(): seq<Segment> {
      Segments(middle, Pins(middle), 0, [])
    }
  }

  /** The history is longer than what is kept anyway. */
  predicate HasMiddle(pruned: seq<Message>, cfg: Config) {
    |pruned| - HeadCount(pruned, cfg.preserveRoot) > cfg.Keep()
  }

  function PlanOf(pruned: seq<Message>, cfg: Config): Plan
    requires HasMiddle(pruned, cfg)
  {
    var head := HeadCount(pruned, cfg.preserveRoot);
    CutTurns(pruned[..head], pruned[head..], cfg.Keep())
  }

  /** The turns after the head, cut where the recent window begins. */
  function CutTurns(head: seq<Message>, turns: seq<Message>, keep: nat): Plan
    requires 0 < keep < |turns|
  {
    var split := Retreat(turns, |turns| - keep);
    Plan(head, turns[..split], turns[split..])
  }

  /** Every unpinned middle message is already a summary, and there is one. */
  predicate NothingNew(plan: Plan) {
    AllSummaries(Unpinned(plan.middle, Pins(plan.middle), 0))
  }

  predicate AllSummaries(ms: seq<Message>) {
    ms != [] && forall m <- ms :: IsSummary(m)
  }

  function Unchanged(pruned: seq<Message>, original: nat, truncated: nat, applied: bool, table: Table): Outcome {
    Outcome(pruned, Metrics(original, EstimateTokens(pruned), 0, truncated, applied), table)
  }

  function Summarized(plan: Plan, cfg: Config, tools: Tools, table: Table): Progress {
    Fold(Progress([], 0, false, 0, table), plan.Segs(), tools, cfg.session)
  }

  function AfterSummaries(pruned: seq<Message>, plan: Plan, original: nat, truncated: nat, cfg: Config,
                          tools: Tools, table: Table): Outcome
  {
    var p := Summarized(plan, cfg, tools, table);
    var compacted := plan.head + p.prefix + plan.recent;
    var tokens := EstimateTokens(compacted);
    if p.failed then Unchanged(pruned, original, truncated, truncated > 0, p.table)
    else if (p.summarized > 0 && (cfg.force ==> tokens < original)) || truncated > 0 then
      Outcome(compacted, Metrics(original, tokens, p.summarized, truncated, true), p.table)
    else Unchanged(pruned, original, truncated, false, p.table)
  }

  /** Over budget or forced, and there is something new to summarise. */
  predicate WorthSummarizing(pruned: seq<Message>, cfg: Config) {
    && (cfg.force || EstimateTokens(pruned) > cfg.budget)
    && HasMiddle(pruned, cfg) && !NothingNew(PlanOf(pruned, cfg))
  }

  /** The call gets as far as the backoff check. */
  predicate ReachesBackoff(messages: seq<Message>, cfg: Config) {
    var pruned := Prune(VisibleOnly(messages), cfg);
    pruned != [] && WorthSummarizing(pruned, cfg)
  }

  function Compacted(messages: seq<Message>, cfg: Config, tools: Tools, table: Table): Outcome
  {
    var visible := VisibleOnly(messages);
    if visible == [] then Outcome([], Metrics(0, 0, 0, 0, false), table)
    else
      var pruned := Prune(visible, cfg);
      AfterPruning(pruned, EstimateTokens(visible), TruncatedCount(visible, cfg), cfg, tools, table)
  }

  function AfterPruning(pruned: seq<Message>, original: nat, truncated: nat, cfg: Config,
                        tools: Tools, table: Table): Outcome
  {
    if !cfg.force && EstimateTokens(pruned) <= cfg.budget then
      Unchanged(pruned, original, truncated, truncated > 0, table)
    else if !HasMiddle(pruned, cfg) then Unchanged(pruned, original, truncated, truncated > 0, table)
    else if NothingNew(PlanOf(pruned, cfg)) then Unchanged(pruned, original, truncated, false, table)
    else if !cfg.force && Remaining(table, cfg.session) > 0 then
      Unchanged(pruned, original, truncated, truncated > 0, Consume(table, cfg.session))
    else AfterSummaries(pruned, PlanOf(pruned, cfg), original, truncated, cfg, tools, table)
  }

  // ---------------------------------------------------------------- the call as the source makes it

  method PruneTools(messages: seq<Message>, cfg: Config) returns (pruned: seq<Message>, truncated: nat)
    ensures pruned == Prune(messages, cfg) && truncated == TruncatedCount(messages, cfg)
  {
    pruned, truncated := [], 0;
    for i := 0 to |messages|
      invariant pruned == Prune(messages[..i], cfg) && truncated == TruncatedCount(messages[..i], cfg)
    {
      assert messages[..i + 1][..i] == messages[..i];
      pruned := pruned + [PruneOne(messages[i], cfg)];
      if Oversized(messages[i], cfg) {
        truncated := truncated + 1;
      }
    }
    assert messages[..|messages|] == messages;
  }

  /** The attempts of one run: the first accepted candidate wins. */
  method TryTwice(run: seq<Message>, tools: Tools, before: nat) returns (tries: Tries)
    ensures tries == TrySummary(run, tools, before)
  {
    var calls := before;
    for attempt := 1 to 3
      invariant calls == before + attempt - 1
      invariant attempt >= 2 ==> !tools.accepts(tools.summarize(run, SUMMARY_LINES, before), run)
      invariant attempt >= 3 ==> !tools.accepts(tools.summarize(run, SUMMARY_LINES, before + 1), run)
    {
      var candidate := tools.summarize(run, SUMMARY_LINES, calls);
      calls := calls + 1;
      var accepted := tools.accepts(candidate, run);
      if accepted {
        return Tries(Some(candidate), calls);
      }
    }
    return Tries(None, calls);
  }

  method FlushRun(p: Progress, run: seq<Message>, tools: Tools, session: Option<string>,
                  backoff: SessionBackoff)
    returns (next: Progress)
    requires p.table == backoff.turns
    modifies backoff
    ensures next == Flush(p, run, tools, session) && next.table == backoff.turns
  {
    if run == [] {
      return p;
    }
    if p.failed {
      return p.(prefix := p.prefix + run);
    }
    var tries := TryTwice(run, tools, p.calls);
    match tries.text {
      case Some(text) =>
        backoff.ResetCompactionBackoff(session);
        next := Progress(p.prefix + [Plain(Assistant, text)], p.summarized + |run|, false, tries.calls, backoff.turns);
      case None =>
        backoff.SetCompactionBackoff(session, DEFAULT_TURNS);
        next := Progress(p.prefix + run, p.summarized, true, tries.calls, backoff.turns);
    }
  }

  method SummarizeRuns(turns: seq<Message>, pinned: map<nat, Message>, tools: Tools,
                       session: Option<string>, backoff: SessionBackoff)
    returns (p: Progress)
    modifies backoff
    ensures p == Fold(Progress([], 0, false, 0, old(backoff.turns)), Segments(turns, pinned, 0, []), tools, session)
    ensures p.table == backoff.turns
  {
    p := Progress([], 0, false, 0, backoff.turns);
    var run := [];
    for i := 0 to |turns|
      invariant p.table == backoff.turns
      invariant Fold(p, Segments(turns, pinned, i, run), tools, session)
        == Fold(Progress([], 0, false, 0, old(backoff.turns)), Segments(turns, pinned, 0, []), tools, session)
    {
      if i in pinned {
        FoldKept(p, run, turns[i], pinned[i], Segments(turns, pinned, i + 1, []), tools, session);
        p := FlushRun(p, run, tools, session, backoff);
        run := [];
        p := p.(prefix := p.prefix + [pinned[i]]);
      } else {
        run := run + [turns[i]];
      }
    }
    FoldClosed(p, run, tools, session);
    p := FlushRun(p, run, tools, session, backoff);
  }

  lemma {:induction false} FoldClosed(p: Progress, run: seq<Message>, tools: Tools, session: Option<string>)
    ensures Fold(p, Closed(run), tools, session) == Flush(p, run, tools, session)
  {
    if run != [] {
      assert [Run(run)][1..] == [];
    }
  }

  lemma {:induction false} FoldKept(p: Progress, run: seq<Message>, m: Message, kept: Message,
                                    rest: seq<Segment>, tools: Tools, session: Option<string>)
    ensures var q := Flush(p, run, tools, session);
      Fold(p, Closed(run) + [Kept(m, kept)] + rest, tools, session)
      == Fold(q.(prefix := q.prefix + [kept]), rest, tools, session)
  {
    var tail := [Kept(m, kept)] + rest;
    assert tail[1..] == rest;
    if run == [] {
      assert Closed(run) + [Kept(m, kept)] + rest == tail;
    } else {
      assert Closed(run) + [Kept(m, kept)] + rest == [Run(run)] + tail;
      assert ([Run(run)] + tail)[1..] == tail;
    }
  }

  /** The loop that finds where the recent window begins among the turns. */
  method SplitTurns(head: seq<Message>, turns: seq<Message>, keep: nat) returns (plan: Plan)
    requires 0 < keep < |turns|
    ensures plan == CutTurns(head, turns, keep)
  {
    var split: nat := |turns| - keep;
    while split > 0 && turns[split].role == Tool
      invariant split < |turns|
      invariant Retreat(turns, split) == Retreat(turns, |turns| - keep)
    {
      split := split - 1;
    }
    plan := Plan(head, turns[..split], turns[split..]);
  }

  method MakePlan(pruned: seq<Message>, cfg: Config) returns (plan: Plan)
    requires HasMiddle(pruned, cfg)
    ensures plan == PlanOf(pruned, cfg)
  {
    var start := HeadCount(pruned, cfg.preserveRoot);
    plan := SplitTurns(pruned[..start], pruned[start..], cfg.Keep());
  }

  method SummarizeMiddle(pruned: seq<Message>, plan: Plan, original: nat, truncated: nat, cfg: Config,
                         tools: Tools, backoff: SessionBackoff)
    returns (out: seq<Message>, metrics: Metrics)
    modifies backoff
    ensures Outcome(out, metrics, backoff.turns)
      == AfterSummaries(pruned, plan, original, truncated, cfg, tools, old(backoff.turns))
  {
    var pinned := PinnedIntermediate(plan.middle);
    var p := SummarizeRuns(plan.middle, pinned, tools, cfg.session, backoff);
    var current := EstimateTokens(pruned);
    if p.failed {
      return pruned, Metrics(original, current, 0, truncated, truncated > 0);
    }
    var compacted := plan.head + p.prefix + plan.recent;
    var tokens := EstimateTokens(compacted);
    var shrunk := tokens < original;
    var applied := if cfg.force then (p.summarized > 0 && shrunk) || truncated > 0
                   else p.summarized > 0 || truncated > 0;
    if !applied {
      return pruned, Metrics(original, current, 0, truncated, false);
    }
    return compacted, Metrics(original, tokens, p.summarized, truncated, true);
  }

  method CompactPruned(pruned: seq<Message>, original: nat, truncated: nat, cfg: Config, tools: Tools,
                       backoff: SessionBackoff)
    returns (out: seq<Message>, metrics: Metrics)
    modifies backoff
    ensures Outcome(out, metrics, backoff.turns)
      == AfterPruning(pruned, original, truncated, cfg, tools, old(backoff.turns))
  {
    var current := EstimateTokens(pruned);
    var asIs := Metrics(original, current, 0, truncated, truncated > 0);
    if !cfg.force && current <= cfg.budget {
      return pruned, asIs;
    }
    if |pruned| - HeadCount(pruned, cfg.preserveRoot) <= cfg.Keep() {
      return pruned, asIs;
    }
    var plan := MakePlan(pruned, cfg);
    var nothingNew := NothingNew(plan);
    if nothingNew {
      return pruned, asIs.(applied := false);
    }
    if !cfg.force {
      var remaining := backoff.ConsumeCompactionBackoff(cfg.session);
      if remaining > 0 {
        return pruned, asIs;
      }
    }
    out, metrics := SummarizeMiddle(pruned, plan, original, truncated, cfg, tools, backoff);
  }

  method CompactWithStats(messages: seq<Message>, cfg: Config, tools: Tools, backoff: SessionBackoff)
    returns (out: seq<Message>, metrics: Metrics)
    modifies backoff
    ensures Outcome(out, metrics, backoff.turns) == Compacted(messages, cfg, tools, old(backoff.turns))
  {
    var visible := VisibleOnly(messages);
    if visible == [] {
      return [], Metrics(0, 0, 0, 0, false);
    }
    var pruned, truncated := PruneTools(visible, cfg);
    out, metrics := CompactPruned(pruned, EstimateTokens(visible), truncated, cfg, tools, backoff);
  }
}
