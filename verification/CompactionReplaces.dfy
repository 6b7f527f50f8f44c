/** A compaction is exactly run replacement: every maximal run of unpinned middle messages
    becomes one accepted summary, and nothing else moves or changes
    (src/application/kernel/context_compactor.py, lines 443-595). */
module CompactionReplaces {
  import opened Texts
  import opened Chat
  import opened Compactor
  import opened Backoff

  function Originals(segs: seq<Segment>): seq<Message> {
    if segs == [] then []
    else (match segs[0] case Kept(m, _) => [m] case Run(ms) => ms) + Originals(segs[1..])
  }

  function RunCount(segs: seq<Segment>): nat {
    if segs == [] then 0 else (if segs[0].Run? then 1 else 0) + RunCount(segs[1..])
  }

  function RunMessages(segs: seq<Segment>): nat {
    if segs == [] then 0 else (if segs[0].Run? then |segs[0].messages| else 0) + RunMessages(segs[1..])
  }

  /** The segments with the given texts in place of their runs, in order. */
  function Rebuilt(segs: seq<Segment>, texts: seq<string>): seq<Message>
    requires |texts| == RunCount(segs)
  {
    if segs == [] then []
    else match segs[0]
      case Kept(_, kept) => [kept] + Rebuilt(segs[1..], texts)
      case Run(_) => [Plain(Assistant, texts[0])] + Rebuilt(segs[1..], texts[1..])
  }

  /** The summarizer wrote this text for this run, and the check accepted it. */
  ghost predicate Produced(tools: Tools, text: string, run: seq<Message>) {
    tools.accepts(text, run) && exists call: nat :: text == tools.summarize(run, SUMMARY_LINES, call)
  }

  /** Each text was written and accepted for the run it stands for. */
  ghost predicate AllAccepted(segs: seq<Segment>, texts: seq<string>, tools: Tools)
    requires |texts| == RunCount(segs)
  {
    segs == [] ||
    match segs[0]
    case Kept(_, _) => AllAccepted(segs[1..], texts, tools)
    case Run(run) => Produced(tools, texts[0], run) && AllAccepted(segs[1..], texts[1..], tools)
  }

  /** Runs are not empty and never adjacent. */
  predicate Maximal(segs: seq<Segment>) {
    && (forall k :: 0 <= k < |segs| && segs[k].Run? ==> segs[k].messages != [])
    && (forall k :: 0 < k < |segs| && segs[k].Run? ==> segs[k - 1].Kept?)
  }

  /** A kept message is unchanged, except that an assistant message keeps one of its calls. */
  predicate KeptFaithfully(original: Message, kept: Message) {
    || kept == original
    || (original.role == Assistant
        && exists call <- original.toolCalls :: call.name == SKILL_VIEW && kept == original.(toolCalls := [call]))
  }

  // ---------------------------------------------------------------- the segments

  lemma {:induction false} OriginalsOfConcat(a: seq<Segment>, b: seq<Segment>)
    ensures Originals(a + b) == Originals(a) + Originals(b)
  {
    if a == [] {
      assert a + b == b;
    } else {
      assert (a + b)[1..] == a[1..] + b;
      OriginalsOfConcat(a[1..], b);
    }
  }

  lemma OriginalsOfClosed(run: seq<Message>)
    ensures Originals(Closed(run)) == run
  {
    if run != [] {
      assert [Run(run)][1..] == [];
    }
  }

  lemma {:induction false} OriginalsAtPin(run: seq<Message>, m: Message, kept: Message, rest: seq<Segment>)
    ensures Originals(Closed(run) + [Kept(m, kept)] + rest) == run + [m] + Originals(rest)
  {
    var pin := [Kept(m, kept)];
    OriginalsOfClosed(run);
    assert pin[1..] == [] && Originals(pin) == [m];
    OriginalsOfConcat(Closed(run), pin);
    OriginalsOfConcat(Closed(run) + pin, rest);
  }

  lemma {:induction false} OneTurnOn(run: seq<Message>, turns: seq<Message>, i: nat)
    requires i < |turns|
    ensures run + [turns[i]] + turns[i + 1..] == run + turns[i..]
    ensures run + [turns[i]] + ([] + turns[i + 1..]) == run + turns[i..]
  {
    assert [turns[i]] + turns[i + 1..] == turns[i..];
  }

  /** Cutting loses and reorders nothing. */
  lemma {:induction false} SegmentsCover(turns: seq<Message>, pins: map<nat, Message>, i: nat, run: seq<Message>)
    requires i <= |turns|
    ensures Originals(Segments(turns, pins, i, run)) == run + turns[i..]
    decreases |turns| - i
  {
    if i == |turns| {
      OriginalsOfClosed(run);
      assert run + turns[i..] == run;
    } else if i in pins {
      SegmentsCover(turns, pins, i + 1, []);
      OriginalsAtPin(run, turns[i], pins[i], Segments(turns, pins, i + 1, []));
      OneTurnOn(run, turns, i);
    } else {
      SegmentsCover(turns, pins, i + 1, run + [turns[i]]);
      OneTurnOn(run, turns, i);
    }
  }

  lemma {:induction false} PrependKept(pin: Segment, rest: seq<Segment>)
    requires pin.Kept? && Maximal(rest)
    ensures Maximal([pin] + rest)
  {
    assert forall k :: 0 < k <= |rest| ==> ([pin] + rest)[k] == rest[k - 1];
  }

  lemma {:induction false} PrependRun(run: seq<Message>, rest: seq<Segment>)
    requires run != [] && Maximal(rest) && rest != [] && rest[0].Kept?
    ensures Maximal([Run(run)] + rest)
  {
    assert forall k :: 0 < k <= |rest| ==> ([Run(run)] + rest)[k] == rest[k - 1];
  }

  lemma {:induction false} MaximalAfterPin(run: seq<Message>, pin: Segment, rest: seq<Segment>)
    requires pin.Kept? && Maximal(rest)
    ensures Maximal(Closed(run) + [pin] + rest)
  {
    PrependKept(pin, rest);
    if run == [] {
      assert Closed(run) + [pin] + rest == [pin] + rest;
    } else {
      PrependRun(run, [pin] + rest);
      assert Closed(run) + [pin] + rest == [Run(run)] + ([pin] + rest);
    }
  }

  lemma {:induction false} SegmentsMaximal(turns: seq<Message>, pins: map<nat, Message>, i: nat, run: seq<Message>)
    requires i <= |turns|
    ensures Maximal(Segments(turns, pins, i, run))
    decreases |turns| - i
  {
    if i == |turns| {
    } else if i in pins {
      SegmentsMaximal(turns, pins, i + 1, []);
      MaximalAfterPin(run, Kept(turns[i], pins[i]), Segments(turns, pins, i + 1, []));
    } else {
      SegmentsMaximal(turns, pins, i + 1, run + [turns[i]]);
    }
  }

  /** The kept segments are the pinned turns, each with what it is pinned as. */
  lemma {:induction false} SegmentsKeepPins(turns: seq<Message>, pins: map<nat, Message>, i: nat, run: seq<Message>,
                                            seg: Segment)
    requires i <= |turns| && seg.Kept?
    ensures seg in Segments(turns, pins, i, run)
      <==> exists k :: i <= k < |turns| && k in pins && seg == Kept(turns[k], pins[k])
    decreases |turns| - i
  {
    if i < |turns| {
      SegmentsKeepPins(turns, pins, i + 1, if i in pins then [] else run + [turns[i]], seg);
    }
  }

  lemma LastViewIsCall(calls: seq<ToolCall>)
    ensures LastView(calls).Some? ==> LastView(calls).value in calls && LastView(calls).value.name == SKILL_VIEW
  {
  }

  lemma PinsAreFaithful(turns: seq<Message>, k: nat)
    requires k < |turns| && k in Pins(turns)
    ensures KeptFaithfully(turns[k], Pins(turns)[k])
  {
    if LatestView(turns, |turns|).Some? {
      LastViewIsCall(turns[LatestView(turns, |turns|).value].toolCalls);
    }
  }

  // ---------------------------------------------------------------- folding over the segments

  /** The accepted text of every run in order, or none when some run is refused twice. */
  function Accepted(segs: seq<Segment>, tools: Tools, calls: nat): Option<seq<string>> {
    if segs == [] then Some([])
    else match segs[0]
      case Kept(_, _) => Accepted(segs[1..], tools, calls)
      case Run(run) =>
        var tries := TrySummary(run, tools, calls);
        if tries.text.None? then None
        else match Accepted(segs[1..], tools, tries.calls)
          case None => None
          case Some(texts) => Some([tries.text.value] + texts)
  }

  lemma {:induction false} AcceptedTexts(segs: seq<Segment>, tools: Tools, calls: nat)
    ensures Accepted(segs, tools, calls).Some? ==>
      var texts := Accepted(segs, tools, calls).value;
      |texts| == RunCount(segs) && AllAccepted(segs, texts, tools)
  {
    if segs != [] {
      match segs[0]
      case Kept(_, _) => AcceptedTexts(segs[1..], tools, calls);
      case Run(run) =>
        var tries := TrySummary(run, tools, calls);
        AcceptedTexts(segs[1..], tools, tries.calls);
        if Accepted(segs, tools, calls).Some? {
          assert Accepted(segs, tools, calls).value[1..] == Accepted(segs[1..], tools, tries.calls).value;
        }
    }
  }

  lemma {:induction false} FoldFailed(p: Progress, segs: seq<Segment>, tools: Tools, session: Option<string>)
    requires p.failed
    ensures Fold(p, segs, tools, session).failed && Fold(p, segs, tools, session).table == p.table
    decreases |segs|
  {
    if segs != [] {
      var next := match segs[0]
        case Kept(_, kept) => p.(prefix := p.prefix + [kept])
        case Run(run) => Flush(p, run, tools, session);
      FoldFailed(next, segs[1..], tools, session);
    }
  }

  /** What folding gives: failure exactly when some run is refused, else the replacement. */
  ghost predicate FoldedTo(p: Progress, segs: seq<Segment>, tools: Tools, q: Progress) {
    var texts := Accepted(segs, tools, p.calls);
    && (q.failed <==> texts.None?)
    && (texts.Some? ==>
          (|texts.value| == RunCount(segs)
           && q.prefix == p.prefix + Rebuilt(segs, texts.value)
           && q.summarized == p.summarized + RunMessages(segs)))
  }

  lemma {:induction false} FoldReplaces(p: Progress, segs: seq<Segment>, tools: Tools, session: Option<string>)
    requires !p.failed
    requires forall k :: 0 <= k < |segs| && segs[k].Run? ==> segs[k].messages != []
    ensures FoldedTo(p, segs, tools, Fold(p, segs, tools, session))
    decreases |segs|
  {
    AcceptedTexts(segs, tools, p.calls);
    if segs != [] {
      assert forall k :: 0 <= k < |segs| - 1 ==> segs[1..][k] == segs[k + 1];
      match segs[0]
      case Kept(_, kept) =>
        FoldReplaces(p.(prefix := p.prefix + [kept]), segs[1..], tools, session);
        KeptFirst(p, segs, tools, Fold(p, segs, tools, session));
      case Run(run) =>
        var next := Flush(p, run, tools, session);
        if next.failed {
          FoldFailed(next, segs[1..], tools, session);
        } else {
          FoldReplaces(next, segs[1..], tools, session);
          RunFirst(p, segs, tools, next, Fold(p, segs, tools, session));
        }
    }
  }

  lemma {:induction false} KeptFirst(p: Progress, segs: seq<Segment>, tools: Tools, q: Progress)
    requires segs != [] && segs[0].Kept?
    requires FoldedTo(p.(prefix := p.prefix + [segs[0].kept]), segs[1..], tools, q)
    ensures FoldedTo(p, segs, tools, q)
  {
    var texts := Accepted(segs, tools, p.calls);
    if texts.Some? {
      var rest := Rebuilt(segs[1..], texts.value);
      assert p.prefix + [segs[0].kept] + rest == p.prefix + ([segs[0].kept] + rest);
    }
  }

  lemma {:induction false} RunFirst(p: Progress, segs: seq<Segment>, tools: Tools, next: Progress, q: Progress)
    requires segs != [] && segs[0].Run?
    requires var tries := TrySummary(segs[0].messages, tools, p.calls);
      && tries.text.Some? && next.calls == tries.calls
      && next.prefix == p.prefix + [Plain(Assistant, tries.text.value)]
      && next.summarized == p.summarized + |segs[0].messages|
    requires FoldedTo(next, segs[1..], tools, q)
    ensures FoldedTo(p, segs, tools, q)
  {
    var tries := TrySummary(segs[0].messages, tools, p.calls);
    var texts := Accepted(segs[1..], tools, tries.calls);
    if texts.Some? {
      var all := [tries.text.value] + texts.value;
      assert all[1..] == texts.value;
      var first := [Plain(Assistant, tries.text.value)];
      assert p.prefix + first + Rebuilt(segs[1..], texts.value) == p.prefix + (first + Rebuilt(segs[1..], texts.value));
    }
  }

  // ---------------------------------------------------------------- the whole call

  /** The result is the plan with its runs replaced by accepted texts. */
  ghost predicate IsReplacement(plan: Plan, texts: seq<string>, tools: Tools, out: seq<Message>) {
    && |texts| == RunCount(plan.Segs())
    && AllAccepted(plan.Segs(), texts, tools)
    && out == plan.head + Rebuilt(plan.Segs(), texts) + plan.recent
  }

  lemma {:induction false} LengthOfRebuilt(segs: seq<Segment>, texts: seq<string>)
    requires |texts| == RunCount(segs)
    ensures |Rebuilt(segs, texts)| == |Originals(segs)| - RunMessages(segs) + RunCount(segs)
  {
    if segs != [] {
      LengthOfRebuilt(segs[1..], if segs[0].Run? then texts[1..] else texts);
    }
  }

  /** The three pieces of a plan are the history; the recent window has its size and opens
      on a tool return only if nothing was cut. */
  lemma {:induction false} PlanPieces(pruned: seq<Message>, cfg: Config)
    requires HasMiddle(pruned, cfg)
    ensures var plan := PlanOf(pruned, cfg);
      && pruned == plan.head + plan.middle + plan.recent
      && |plan.recent| >= cfg.Keep()
      && (plan.middle != [] ==> plan.recent[0].role != Tool)
  {
    var head := HeadCount(pruned, cfg.preserveRoot);
    CutPieces(pruned[..head], pruned[head..], cfg.Keep());
    HeadAndTurns(pruned, head);
  }

  lemma {:induction false} HeadAndTurns(s: seq<Message>, head: nat)
    requires head <= |s|
    ensures s[..head] + s[head..] == s
  {
  }

  lemma {:induction false} CutPieces(head: seq<Message>, turns: seq<Message>, keep: nat)
    requires 0 < keep < |turns|
    ensures var plan := CutTurns(head, turns, keep);
      && head + turns == plan.head + plan.middle + plan.recent
      && |plan.recent| >= keep && (plan.middle != [] ==> plan.recent[0].role != Tool)
  {
    TwoPieces(head, turns, Retreat(turns, |turns| - keep));
  }

  lemma {:induction false} TwoPieces(head: seq<Message>, turns: seq<Message>, split: nat)
    requires split <= |turns|
    ensures head + turns == head + turns[..split] + turns[split..]
  {
  }

  lemma {:induction false} PlanSegments(plan: Plan)
    ensures Originals(plan.Segs()) == plan.middle && Maximal(plan.Segs())
  {
    SegmentsCover(plan.middle, Pins(plan.middle), 0, []);
    SegmentsMaximal(plan.middle, Pins(plan.middle), 0, []);
    assert [] + plan.middle[0..] == plan.middle;
  }

  lemma {:induction false} KeptSegmentsFaithful(plan: Plan)
    ensures forall seg <- plan.Segs() :: seg.Kept? ==> KeptFaithfully(seg.original, seg.kept)
  {
    forall seg <- plan.Segs() | seg.Kept? ensures KeptFaithfully(seg.original, seg.kept) {
      SegmentsKeepPins(plan.middle, Pins(plan.middle), 0, [], seg);
      var k :| 0 <= k < |plan.middle| && k in Pins(plan.middle) && seg == Kept(plan.middle[k], Pins(plan.middle)[k]);
      PinsAreFaithful(plan.middle, k);
    }
  }

  lemma {:induction false} SummarizedReplaces(plan: Plan, cfg: Config, tools: Tools, table: Table)
    ensures var p := Summarized(plan, cfg, tools, table);
      var texts := Accepted(plan.Segs(), tools, 0);
      && (p.failed <==> texts.None?)
      && (texts.Some? ==>
            IsReplacement(plan, texts.value, tools, plan.head + p.prefix + plan.recent)
            && |p.prefix| == |plan.middle| - p.summarized + |texts.value|)
  {
    PlanSegments(plan);
    FoldReplaces(Progress([], 0, false, 0, table), plan.Segs(), tools, cfg.session);
    AcceptedTexts(plan.Segs(), tools, 0);
    var texts := Accepted(plan.Segs(), tools, 0);
    if texts.Some? {
      assert [] + Rebuilt(plan.Segs(), texts.value) == Rebuilt(plan.Segs(), texts.value);
      LengthOfRebuilt(plan.Segs(), texts.value);
    }
  }

  /** The messages of o are `pruned` itself, or a replacement of it along its plan. */
  ghost predicate PrunedOrReplaced(pruned: seq<Message>, cfg: Config, tools: Tools, o: Outcome) {
    || (o.messages == pruned && o.metrics.turnsCompacted == 0)
    || (HasMiddle(pruned, cfg)
        && exists texts: seq<string> ::
             IsReplacement(PlanOf(pruned, cfg), texts, tools, o.messages)
             && |o.messages| == |pruned| - o.metrics.turnsCompacted + |texts|)
  }

  /** Summarising gives the pruned history, or the assembled pieces with what was summarised. */
  lemma {:induction false} AfterSummariesGives(pruned: seq<Message>, plan: Plan, original: nat, truncated: nat,
                                               cfg: Config, tools: Tools, table: Table)
    ensures var o, p := AfterSummaries(pruned, plan, original, truncated, cfg, tools, table),
                        Summarized(plan, cfg, tools, table);
      || (o.messages == pruned && o.metrics.turnsCompacted == 0)
      || (!p.failed && o.messages == plan.head + p.prefix + plan.recent && o.metrics.turnsCompacted == p.summarized)
  {
  }

  lemma {:induction false} AfterSummariesReplaces(pruned: seq<Message>, original: nat, truncated: nat, cfg: Config,
                                                  tools: Tools, table: Table)
    requires HasMiddle(pruned, cfg)
    ensures PrunedOrReplaced(pruned, cfg, tools,
                             AfterSummaries(pruned, PlanOf(pruned, cfg), original, truncated, cfg, tools, table))
  {
    var plan := PlanOf(pruned, cfg);
    AfterSummariesGives(pruned, plan, original, truncated, cfg, tools, table);
    SummarizedReplaces(plan, cfg, tools, table);
    PlanPieces(pruned, cfg);
    var p, texts := Summarized(plan, cfg, tools, table), Accepted(plan.Segs(), tools, 0);
    if !p.failed {
      assert |plan.head + p.prefix + plan.recent| == |pruned| - p.summarized + |texts.value|;
    }
  }

  lemma {:induction false} AfterPruningReplaces(pruned: seq<Message>, original: nat, truncated: nat, cfg: Config,
                                                tools: Tools, table: Table)
    ensures PrunedOrReplaced(pruned, cfg, tools, AfterPruning(pruned, original, truncated, cfg, tools, table))
  {
    SummariesOrUnchanged(pruned, original, truncated, cfg, tools, table);
    if HasMiddle(pruned, cfg) {
      AfterSummariesReplaces(pruned, original, truncated, cfg, tools, table);
    }
  }

  lemma {:induction false} SummariesOrUnchanged(pruned: seq<Message>, original: nat, truncated: nat, cfg: Config,
                                                tools: Tools, table: Table)
    ensures var o := AfterPruning(pruned, original, truncated, cfg, tools, table);
      || (o.messages == pruned && o.metrics.turnsCompacted == 0)
      || (HasMiddle(pruned, cfg)
          && o == AfterSummaries(pruned, PlanOf(pruned, cfg), original, truncated, cfg, tools, table))
  {
  }

  /** Every call gives either the pruned history or exactly a run replacement of it: maximal
      unpinned runs become one accepted summary each, everything else keeps its order and its
      text (a pinned assistant message keeps one call), at least the requested recent count
      is kept, and the length is pruned - turns compacted + summaries. */
  lemma {:induction false} CompactionIsRunReplacement(messages: seq<Message>, cfg: Config, tools: Tools, table: Table)
    ensures var pruned := Prune(VisibleOnly(messages), cfg);
      && PrunedOrReplaced(pruned, cfg, tools, Compacted(messages, cfg, tools, table))
      && (HasMiddle(pruned, cfg) ==>
            var plan := PlanOf(pruned, cfg);
            && pruned == plan.head + Originals(plan.Segs()) + plan.recent
            && Maximal(plan.Segs()) && |plan.recent| >= cfg.Keep()
            && (forall seg <- plan.Segs() :: seg.Kept? ==> KeptFaithfully(seg.original, seg.kept)))
  {
    var visible := VisibleOnly(messages);
    var pruned := Prune(visible, cfg);
    if visible != [] {
      AfterPruningReplaces(pruned, EstimateTokens(visible), TruncatedCount(visible, cfg), cfg, tools, table);
    }
    if HasMiddle(pruned, cfg) {
      PlanPieces(pruned, cfg);
      PlanSegments(PlanOf(pruned, cfg));
      KeptSegmentsFaithful(PlanOf(pruned, cfg));
    }
  }

  /** The latest user message of the middle comes through word for word. */
  lemma {:induction false} LatestUserIsKept(turns: seq<Message>, u: nat)
    requires u < |turns| && turns[u].role == User
    requires forall k :: u < k < |turns| ==> turns[k].role != User
    ensures Kept(turns[u], turns[u]) in Segments(turns, Pins(turns), 0, [])
  {
    LatestUserFound(turns, |turns|, u);
    SegmentsKeepPins(turns, Pins(turns), 0, [], Kept(turns[u], turns[u]));
  }

  lemma {:induction false} LatestUserFound(turns: seq<Message>, n: nat, u: nat)
    requires u < n <= |turns| && turns[u].role == User
    requires forall k :: u < k < n ==> turns[k].role != User
    ensures LatestUser(turns, n) == Some(u)
  {
    if n - 1 != u {
      LatestUserFound(turns, n - 1, u);
    }
  }
}
