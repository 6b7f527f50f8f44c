/** Facts survive compaction, round after round
    (src/application/kernel/context_compactor.py, lines 508-566;
    src/application/kernel/compaction_verifier.py, lines 151-228). */
module CompactionFacts {
  import opened Texts
  import opened Chat
  import opened KeyTokens
  import opened SummaryFacts
  import opened SummaryCheck
  import opened Backoff
  import opened Compactor
  import opened CompactionReplaces

  /** m is a user message or an assistant message that the next round treats as an earlier
      summary (any assistant message when not `strict`), and mentions t. */
  predicate Bears(m: Message, t: string, strict: bool) {
    t in Units(m.content) && (m.role == User || (m.role == Assistant && (strict ==> IsSummary(m))))
  }

  predicate HasFact(ms: seq<Message>, t: string, strict: bool) {
    exists m <- ms :: Bears(m, t, strict)
  }

  /** Whatever this summarizer writes starts with the summary marker. */
  ghost predicate MarksSummaries(tools: Tools) {
    forall run, limit, call :: IsSummary(Plain(Assistant, tools.summarize(run, limit, call)))
  }

  /** The summarizer is the built-in one. */
  ghost predicate BuiltIn(tools: Tools, hints: Hints) {
    forall run, limit, call :: tools.summarize(run, limit, call) == BuildSummary(run, limit, hints)
  }

  /** Accepted summaries of runs that bear t mention t. */
  ghost predicate Preserves(tools: Tools, t: string) {
    forall run, text | Produced(tools, text, run) && HasFact(run, t, true) :: t in Units(text)
  }

  lemma {:induction false} CheckedPreserves(tools: Tools, t: string)
    requires UsesCheck(tools) && KindOf(t) in {Path, Number}
    ensures Preserves(tools, t)
  {
    forall run, text | Produced(tools, text, run) && HasFact(run, t, true) ensures t in Units(text) {
      var m :| m in run && Bears(m, t, true);
      assert Verified(text, run);
      AcceptedKeepsFacts(text, run, |RenderOriginal(run)| > 360, m, t);
    }
  }

  lemma {:induction false} BuiltInPreserves(tools: Tools, hints: Hints, t: string)
    requires BuiltIn(tools, hints) && KindOf(t) != Other
    ensures Preserves(tools, t) && MarksSummaries(tools)
  {
    forall run, text | Produced(tools, text, run) && HasFact(run, t, true) ensures t in Units(text) {
      var m :| m in run && Bears(m, t, true);
      BuiltSummaryKeepsFacts(run, SUMMARY_LINES, hints, m, t);
    }
    forall run, limit, call: nat ensures IsSummary(Plain(Assistant, tools.summarize(run, limit, call))) {
      BuiltSummaryIsSummary(run, limit, hints);
    }
  }

  // ---------------------------------------------------------------- one round

  lemma {:induction false} VisibleBears(ms: seq<Message>, m: Message, t: string)
    requires m in ms && Bears(m, t, true)
    ensures m in VisibleOnly(ms)
  {
    if m != ms[0] {
      assert m in ms[1..];
      VisibleBears(ms[1..], m, t);
    }
  }

  lemma {:induction false} PrunedBears(ms: seq<Message>, cfg: Config, m: Message, t: string)
    requires m in ms && Bears(m, t, true)
    ensures m in Prune(ms, cfg)
  {
    var i :| 0 <= i < |ms| && ms[i] == m;
    assert Prune(ms, cfg)[i] == m;
  }

  lemma {:induction false} KeptBears(original: Message, kept: Message, t: string, strict: bool)
    requires KeptFaithfully(original, kept) && Bears(original, t, true)
    ensures Bears(kept, t, strict)
  {
  }

  lemma {:induction false} TextBears(tools: Tools, text: string, run: seq<Message>, t: string, strict: bool)
    requires Produced(tools, text, run) && HasFact(run, t, true) && Preserves(tools, t)
    requires strict ==> MarksSummaries(tools)
    ensures Bears(Plain(Assistant, text), t, strict)
  {
  }

  lemma {:induction false} RebuiltBears(segs: seq<Segment>, texts: seq<string>, tools: Tools, m: Message, t: string,
                                        strict: bool)
    requires |texts| == RunCount(segs) && AllAccepted(segs, texts, tools)
    requires forall seg <- segs :: seg.Kept? ==> KeptFaithfully(seg.original, seg.kept)
    requires Preserves(tools, t) && (strict ==> MarksSummaries(tools))
    requires m in Originals(segs) && Bears(m, t, true)
    ensures HasFact(Rebuilt(segs, texts), t, strict)
  {
    assert segs[0] in segs && forall seg <- segs[1..] :: seg in segs;
    match segs[0] {
      case Kept(original, kept) =>
        if m == original {
          KeptBears(original, kept, t, strict);
          assert kept in Rebuilt(segs, texts);
        } else {
          RebuiltBears(segs[1..], texts, tools, m, t, strict);
        }
      case Run(run) =>
        if m in run {
          TextBears(tools, texts[0], run, t, strict);
          assert Plain(Assistant, texts[0]) in Rebuilt(segs, texts);
        } else {
          RebuiltBears(segs[1..], texts[1..], tools, m, t, strict);
        }
    }
  }

  lemma {:induction false} ReplacementBears(plan: Plan, texts: seq<string>, tools: Tools, out: seq<Message>,
                                            m: Message, t: string, strict: bool)
    requires IsReplacement(plan, texts, tools, out)
    requires Preserves(tools, t) && (strict ==> MarksSummaries(tools))
    requires m in plan.head + plan.middle + plan.recent && Bears(m, t, true)
    ensures HasFact(out, t, strict)
  {
    if m in plan.head || m in plan.recent {
      assert m in out && Bears(m, t, strict);
    } else {
      PlanSegments(plan);
      KeptSegmentsFaithful(plan);
      RebuiltBears(plan.Segs(), texts, tools, m, t, strict);
      var x :| x in Rebuilt(plan.Segs(), texts) && Bears(x, t, strict);
      assert x in out;
    }
  }

  /** One round keeps the fact: in a user message or an assistant message for every
      summarizer, and in one the next round requires again when summaries are marked. */
  lemma {:induction false} RoundKeepsFact(messages: seq<Message>, cfg: Config, tools: Tools, table: Table,
                                          t: string, strict: bool)
    requires Preserves(tools, t) && (strict ==> MarksSummaries(tools))
    requires HasFact(messages, t, true)
    ensures HasFact(Compacted(messages, cfg, tools, table).messages, t, strict)
  {
    var m :| m in messages && Bears(m, t, true);
    VisibleBears(messages, m, t);
    PrunedBears(VisibleOnly(messages), cfg, m, t);
    var pruned := Prune(VisibleOnly(messages), cfg);
    var out := Compacted(messages, cfg, tools, table).messages;
    CompactionIsRunReplacement(messages, cfg, tools, table);
    if out == pruned {
      assert m in out && Bears(m, t, strict);
    } else {
      PlanPieces(pruned, cfg);
      var plan := PlanOf(pruned, cfg);
      var texts: seq<string> :| IsReplacement(plan, texts, tools, out);
      ReplacementBears(plan, texts, tools, out, m, t, strict);
    }
  }

  // ---------------------------------------------------------------- any number of rounds

  /** What can happen to a history: it grows at either end, its system messages are dropped
      before it is stored, or it is compacted. */
  datatype Round =
    | Extend(front: seq<Message>, back: seq<Message>)
    | DropSystem
    | Compact(cfg: Config, tools: Tools)

  function NoSystem(ms: seq<Message>): seq<Message> {
    if ms == [] then [] else (if ms[0].role == System then [] else [ms[0]]) + NoSystem(ms[1..])
  }

  /** A history and the table of waits. */
  datatype Chatting = Chatting(messages: seq<Message>, table: Table)

  function OneRound(c: Chatting, round: Round): Chatting {
    match round
    case Extend(front, back) => c.(messages := front + c.messages + back)
    case DropSystem => c.(messages := NoSystem(c.messages))
    case Compact(cfg, tools) =>
      var o := Compacted(c.messages, cfg, tools, c.table);
      Chatting(o.messages, o.table)
  }

  function PlayedOn(c: Chatting, rounds: seq<Round>): Chatting
    decreases |rounds|
  {
    if rounds == [] then c else PlayedOn(OneRound(c, rounds[0]), rounds[1..])
  }

  function Played(ms: seq<Message>, table: Table, rounds: seq<Round>): seq<Message> {
    PlayedOn(Chatting(ms, table), rounds).messages
  }

  lemma {:induction false} NoSystemBears(ms: seq<Message>, m: Message, t: string)
    requires m in ms && Bears(m, t, true)
    ensures m in NoSystem(ms)
  {
    if m != ms[0] {
      assert m in ms[1..];
      NoSystemBears(ms[1..], m, t);
    }
  }

  lemma {:induction false} OneRoundKeepsFact(c: Chatting, round: Round, t: string)
    requires HasFact(c.messages, t, true)
    requires round.Compact? ==> Preserves(round.tools, t) && MarksSummaries(round.tools)
    ensures HasFact(OneRound(c, round).messages, t, true)
  {
    var m :| m in c.messages && Bears(m, t, true);
    match round
    case Extend(front, back) =>
      assert m in front + c.messages + back;
    case DropSystem => NoSystemBears(c.messages, m, t);
    case Compact(cfg, tools) => RoundKeepsFact(c.messages, cfg, tools, c.table, t, true);
  }

  lemma {:induction false} RoundsKeepFact(c: Chatting, rounds: seq<Round>, t: string)
    requires HasFact(c.messages, t, true)
    requires forall r <- rounds :: r.Compact? ==> Preserves(r.tools, t) && MarksSummaries(r.tools)
    ensures HasFact(PlayedOn(c, rounds).messages, t, true)
    decreases |rounds|
  {
    if rounds != [] {
      assert rounds[0] in rounds && forall r <- rounds[1..] :: r in rounds;
      OneRoundKeepsFact(c, rounds[0], t);
      RoundsKeepFact(OneRound(c, rounds[0]), rounds[1..], t);
    }
  }

  /** With the built-in summarizer, every path, number or name of a user message is, after any
      number of rounds, in a user message or in a summary that the next round requires. */
  lemma {:induction false} FactsSurviveBuiltIn(ms: seq<Message>, table: Table, rounds: seq<Round>, hints: Hints,
                                               m: Message, t: string)
    requires m in ms && m.role == User && t in Units(m.content) && KindOf(t) != Other
    requires forall r <- rounds :: r.Compact? ==> BuiltIn(r.tools, hints)
    ensures HasFact(Played(ms, table, rounds), t, true)
  {
    forall r <- rounds | r.Compact? ensures Preserves(r.tools, t) && MarksSummaries(r.tools) {
      BuiltInPreserves(r.tools, hints, t);
    }
    assert Bears(m, t, true);
    RoundsKeepFact(Chatting(ms, table), rounds, t);
  }

  /** With any summarizer that goes through the check and marks its summaries, the same holds
      of every path and number. */
  lemma {:induction false} FactsSurviveMarked(ms: seq<Message>, table: Table, rounds: seq<Round>, m: Message, t: string)
    requires m in ms && m.role == User && t in Units(m.content) && KindOf(t) in {Path, Number}
    requires forall r <- rounds :: r.Compact? ==> UsesCheck(r.tools) && MarksSummaries(r.tools)
    ensures HasFact(Played(ms, table, rounds), t, true)
  {
    forall r <- rounds | r.Compact? ensures Preserves(r.tools, t) {
      CheckedPreserves(r.tools, t);
    }
    assert Bears(m, t, true);
    RoundsKeepFact(Chatting(ms, table), rounds, t);
  }

  /** Without the marker the promise stops after one round: the next check requires nothing
      of an assistant message exactly when it is not marked as a summary or is empty. */
  lemma {:induction false} UnmarkedIsNotRequired(text: string)
    ensures RequiredText([Plain(Assistant, text)]) == "" <==>
      !IsSummary(Plain(Assistant, text)) || Normalize(text) == ""
  {
    var ms := [Plain(Assistant, text)];
    assert ms[..0] == [] && RequiredParts([]) == [];
    assert [] + [Normalize(text)] == [Normalize(text)];
    assert RequiredParts(ms) == if IsSummary(ms[0]) && Normalize(text) != "" then [Normalize(text)] else [];
  }
}
