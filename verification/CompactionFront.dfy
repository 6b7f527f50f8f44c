/** What a compaction leaves where it is, said of the messages themselves
    (src/application/kernel/context_compactor.py, lines 286-314 and 430-566). */
module CompactionFront {
  import opened Texts
  import opened Chat
  import opened SummaryFacts
  import opened Backoff
  import opened Compactor
  import opened CompactionReplaces

  // ---------------------------------------------------------------- what a compaction sees

  /** Proposals and notes are left out, and nothing else. */
  lemma {:induction false} VisibleOfConcat(a: seq<Message>, b: seq<Message>)
    ensures VisibleOnly(a + b) == VisibleOnly(a) + VisibleOnly(b)
  {
    if a == [] {
      assert a + b == b;
    } else {
      assert (a + b)[1..] == a[1..] + b;
      VisibleOfConcat(a[1..], b);
    }
  }

  lemma {:induction false} VisibleOfOne(m: Message)
    ensures VisibleOnly([m]) == if m.role in {SkillProposal, Note} then [] else [m]
  {
  }

  /** The size of a history is that of its parts: the text of each message, and the names and
      arguments of its calls. */
  lemma {:induction false} CharsOfConcat(a: seq<Message>, b: seq<Message>)
    ensures Compactor.Chars(a + b) == Compactor.Chars(a) + Compactor.Chars(b)
  {
    if a == [] {
      assert a + b == b;
    } else {
      assert (a + b)[1..] == a[1..] + b;
      CharsOfConcat(a[1..], b);
    }
  }

  lemma {:induction false} CharsOfOne(role: Role, content: string, call: ToolCall, id: Option<string>, name: string)
    ensures Compactor.Chars([Message(role, content, [call], id, name)]) == |content| + |call.name| + |call.argText|
    ensures Compactor.Chars([Message(role, content, [], id, name)]) == |content|
  {
    var with, without := [Message(role, content, [call], id, name)], [Message(role, content, [], id, name)];
    assert with[1..] == [] && without[1..] == [] && [call][1..] == [];
    assert CallChars([]) == 0 && CallChars([call]) == |call.name| + |call.argText|;
    assert with[0].toolCalls == [call] && Compactor.Chars([]) == 0;
  }

  // ---------------------------------------------------------------- when nothing is compacted

  /** An automatic call within its budget of characters changes nothing but long tool outputs. */
  lemma {:induction false} WithinBudgetStays(messages: seq<Message>, cfg: Config, tools: Tools, table: Table)
    requires !cfg.force && cfg.budget >= 1
    requires Compactor.Chars(Prune(VisibleOnly(messages), cfg)) < 4 * (cfg.budget + 1)
    ensures var o := Compacted(messages, cfg, tools, table);
      o.messages == Prune(VisibleOnly(messages), cfg) && o.metrics.turnsCompacted == 0 && o.table == table
  {
  }

  /** Neither does any call when all that could be summarised are summaries already. */
  lemma {:induction false} AlreadyCompactStays(messages: seq<Message>, cfg: Config, tools: Tools, table: Table)
    requires HasMiddle(Prune(VisibleOnly(messages), cfg), cfg)
    requires var turns := PlanOf(Prune(VisibleOnly(messages), cfg), cfg).middle;
      && (exists k :: 0 <= k < |turns| && k !in Pins(turns))
      && (forall k :: 0 <= k < |turns| && k !in Pins(turns) ==> MARKER <= turns[k].content)
    ensures var o := Compacted(messages, cfg, tools, table);
      o.messages == Prune(VisibleOnly(messages), cfg) && o.metrics.turnsCompacted == 0 && o.table == table
  {
    var p := Prune(VisibleOnly(messages), cfg);
    var turns := PlanOf(p, cfg).middle;
    forall m ensures m in Unpinned(turns, Pins(turns), 0) ==> IsSummary(m) {
      UnpinnedAre(turns, Pins(turns), 0, m);
      if m in Unpinned(turns, Pins(turns), 0) {
        MarkedIsSummary(m);
      }
    }
    var k :| 0 <= k < |turns| && k !in Pins(turns);
    UnpinnedAre(turns, Pins(turns), 0, turns[k]);
    NothingNewExit(p, EstimateTokens(VisibleOnly(messages)), TruncatedCount(VisibleOnly(messages), cfg),
                   cfg, tools, table);
  }

  lemma {:induction false} NothingNewExit(pruned: seq<Message>, original: nat, truncated: nat, cfg: Config,
                                          tools: Tools, table: Table)
    requires HasMiddle(pruned, cfg) && NothingNew(PlanOf(pruned, cfg))
    ensures var o := AfterPruning(pruned, original, truncated, cfg, tools, table);
      o.messages == pruned && o.metrics.turnsCompacted == 0 && o.table == table
  {
  }

  lemma {:induction false} UnpinnedAre(turns: seq<Message>, pins: map<nat, Message>, i: nat, m: Message)
    requires i <= |turns|
    ensures m in Unpinned(turns, pins, i) <==> exists k :: i <= k < |turns| && k !in pins && turns[k] == m
    decreases |turns| - i
  {
    if i < |turns| {
      UnpinnedAre(turns, pins, i + 1, m);
    }
  }

  lemma {:induction false} MarkedIsSummary(m: Message)
    requires MARKER <= m.content
    ensures IsSummary(m)
  {
    assert m.content[0] == '[' && StripStart(m.content, Spaces) == m.content;
  }

  // ---------------------------------------------------------------- the front

  /** How many messages stay in front: a system message that comes first, and the user message
      right after it (or first) when the root intent is preserved. */
  lemma {:induction false} HeadIs(pruned: seq<Message>, cfg: Config)
    requires HasMiddle(pruned, cfg)
    ensures |pruned| >= 2
    ensures var head := PlanOf(pruned, cfg).head;
      var root := cfg.preserveRoot;
      && (pruned[0].role == System && root && pruned[1].role == User ==> head == pruned[..2])
      && (pruned[0].role == System && !(root && pruned[1].role == User) ==> head == pruned[..1])
      && (pruned[0].role == User && root ==> head == pruned[..1])
      && (pruned[0].role != System && !(root && pruned[0].role == User) ==> head == [])
  {
  }

  /** Every call leaves the pruned history as it is, or keeps its head in front and its recent
      window at the end. */
  lemma {:induction false} EndsStay(messages: seq<Message>, cfg: Config, tools: Tools, table: Table)
    ensures var p, out := Prune(VisibleOnly(messages), cfg), Compacted(messages, cfg, tools, table).messages;
      || out == p
      || (HasMiddle(p, cfg)
          && exists between: seq<Message> :: out == PlanOf(p, cfg).head + between + PlanOf(p, cfg).recent)
  {
    var p, out := Prune(VisibleOnly(messages), cfg), Compacted(messages, cfg, tools, table).messages;
    CompactionIsRunReplacement(messages, cfg, tools, table);
    if out != p {
      var texts: seq<string> :| IsReplacement(PlanOf(p, cfg), texts, tools, out);
      assert out == PlanOf(p, cfg).head + Rebuilt(PlanOf(p, cfg).Segs(), texts) + PlanOf(p, cfg).recent;
    }
  }

  /** What is not a tool output is pruned to itself. */
  lemma {:induction false} PrunedAt(ms: seq<Message>, cfg: Config, k: nat)
    requires k < |ms| && ms[k].role != Tool
    ensures |Prune(ms, cfg)| == |ms| && Prune(ms, cfg)[k] == ms[k]
  {
  }

  /** A system message that comes first stays first, unchanged, in every call. */
  lemma {:induction false} SystemStays(messages: seq<Message>, cfg: Config, tools: Tools, table: Table)
    requires messages != [] && messages[0].role == System
    ensures var out := Compacted(messages, cfg, tools, table).messages; out != [] && out[0] == messages[0]
  {
    var v := VisibleOnly(messages);
    assert v[0] == messages[0];
    PrunedAt(v, cfg, 0);
    EndsStay(messages, cfg, tools, table);
    if HasMiddle(Prune(v, cfg), cfg) {
      HeadIs(Prune(v, cfg), cfg);
    }
  }

  /** So does the first user message, right after the system message or first itself, when the
      root intent is preserved. */
  lemma {:induction false} RootIntentStays(messages: seq<Message>, cfg: Config, tools: Tools, table: Table)
    requires cfg.preserveRoot
    ensures var v, out := VisibleOnly(messages), Compacted(messages, cfg, tools, table).messages;
      && (v != [] && v[0].role == User ==> out != [] && out[0] == v[0])
      && (|v| > 1 && v[0].role == System && v[1].role == User ==> |out| > 1 && out[0] == v[0] && out[1] == v[1])
  {
    var v := VisibleOnly(messages);
    if v != [] && v[0].role == User {
      PrunedAt(v, cfg, 0);
    } else if |v| > 1 && v[0].role == System && v[1].role == User {
      PrunedAt(v, cfg, 0);
      PrunedAt(v, cfg, 1);
    }
    EndsStay(messages, cfg, tools, table);
    if HasMiddle(Prune(v, cfg), cfg) {
      HeadIs(Prune(v, cfg), cfg);
    }
  }

  // ---------------------------------------------------------------- the recent window

  /** At least two messages, and two for each turn to keep. */
  function WantedRecent(cfg: Config): (n: nat)
    ensures n >= 2 && n >= 2 * cfg.keepLastTurns && (n == 2 || n == 2 * cfg.keepLastTurns)
  {
    cfg.Keep()
  }

  /** The last messages stay at the end, in order and as they were pruned. */
  lemma {:induction false} RecentStay(messages: seq<Message>, cfg: Config, tools: Tools, table: Table, n: nat)
    requires n <= WantedRecent(cfg)
    ensures var p, out := Prune(VisibleOnly(messages), cfg), Compacted(messages, cfg, tools, table).messages;
      n <= |p| ==> n <= |out| && out[|out| - n..] == p[|p| - n..]
  {
    var p, out := Prune(VisibleOnly(messages), cfg), Compacted(messages, cfg, tools, table).messages;
    EndsStay(messages, cfg, tools, table);
    if out != p && n <= |p| {
      var between: seq<Message> :| out == PlanOf(p, cfg).head + between + PlanOf(p, cfg).recent;
      RecentIsLong(p, cfg);
      SameRecent(PlanOf(p, cfg), p, between, out, n);
    }
  }

  lemma {:induction false} RecentIsLong(p: seq<Message>, cfg: Config)
    requires HasMiddle(p, cfg)
    ensures var plan := PlanOf(p, cfg);
      p == plan.head + plan.middle + plan.recent && |plan.recent| >= WantedRecent(cfg)
  {
    PlanPieces(p, cfg);
  }

  lemma {:induction false} SameRecent(plan: Plan, p: seq<Message>, between: seq<Message>, out: seq<Message>, n: nat)
    requires p == plan.head + plan.middle + plan.recent && out == plan.head + between + plan.recent
    requires n <= |plan.recent|
    ensures n <= |p| && n <= |out| && out[|out| - n..] == p[|p| - n..]
  {
    SameEnd(plan.head + between, plan.head + plan.middle, plan.recent, n);
  }

  lemma {:induction false} SameEnd(a: seq<Message>, b: seq<Message>, end: seq<Message>, n: nat)
    requires n <= |end|
    ensures (a + end)[|a + end| - n..] == (b + end)[|b + end| - n..]
  {
    assert (a + end)[|a + end| - n..] == end[|end| - n..] == (b + end)[|b + end| - n..];
  }

  /** The window is larger than wanted only to take in the call of a tool return. */
  lemma {:induction false} RecentIsWanted(pruned: seq<Message>, cfg: Config)
    requires HasMiddle(pruned, cfg)
    ensures var n := WantedRecent(cfg);
      n < |pruned| && (pruned[|pruned| - n].role != Tool ==> PlanOf(pruned, cfg).recent == pruned[|pruned| - n..])
  {
    var head, n := HeadCount(pruned, cfg.preserveRoot), WantedRecent(cfg);
    var turns := pruned[head..];
    assert turns[|turns| - n] == pruned[|pruned| - n] && turns[|turns| - n..] == pruned[|pruned| - n..];
  }

  // ---------------------------------------------------------------- the pinned skill_view

  /** Call k is the last skill_view call of the message. */
  predicate IsLastView(calls: seq<ToolCall>, k: nat) {
    && k < |calls| && calls[k].name == "skill_view"
    && forall m :: k < m < |calls| ==> calls[m].name != "skill_view"
  }

  /** Turn r is the first return of the call after turn c. */
  predicate FirstAnswer(turns: seq<Message>, c: nat, id: string, r: nat) {
    && c < r < |turns| && turns[r].role == Tool && turns[r].toolCallId == Some(id)
    && forall m :: c < m < r ==> !(turns[m].role == Tool && turns[m].toolCallId == Some(id))
  }

  /** No turn after c calls skill_view and is answered. */
  ghost predicate NoLaterView(turns: seq<Message>, c: nat) {
    forall d: nat, k: nat, r: nat
      | c < d < |turns| && turns[d].role == Assistant && IsLastView(turns[d].toolCalls, k) ::
      !FirstAnswer(turns, d, turns[d].toolCalls[k].id, r)
  }

  lemma {:induction false} LastViewIs(calls: seq<ToolCall>, k: nat)
    requires IsLastView(calls, k)
    ensures LastView(calls) == Some(calls[k])
  {
    if k < |calls| - 1 {
      var front := calls[..|calls| - 1];
      assert front[k] == calls[k] && forall m :: k < m < |front| ==> front[m] == calls[m];
      LastViewIs(front, k);
    }
  }

  lemma {:induction false} LastViewAt(calls: seq<ToolCall>)
    ensures LastView(calls).Some? ==> exists k: nat :: IsLastView(calls, k) && LastView(calls) == Some(calls[k])
  {
    if calls != [] {
      if calls[|calls| - 1].name == SKILL_VIEW {
        assert IsLastView(calls, |calls| - 1);
      } else if LastView(calls).Some? {
        var front := calls[..|calls| - 1];
        LastViewAt(front);
        var k: nat :| IsLastView(front, k) && LastView(front) == Some(front[k]);
        assert IsLastView(calls, k);
      }
    }
  }

  lemma {:induction false} FirstReturnIs(turns: seq<Message>, i: nat, id: string, r: nat)
    requires i <= r < |turns| && IsReturn(turns[r], id) && forall m :: i <= m < r ==> !IsReturn(turns[m], id)
    ensures FirstReturn(turns, i, id) == r
    decreases r - i
  {
    if i < r {
      FirstReturnIs(turns, i + 1, id, r);
    }
  }

  lemma {:induction false} FirstReturnAnswers(turns: seq<Message>, c: nat, id: string)
    requires c < |turns|
    ensures FirstReturn(turns, c + 1, id) < |turns| ==> FirstAnswer(turns, c, id, FirstReturn(turns, c + 1, id))
  {
    NoneBefore(turns, c + 1, id);
  }

  lemma {:induction false} NoneBefore(turns: seq<Message>, i: nat, id: string)
    requires i <= |turns|
    ensures forall m :: i <= m < FirstReturn(turns, i, id) ==> !IsReturn(turns[m], id)
    decreases |turns| - i
  {
    if i < |turns| && !IsReturn(turns[i], id) {
      NoneBefore(turns, i + 1, id);
    }
  }

  lemma {:induction false} NotAnsweredView(turns: seq<Message>, c: nat, d: nat)
    requires NoLaterView(turns, c) && c < d < |turns|
    ensures !AnsweredView(turns, d)
  {
    if AnsweredView(turns, d) {
      LastViewAt(turns[d].toolCalls);
      var k: nat :| IsLastView(turns[d].toolCalls, k) && LastView(turns[d].toolCalls) == Some(turns[d].toolCalls[k]);
      FirstReturnAnswers(turns, d, turns[d].toolCalls[k].id);
    }
  }

  lemma {:induction false} LatestViewIs(turns: seq<Message>, n: nat, c: nat)
    requires c < n <= |turns| && AnsweredView(turns, c) && NoLaterView(turns, c)
    ensures LatestView(turns, n) == Some(c)
  {
    if c < n - 1 {
      NotAnsweredView(turns, c, n - 1);
      LatestViewIs(turns, n - 1, c);
    }
  }

  /** The latest skill_view that was answered stays, as the one call of its message, and so does
      its return, word for word. */
  lemma {:induction false} LatestViewIsKept(turns: seq<Message>, c: nat, k: nat, r: nat)
    requires c < |turns| && turns[c].role == Assistant && IsLastView(turns[c].toolCalls, k)
    requires FirstAnswer(turns, c, turns[c].toolCalls[k].id, r) && NoLaterView(turns, c)
    ensures var segs := Segments(turns, Pins(turns), 0, []);
      && Kept(turns[c], turns[c].(toolCalls := [turns[c].toolCalls[k]])) in segs
      && Kept(turns[r], turns[r]) in segs
  {
    var call := turns[c].toolCalls[k];
    LastViewIs(turns[c].toolCalls, k);
    FirstReturnIs(turns, c + 1, call.id, r);
    LatestViewIs(turns, |turns|, c);
    assert ViewPin(turns) == map[c := turns[c].(toolCalls := [call]), r := turns[r]];
    SegmentsKeepPins(turns, Pins(turns), 0, [], Kept(turns[c], turns[c].(toolCalls := [call])));
    SegmentsKeepPins(turns, Pins(turns), 0, [], Kept(turns[r], turns[r]));
  }

  /** What is kept of the middle is in the result. */
  lemma {:induction false} KeptIsThere(segs: seq<Segment>, texts: seq<string>, seg: Segment)
    requires |texts| == RunCount(segs) && seg in segs && seg.Kept?
    ensures seg.kept in Rebuilt(segs, texts)
  {
    if segs[0] != seg {
      assert seg in segs[1..];
      KeptIsThere(segs[1..], if segs[0].Run? then texts[1..] else texts, seg);
    }
  }

  /** So the latest user message and the latest answered skill_view of the middle are in the
      result of every call. */
  lemma {:induction false} PinsComeThrough(messages: seq<Message>, cfg: Config, tools: Tools, table: Table,
                                             seg: Segment)
    requires HasMiddle(Prune(VisibleOnly(messages), cfg), cfg)
    requires seg.Kept? && seg in PlanOf(Prune(VisibleOnly(messages), cfg), cfg).Segs()
    ensures var out := Compacted(messages, cfg, tools, table).messages; seg.original in out || seg.kept in out
  {
    var p, out := Prune(VisibleOnly(messages), cfg), Compacted(messages, cfg, tools, table).messages;
    var plan := PlanOf(p, cfg);
    CompactionIsRunReplacement(messages, cfg, tools, table);
    if out == p {
      OriginalIsThere(plan.Segs(), seg);
    } else {
      var texts: seq<string> :| IsReplacement(plan, texts, tools, out);
      KeptIsThere(plan.Segs(), texts, seg);
    }
  }

  lemma {:induction false} OriginalIsThere(segs: seq<Segment>, seg: Segment)
    requires seg in segs && seg.Kept?
    ensures seg.original in Originals(segs)
  {
    if segs[0] != seg {
      assert seg in segs[1..];
      OriginalIsThere(segs[1..], seg);
    }
  }
}
