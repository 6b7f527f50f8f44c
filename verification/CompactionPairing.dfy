/** Compaction keeps tool calls and tool returns together
    (src/application/kernel/context_compactor.py, lines 287-314 and 471-481).  A summary may
    stand between a pinned call and its return, so pairing goes by call id. */
module CompactionPairing {
  import opened Texts
  import opened Chat
  import opened Backoff
  import opened Compactor
  import opened CompactionReplaces

  function CallIds(m: Message): set<string> {
    if m.role == Assistant then set call <- m.toolCalls :: call.id else {}
  }

  function AllCallIds(ms: seq<Message>): set<string> {
    if ms == [] then {} else CallIds(ms[0]) + AllCallIds(ms[1..])
  }

  function ReturnId(m: Message): set<string> {
    if m.role == Tool && m.toolCallId.Some? then {m.toolCallId.value} else {}
  }

  function Returns(ms: seq<Message>): set<string> {
    if ms == [] then {} else ReturnId(ms[0]) + Returns(ms[1..])
  }

  /** Each tool return follows its calling assistant message with only tool returns between;
      `open` are the calls of the message that the returns at the front may answer. */
  predicate Tight(open: set<string>, ms: seq<Message>)
    decreases |ms|
  {
    ms == [] ||
    if ms[0].role == Tool then ReturnId(ms[0]) != {} && ReturnId(ms[0]) <= open && Tight(open, ms[1..])
    else Tight(CallIds(ms[0]), ms[1..])
  }

  /** No call id is used by two messages. */
  predicate UniqueCalls(ms: seq<Message>) {
    ms == [] || (CallIds(ms[0]) !! AllCallIds(ms[1..]) && UniqueCalls(ms[1..]))
  }

  /** Every tool return has its call earlier (`seen` are the calls before ms). */
  predicate ReturnsFollowCalls(seen: set<string>, ms: seq<Message>)
    decreases |ms|
  {
    ms == [] ||
    ((ms[0].role == Tool ==> ReturnId(ms[0]) != {} && ReturnId(ms[0]) <= seen)
     && ReturnsFollowCalls(seen + CallIds(ms[0]), ms[1..]))
  }

  /** Every call whose id is in `answered` has its return later on. */
  predicate CallsHaveReturns(ms: seq<Message>, answered: set<string>) {
    ms == [] || (CallIds(ms[0]) * answered <= Returns(ms[1..]) && CallsHaveReturns(ms[1..], answered))
  }

  // ---------------------------------------------------------------- putting pieces together

  lemma {:induction false} MoreSeen(a: set<string>, b: set<string>, ms: seq<Message>)
    requires a <= b && ReturnsFollowCalls(a, ms)
    ensures ReturnsFollowCalls(b, ms)
    decreases |ms|
  {
    if ms != [] {
      MoreSeen(a + CallIds(ms[0]), b + CallIds(ms[0]), ms[1..]);
    }
  }

  lemma {:induction false} FollowConcat(seen: set<string>, a: seq<Message>, b: seq<Message>)
    requires ReturnsFollowCalls(seen, a) && ReturnsFollowCalls(seen, b)
    ensures ReturnsFollowCalls(seen, a + b)
    decreases |a|
  {
    if a == [] {
      assert a + b == b;
    } else {
      assert (a + b)[1..] == a[1..] + b;
      MoreSeen(seen, seen + CallIds(a[0]), b);
      FollowConcat(seen + CallIds(a[0]), a[1..], b);
    }
  }

  lemma {:induction false} ReturnsConcat(a: seq<Message>, b: seq<Message>)
    ensures Returns(a + b) == Returns(a) + Returns(b)
    ensures AllCallIds(a + b) == AllCallIds(a) + AllCallIds(b)
  {
    if a == [] {
      assert a + b == b;
    } else {
      assert (a + b)[1..] == a[1..] + b;
      ReturnsConcat(a[1..], b);
    }
  }

  lemma {:induction false} HaveConcat(a: seq<Message>, b: seq<Message>, answered: set<string>)
    requires CallsHaveReturns(a, answered) && CallsHaveReturns(b, answered)
    ensures CallsHaveReturns(a + b, answered)
  {
    if a == [] {
      assert a + b == b;
    } else {
      assert (a + b)[1..] == a[1..] + b;
      HaveConcat(a[1..], b, answered);
      ReturnsConcat(a[1..], b);
    }
  }

  lemma {:induction false} HaveSuffix(ms: seq<Message>, k: nat, answered: set<string>)
    requires k <= |ms| && CallsHaveReturns(ms, answered)
    ensures CallsHaveReturns(ms[k..], answered)
  {
    if k > 0 {
      assert ms[1..][k - 1..] == ms[k..];
      HaveSuffix(ms[1..], k - 1, answered);
    } else {
      assert ms[0..] == ms;
    }
  }

  lemma {:induction false} TightSuffix(open: set<string>, ms: seq<Message>, k: nat)
    requires k < |ms| && Tight(open, ms) && ms[k].role != Tool
    ensures Tight({}, ms[k..])
    decreases |ms|
  {
    if k > 0 {
      assert ms[1..][k - 1..] == ms[k..];
      TightSuffix(if ms[0].role == Tool then open else CallIds(ms[0]), ms[1..], k - 1);
    } else {
      assert ms[0..] == ms;
    }
  }

  /** Tight histories are well ordered ... */
  lemma {:induction false} TightFollows(open: set<string>, ms: seq<Message>)
    requires Tight(open, ms)
    ensures ReturnsFollowCalls(open, ms)
    decreases |ms|
  {
    if ms != [] {
      if ms[0].role == Tool {
        TightFollows(open, ms[1..]);
        assert open + CallIds(ms[0]) == open;
      } else {
        TightFollows(CallIds(ms[0]), ms[1..]);
        MoreSeen(CallIds(ms[0]), open + CallIds(ms[0]), ms[1..]);
      }
    }
  }

  lemma {:induction false} TightReturns(open: set<string>, ms: seq<Message>)
    requires Tight(open, ms)
    ensures Returns(ms) <= open + AllCallIds(ms)
    decreases |ms|
  {
    if ms != [] {
      TightReturns(if ms[0].role == Tool then open else CallIds(ms[0]), ms[1..]);
    }
  }

  /** ... and with unique ids a call is answered after itself or not at all. */
  lemma {:induction false} TightAnswers(open: set<string>, ms: seq<Message>, before: set<string>)
    requires Tight(open, ms) && UniqueCalls(ms)
    requires before !! AllCallIds(ms) && open !! AllCallIds(ms)
    ensures CallsHaveReturns(ms, before + Returns(ms))
    decreases |ms|
  {
    if ms != [] {
      var rest := ms[1..];
      var next := if ms[0].role == Tool then open else CallIds(ms[0]);
      TightAnswers(next, rest, before + ReturnId(ms[0]));
      assert before + ReturnId(ms[0]) + Returns(rest) == before + Returns(ms);
    }
  }

  // ---------------------------------------------------------------- what pruning keeps

  lemma {:induction false} PruneKeepsCalls(ms: seq<Message>, cfg: Config)
    ensures var pruned := Prune(ms, cfg);
      && AllCallIds(pruned) == AllCallIds(ms) && Returns(pruned) == Returns(ms)
      && (UniqueCalls(ms) ==> UniqueCalls(pruned))
      && (forall open :: Tight(open, ms) ==> Tight(open, pruned))
  {
    if ms != [] {
      PruneKeepsCalls(ms[1..], cfg);
      assert Prune(ms, cfg)[1..] == Prune(ms[1..], cfg);
      assert CallIds(PruneOne(ms[0], cfg)) == CallIds(ms[0]) && ReturnId(PruneOne(ms[0], cfg)) == ReturnId(ms[0]);
    }
  }

  // ---------------------------------------------------------------- the middle

  /** The kept messages of the segments, without the summaries. */
  function KeptOnly(segs: seq<Segment>): seq<Message> {
    if segs == [] then []
    else if segs[0].Kept? then [segs[0].kept] + KeptOnly(segs[1..])
    else KeptOnly(segs[1..])
  }

  /** Summaries neither make nor answer calls. */
  lemma {:induction false} SummariesAreNeutral(segs: seq<Segment>, texts: seq<string>, seen: set<string>,
                                               answered: set<string>)
    requires |texts| == RunCount(segs)
    ensures ReturnsFollowCalls(seen, Rebuilt(segs, texts)) == ReturnsFollowCalls(seen, KeptOnly(segs))
    ensures CallsHaveReturns(Rebuilt(segs, texts), answered) == CallsHaveReturns(KeptOnly(segs), answered)
    ensures Returns(Rebuilt(segs, texts)) == Returns(KeptOnly(segs))
  {
    if segs != [] {
      match segs[0]
      case Kept(_, kept) =>
        SummariesAreNeutral(segs[1..], texts, seen + CallIds(kept), answered);
        assert Rebuilt(segs, texts)[1..] == Rebuilt(segs[1..], texts);
        assert KeptOnly(segs)[1..] == KeptOnly(segs[1..]);
      case Run(_) =>
        SummariesAreNeutral(segs[1..], texts[1..], seen, answered);
        var s := Plain(Assistant, texts[0]);
        assert CallIds(s) == {} && seen + CallIds(s) == seen;
        assert Rebuilt(segs, texts)[1..] == Rebuilt(segs[1..], texts[1..]);
    }
  }

  /** The pinned messages in index order from i on. */
  function PinList(turns: seq<Message>, pins: map<nat, Message>, i: nat): seq<Message>
    requires i <= |turns|
    decreases |turns| - i
  {
    if i == |turns| then []
    else if i in pins then [pins[i]] + PinList(turns, pins, i + 1)
    else PinList(turns, pins, i + 1)
  }

  lemma {:induction false} KeptOnlyConcat(a: seq<Segment>, b: seq<Segment>)
    ensures KeptOnly(a + b) == KeptOnly(a) + KeptOnly(b)
  {
    if a == [] {
      assert a + b == b;
    } else {
      assert (a + b)[1..] == a[1..] + b;
      KeptOnlyConcat(a[1..], b);
    }
  }

  lemma {:induction false} KeptOnlyOfSegments(turns: seq<Message>, pins: map<nat, Message>, i: nat, run: seq<Message>)
    requires i <= |turns|
    ensures KeptOnly(Segments(turns, pins, i, run)) == PinList(turns, pins, i)
    decreases |turns| - i
  {
    assert KeptOnly(Closed(run)) == [] by {
      if run != [] {
        assert [Run(run)][1..] == [];
      }
    }
    if i == |turns| {
    } else if i in pins {
      KeptOnlyOfSegments(turns, pins, i + 1, []);
      var kept := [Kept(turns[i], pins[i])];
      assert kept[1..] == [] && KeptOnly(kept) == [pins[i]];
      KeptOnlyConcat(Closed(run) + kept, Segments(turns, pins, i + 1, []));
      KeptOnlyConcat(Closed(run), kept);
    } else {
      KeptOnlyOfSegments(turns, pins, i + 1, run + [turns[i]]);
    }
  }

  /** What is pinned: messages without calls or returns, apart from one call at c and its
      return at r. */
  ghost predicate OneExchange(turns: seq<Message>, pins: map<nat, Message>, c: nat, r: nat, id: string) {
    && c < r < |turns| && c in pins && r in pins
    && CallIds(pins[c]) == {id} && pins[c].role == Assistant
    && pins[r].role == Tool && ReturnId(pins[r]) == {id}
    && forall k <- pins :: k != c && k != r ==> pins[k].role == User
  }

  lemma {:induction false} PinListFollows(turns: seq<Message>, pins: map<nat, Message>, i: nat, seen: set<string>,
                                          c: nat, r: nat, id: string)
    requires i <= |turns| && OneExchange(turns, pins, c, r, id) && (i > c ==> id in seen)
    ensures ReturnsFollowCalls(seen, PinList(turns, pins, i))
    decreases |turns| - i
  {
    if i < |turns| {
      if i in pins {
        PinListFollows(turns, pins, i + 1, seen + CallIds(pins[i]), c, r, id);
        assert PinList(turns, pins, i)[1..] == PinList(turns, pins, i + 1);
      } else {
        PinListFollows(turns, pins, i + 1, seen, c, r, id);
      }
    }
  }

  lemma {:induction false} PinListReturns(turns: seq<Message>, pins: map<nat, Message>, i: nat,
                                          c: nat, r: nat, id: string, answered: set<string>)
    requires i <= |turns| && OneExchange(turns, pins, c, r, id)
    ensures i <= r ==> id in Returns(PinList(turns, pins, i))
    ensures CallsHaveReturns(PinList(turns, pins, i), answered)
    decreases |turns| - i
  {
    if i < |turns| {
      PinListReturns(turns, pins, i + 1, c, r, id, answered);
      if i in pins {
        assert PinList(turns, pins, i)[1..] == PinList(turns, pins, i + 1);
      }
    }
  }

  lemma {:induction false} UsersOnly(turns: seq<Message>, pins: map<nat, Message>, i: nat, answered: set<string>)
    requires i <= |turns| && forall k <- pins :: pins[k].role == User
    ensures ReturnsFollowCalls({}, PinList(turns, pins, i)) && CallsHaveReturns(PinList(turns, pins, i), answered)
    decreases |turns| - i
  {
    if i < |turns| {
      UsersOnly(turns, pins, i + 1, answered);
      if i in pins {
        assert PinList(turns, pins, i)[1..] == PinList(turns, pins, i + 1);
        assert {} + CallIds(pins[i]) == {};
      }
    }
  }

  lemma {:induction false} MiddlePaired(turns: seq<Message>, answered: set<string>)
    ensures ReturnsFollowCalls({}, PinList(turns, Pins(turns), 0))
    ensures CallsHaveReturns(PinList(turns, Pins(turns), 0), answered)
  {
    match LatestView(turns, |turns|)
    case None => UsersOnly(turns, Pins(turns), 0, answered);
    case Some(c) =>
      var call := LastView(turns[c].toolCalls).value;
      var r := FirstReturn(turns, c + 1, call.id);
      assert CallIds(turns[c].(toolCalls := [call])) == {call.id};
      assert OneExchange(turns, Pins(turns), c, r, call.id);
      PinListFollows(turns, Pins(turns), 0, {}, c, r, call.id);
      PinListReturns(turns, Pins(turns), 0, c, r, call.id, answered);
  }

  // ---------------------------------------------------------------- the whole result

  lemma {:induction false} HeadIsNeutral(pruned: seq<Message>, cfg: Config, answered: set<string>)
    requires HasMiddle(pruned, cfg)
    ensures var head := PlanOf(pruned, cfg).head;
      && ReturnsFollowCalls({}, head) && CallsHaveReturns(head, answered)
      && (forall m <- head :: m.role != Tool && m.role != Assistant)
  {
    var head := PlanOf(pruned, cfg).head;
    assert |head| <= 2 && forall m <- head :: m.role == System || m.role == User;
    if |head| > 0 {
      assert {} + CallIds(head[0]) == {} && CallIds(head[0]) == {};
      if |head| > 1 {
        assert {} + CallIds(head[1]) == {} && CallIds(head[1]) == {};
        assert head[1..][1..] == [];
      } else {
        assert head[1..] == [];
      }
    }
  }

  lemma {:induction false} TightAfterHead(head: seq<Message>, rest: seq<Message>)
    requires Tight({}, head + rest) && forall m <- head :: m.role != Tool && m.role != Assistant
    ensures Tight({}, rest)
  {
    if head == [] {
      assert head + rest == rest;
    } else {
      assert (head + rest)[1..] == head[1..] + rest && CallIds(head[0]) == {};
      TightAfterHead(head[1..], rest);
    }
  }

  lemma {:induction false} RecentIsTight(pruned: seq<Message>, cfg: Config)
    requires HasMiddle(pruned, cfg) && Tight({}, pruned)
    ensures Tight({}, PlanOf(pruned, cfg).recent)
  {
    var plan := PlanOf(pruned, cfg);
    PlanPieces(pruned, cfg);
    if plan.middle == [] {
      HeadIsNeutral(pruned, cfg, {});
      assert pruned == plan.head + plan.recent;
      TightAfterHead(plan.head, plan.recent);
    } else {
      var k := |plan.head| + |plan.middle|;
      assert pruned[k..] == plan.recent && pruned[k] == plan.recent[0];
      TightSuffix({}, pruned, k);
    }
  }

  lemma {:induction false} ReplacementPaired(pruned: seq<Message>, cfg: Config, texts: seq<string>, tools: Tools,
                                             out: seq<Message>)
    requires HasMiddle(pruned, cfg) && IsReplacement(PlanOf(pruned, cfg), texts, tools, out)
    requires Tight({}, pruned) && UniqueCalls(pruned)
    ensures ReturnsFollowCalls({}, out) && CallsHaveReturns(out, Returns(pruned))
  {
    var plan := PlanOf(pruned, cfg);
    var answered := Returns(pruned);
    var middle := Rebuilt(plan.Segs(), texts);
    MiddlePaired(plan.middle, answered);
    KeptOnlyOfSegments(plan.middle, Pins(plan.middle), 0, []);
    SummariesAreNeutral(plan.Segs(), texts, {}, answered);
    HeadIsNeutral(pruned, cfg, answered);
    RecentIsTight(pruned, cfg);
    TightFollows({}, plan.recent);
    FollowConcat({}, plan.head, middle);
    FollowConcat({}, plan.head + middle, plan.recent);
    TightAnswers({}, pruned, {});
    assert {} + Returns(pruned) == answered;
    PlanPieces(pruned, cfg);
    assert pruned[|plan.head| + |plan.middle|..] == plan.recent;
    HaveSuffix(pruned, |plan.head| + |plan.middle|, answered);
    HaveConcat(plan.head, middle, answered);
    HaveConcat(plan.head + middle, plan.recent, answered);
  }

  /** If each tool return follows its call with only tool returns between and call ids are
      unique, then after compaction every tool return has its call earlier, every call that
      was answered still has its return after it, and the recent window opens on a tool
      return only if nothing was cut. */
  lemma {:induction false} CompactionKeepsPairs(messages: seq<Message>, cfg: Config, tools: Tools, table: Table)
    requires Tight({}, VisibleOnly(messages)) && UniqueCalls(VisibleOnly(messages))
    ensures var out := Compacted(messages, cfg, tools, table).messages;
      var pruned := Prune(VisibleOnly(messages), cfg);
      && ReturnsFollowCalls({}, out)
      && CallsHaveReturns(out, Returns(VisibleOnly(messages)))
      && (HasMiddle(pruned, cfg) && PlanOf(pruned, cfg).recent[0].role == Tool ==> PlanOf(pruned, cfg).middle == [])
  {
    var visible := VisibleOnly(messages);
    var pruned := Prune(visible, cfg);
    var out := Compacted(messages, cfg, tools, table).messages;
    PruneKeepsCalls(visible, cfg);
    CompactionIsRunReplacement(messages, cfg, tools, table);
    if HasMiddle(pruned, cfg) {
      PlanPieces(pruned, cfg);
    }
    if out == pruned {
      TightFollows({}, pruned);
      TightAnswers({}, pruned, {});
      assert {} + Returns(pruned) == Returns(pruned);
    } else {
      var texts: seq<string> :| IsReplacement(PlanOf(pruned, cfg), texts, tools, out);
      ReplacementPaired(pruned, cfg, texts, tools, out);
    }
  }
}
