/** What the summary check does not protect, and how a fact is lost without the marker
    (src/application/kernel/compaction_verifier.py, lines 133-228;
    src/application/kernel/context_compactor.py, lines 508-566).

    A custom summarizer that lists exactly the required tokens under another title passes the
    check every time; the round after, nothing of its summaries is required any more. */
module CompactionLoss {
  import opened Texts
  import opened Chat
  import opened KeyTokens
  import opened SummaryFacts
  import opened SummaryCheck
  import opened Backoff
  import opened Compactor
  import opened CompactionFacts
  import opened CompactionBackoff

  // ---------------------------------------------------------------- texts without paths and numbers

  predicate HardFact(t: string) {
    KindOf(t) in {Path, Number}
  }

  /** The tokens of a text are made of its characters. */
  lemma {:induction false} TokensAreMadeOf(s: string, t: string, c: char)
    requires t in Tokens(s) && c in t
    ensures c in s
    decreases |s|
  {
    var m := StepLength(s);
    if t in TokenHere(s) {
      StripEndIsPrefix(s[..TokenLength(s)], Chars(TRAILING));
    } else {
      TokensAreMadeOf(s[m..], t, c);
    }
  }

  predicate NoSlashNoDigit(s: string) {
    forall c <- s :: c != '/' && !IsDigit(c)
  }

  lemma {:induction false} NormalizeKeepsPlain(s: string)
    requires NoSlashNoDigit(s)
    ensures NoSlashNoDigit(Normalize(s))
  {
    if s != "" {
      assert s[0] in s && forall c <- s[1..] :: c in s;
      NormalizeKeepsPlain(s[1..]);
    }
  }

  lemma {:induction false} HardFactsShow(t: string)
    requires HardFact(t)
    ensures !NoSlashNoDigit(t)
  {
    if IsPath(t) {
      assert '/' in t;
    } else {
      NumberHasDigit(t);
    }
  }

  lemma {:induction false} NumberHasDigit(t: string)
    requires IsNumber(t)
    ensures t != "" && IsDigit(t[0])
  {
    if p :| p in ClockPatterns() && |p| == |t| && Matches(p, t) {
      var i :| 0 <= i < |ClockPatterns()| && ClockPatterns()[i] == p;
      ClockPatternsAreClockLike(i);
    }
  }

  lemma {:induction false} PlainHasNoFacts(s: string, t: string)
    requires NoSlashNoDigit(s) && t in Units(s)
    ensures !HardFact(t)
  {
    NormalizeKeepsPlain(s);
    if HardFact(t) {
      HardFactsShow(t);
      var c :| c in t && (c == '/' || IsDigit(c));
      TokensAreMadeOf(Normalize(s), t, c);
    }
  }

  // ---------------------------------------------------------------- the shortest accepted summary

  const NOTES: string := "Notes"

  const NO_SECTIONS: Sections := Sections([], [], [])

  /** The required tokens, one per line. */
  function FactList(ms: seq<Message>): seq<string> {
    var facts := FactsOf(RequiredText(ms));
    facts.paths + facts.numbers + facts.names
  }

  /** Exactly the required tokens, under a title that is not the marker. */
  function FactsOnly(ms: seq<Message>): string {
    Laid(NOTES, NO_SECTIONS, FactList(ms))
  }

  lemma {:induction false} UnitsOfUnits(ts: seq<string>)
    requires AllAreUnits(ts)
    ensures AllUnits(ts) == ts
  {
    if ts != [] {
      UnitsOfTailList(ts);
      UnitsOfUnits(ts[1..]);
      NormalizeAscii(ts[0]);
      assert [ts[0]] + ts[1..] == ts;
    }
  }

  lemma {:induction false} FactListUnits(ms: seq<Message>)
    ensures AllUnits(FactList(ms)) == FactList(ms)
  {
    var text := RequiredText(ms);
    UnitsAreUnits(text, Path);
    UnitsAreUnits(text, Number);
    UnitsAreUnits(text, Name);
    UnitsOfUnits(FactList(ms));
  }

  /** Headings and fillers bear no path or number. */
  lemma {:induction false} FixedPartsArePlain()
    ensures NoSlashNoDigit(NOTES) && NoSlashNoDigit(DECISIONS) && NoSlashNoDigit(OPEN_TASKS)
    ensures NoSlashNoDigit(KEY_FACTS) && NoSlashNoDigit(Join("\n", OrNone([])))
  {
  }

  /** The paths and numbers of that summary are the required ones. */
  lemma {:induction false} FactsOnlyHas(ms: seq<Message>, t: string)
    ensures t in FactList(ms) ==> t in Units(FactsOnly(ms))
    ensures HardFact(t) && t in Units(FactsOnly(ms)) ==> t in FactList(ms)
  {
    UnitsOfLaid(NOTES, NO_SECTIONS, FactList(ms));
    FactListUnits(ms);
    if HardFact(t) && t in Units(FactsOnly(ms)) && t !in FactList(ms) {
      FixedPartsArePlain();
      var part :| part in {NOTES, DECISIONS, OPEN_TASKS, KEY_FACTS, Join("\n", OrNone([]))} && t in Units(part);
      PlainHasNoFacts(part, t);
    }
  }

  /** It is short enough when it has to be. */
  predicate ShortEnough(ms: seq<Message>, requireShorter: bool) {
    requireShorter && RenderOriginal(ms) != "" ==> |FactsOnly(ms)| < |RenderOriginal(ms)|
  }

  /** It passes the check of any run, unless it has to be shorter and is not. */
  lemma {:induction false} FactsOnlyPasses(ms: seq<Message>, requireShorter: bool)
    ensures CheckSummary(FactsOnly(ms), ms, requireShorter) == [] <==> ShortEnough(ms, requireShorter)
  {
    FactsOnlyComplete(ms);
  }

  lemma {:induction false} FactsOnlyComplete(ms: seq<Message>)
    ensures HeadingProblems(FactsOnly(ms)) == [] && TokenProblems(FactsOnly(ms), FactsOf(RequiredText(ms))) == []
  {
    var s, facts := FactsOnly(ms), FactsOf(RequiredText(ms));
    LaidHasHeadings(NOTES, NO_SECTIONS, FactList(ms));
    forall t | t in FactList(ms) ensures t in Units(s) {
      FactsOnlyHas(ms, t);
    }
    NothingMissing(facts.paths, Units(s));
    NothingMissing(facts.numbers, Units(s));
    NothingMissing(facts.names, Units(s));
  }

  lemma {:induction false} FactsOnlyUnmarked(ms: seq<Message>)
    ensures !IsSummary(Plain(Assistant, FactsOnly(ms)))
  {
    var s := FactsOnly(ms);
    assert s[0] == 'N' && StripStart(s, Spaces) == s;
  }

  // ---------------------------------------------------------------- exactly what the check protects

  ghost predicate Protected(ms: seq<Message>, t: string, requireShorter: bool) {
    forall s :: CheckSummary(s, ms, requireShorter) == [] ==> t in Units(s)
  }

  ghost predicate CarriedBy(ms: seq<Message>, t: string) {
    exists m <- ms :: Carries(m) && t in Units(m.content)
  }

  lemma {:induction false} CarriedIsListed(ms: seq<Message>, t: string)
    requires HardFact(t)
    ensures CarriedBy(ms, t) <==> t in FactList(ms)
  {
    var us := Units(RequiredText(ms));
    FirstOccurrencesComplete(us, Path);
    FirstOccurrencesComplete(us, Number);
    FirstOccurrencesComplete(us, Name);
    RequiredUnits(ms, t);
  }

  lemma {:induction false} CarriedIsProtected(ms: seq<Message>, t: string, requireShorter: bool)
    requires HardFact(t) && CarriedBy(ms, t)
    ensures Protected(ms, t, requireShorter)
  {
    var m :| m in ms && Carries(m) && t in Units(m.content);
    forall s | CheckSummary(s, ms, requireShorter) == [] ensures t in Units(s) {
      AcceptedKeepsFacts(s, ms, requireShorter, m, t);
    }
  }

  /** A path or number that a user message or a marked summary of a run has is in every accepted
      summary of it; and no other one is, unless the run leaves no room for the required
      tokens alone. */
  lemma {:induction false} ProtectedExactly(ms: seq<Message>, t: string, requireShorter: bool)
    requires HardFact(t)
    ensures CarriedBy(ms, t) ==> Protected(ms, t, requireShorter)
    ensures ShortEnough(ms, requireShorter) ==> (Protected(ms, t, requireShorter) <==> CarriedBy(ms, t))
  {
    CarriedIsListed(ms, t);
    if CarriedBy(ms, t) {
      CarriedIsProtected(ms, t, requireShorter);
    } else {
      FactsOnlyPasses(ms, requireShorter);
      FactsOnlyHas(ms, t);
    }
  }

  /** So a path or number of an earlier summary is safe in the next round, whatever summary the
      compactor accepts of it, if and only if that summary is marked. */
  lemma {:induction false} SafeIffMarked(text: string, t: string)
    requires HardFact(t) && t in Units(text)
    ensures var ms := [Plain(Assistant, text)];
      Protected(ms, t, MustShrink(ms)) <==> IsSummary(Plain(Assistant, text))
  {
    var ms := [Plain(Assistant, text)];
    ProtectedExactly(ms, t, MustShrink(ms));
    CarriedByOne(Plain(Assistant, text), t);
    if !IsSummary(Plain(Assistant, text)) {
      NothingListed(text);
      EmptyNoteIsShort();
    }
  }

  lemma {:induction false} CarriedByOne(m: Message, t: string)
    ensures CarriedBy([m], t) <==> Carries(m) && t in Units(m.content)
  {
    assert m in [m];
  }

  // ---------------------------------------------------------------- two rounds that lose a fact

  /** The custom summarizer, with the check that the source uses. */
  function NoteTaker(): Tools {
    Tools((run, limit, call) => FactsOnly(run), (s, run) => Verified(s, run))
  }

  /** An automatic call that is over its budget and keeps two messages. */
  const TIGHT: Config := Config(0, 1000, 700, 1, false, false, None, m => "")

  /** A first message, a later user message, and the two recent ones. */
  function Four(first: Message, user: string, a: string, b: string): seq<Message> {
    [first, Plain(User, user), Plain(Assistant, a), Plain(Assistant, b)]
  }

  predicate Ordinary(m: Message) {
    m.role in {User, Assistant} && m.toolCalls == [] && !IsSummary(m)
  }

  lemma {:induction false} AllVisible(ms: seq<Message>)
    requires forall k :: 0 <= k < |ms| ==> IsVisible(ms[k])
    ensures VisibleOnly(ms) == ms
  {
    if ms != [] {
      AllVisible(ms[1..]);
      assert [ms[0]] + ms[1..] == ms;
    }
  }

  lemma {:induction false} NothingToPrune(ms: seq<Message>, cfg: Config)
    requires forall k :: 0 <= k < |ms| ==> ms[k].role != Tool
    ensures Prune(ms, cfg) == ms
  {
  }

  lemma {:induction false} FourPruned(first: Message, user: string, a: string, b: string)
    requires first.role in {User, Assistant}
    ensures var ms := Four(first, user, a, b); Prune(VisibleOnly(ms), TIGHT) == ms
  {
    AllVisible(Four(first, user, a, b));
    NothingToPrune(Four(first, user, a, b), TIGHT);
  }

  lemma {:induction false} FourPlan(first: Message, user: string, a: string, b: string)
    requires first.role in {User, Assistant}
    ensures var ms := Four(first, user, a, b);
      HasMiddle(ms, TIGHT) && PlanOf(ms, TIGHT) == Plan([], [first, Plain(User, user)], ms[2..])
  {
    var ms := Four(first, user, a, b);
    assert HeadCount(ms, false) == 0 && ms[0..] == ms;
    assert ms[..2] == [first, Plain(User, user)];
  }

  lemma {:induction false} NoViews(turns: seq<Message>, n: nat)
    requires n <= |turns| && forall k :: 0 <= k < |turns| ==> turns[k].toolCalls == []
    ensures LatestView(turns, n) == None
    decreases n
  {
    if n > 0 {
      NoViews(turns, n - 1);
    }
  }

  lemma {:induction false} TwoPins(first: Message, user: string)
    requires first.toolCalls == []
    ensures Pins([first, Plain(User, user)]) == map[1 := Plain(User, user)]
  {
    var turns := [first, Plain(User, user)];
    NoViews(turns, 2);
    assert LatestUser(turns, 2) == Some(1);
  }

  lemma {:induction false} TwoSegments(first: Message, u: Message)
    ensures Segments([first, u], map[1 := u], 0, []) == [Run([first]), Kept(u, u)]
    ensures Unpinned([first, u], map[1 := u], 0) == [first]
  {
    var turns, pins := [first, u], map[1 := u];
    assert Segments(turns, pins, 2, []) == [] && Unpinned(turns, pins, 2) == [];
    assert Segments(turns, pins, 1, [first]) == [Run([first]), Kept(u, u)];
    assert [] + [first] == [first] && Unpinned(turns, pins, 1) == [];
  }

  lemma {:induction false} FourSegments(first: Message, user: string, a: string, b: string)
    requires Ordinary(first)
    ensures var ms, u := Four(first, user, a, b), Plain(User, user);
      && HasMiddle(ms, TIGHT)
      && PlanOf(ms, TIGHT).Segs() == [Run([first]), Kept(u, u)]
      && !NothingNew(PlanOf(ms, TIGHT))
  {
    FourPlan(first, user, a, b);
    TwoPins(first, user);
    TwoSegments(first, Plain(User, user));
    assert first in [first];
  }

  lemma {:induction false} TwoFolded(first: Message, u: Message, tools: Tools, table: Table)
    requires tools.accepts(tools.summarize([first], SUMMARY_LINES, 0), [first])
    ensures var p := Fold(Progress([], 0, false, 0, table), [Run([first]), Kept(u, u)], tools, None);
      !p.failed && p.summarized == 1 && p.prefix == [Plain(Assistant, tools.summarize([first], SUMMARY_LINES, 0)), u]
  {
    var start := Progress([], 0, false, 0, table);
    var next := Flush(start, [first], tools, None);
    assert [] + [Plain(Assistant, tools.summarize([first], SUMMARY_LINES, 0))] == next.prefix;
    assert [Run([first]), Kept(u, u)][1..] == [Kept(u, u)] && [Kept(u, u)][1..] == [];
    assert Fold(next, [Kept(u, u)], tools, None) == next.(prefix := next.prefix + [u]);
  }

  lemma {:induction false} Reaches(ms: seq<Message>, table: Table)
    requires Prune(VisibleOnly(ms), TIGHT) == ms && ms != []
    requires HasMiddle(ms, TIGHT) && !NothingNew(PlanOf(ms, TIGHT))
    ensures Tried(ms, TIGHT, table)
  {
  }

  lemma {:induction false} TriedGives(messages: seq<Message>, cfg: Config, tools: Tools, table: Table, plan: Plan)
    requires Tried(messages, cfg, table) && !cfg.force && plan == PlanFor(messages, cfg)
    requires var p := Summarized(plan, cfg, tools, table); !p.failed && p.summarized > 0
    ensures Compacted(messages, cfg, tools, table).messages
      == plan.head + Summarized(plan, cfg, tools, table).prefix + plan.recent
  {
    TriedCall(messages, cfg, tools, table);
  }

  /** Each such round replaces the first message by its accepted summary. */
  lemma {:induction false} NextNote(first: Message, user: string, a: string, b: string, tools: Tools, table: Table)
    requires Ordinary(first) && tools.accepts(tools.summarize([first], SUMMARY_LINES, 0), [first])
    ensures Compacted(Four(first, user, a, b), TIGHT, tools, table).messages
      == Four(Plain(Assistant, tools.summarize([first], SUMMARY_LINES, 0)), user, a, b)
  {
    var ms, u := Four(first, user, a, b), Plain(User, user);
    var note := Plain(Assistant, tools.summarize([first], SUMMARY_LINES, 0));
    FourTried(first, user, a, b, table);
    FourFolded(first, user, a, b, tools, table);
    FourPruned(first, user, a, b);
    TriedGives(ms, TIGHT, tools, table, PlanOf(ms, TIGHT));
    FourPlan(first, user, a, b);
    assert [] + [note, u] + ms[2..] == Four(note, user, a, b);
  }

  lemma {:induction false} FourTried(first: Message, user: string, a: string, b: string, table: Table)
    requires Ordinary(first)
    ensures Tried(Four(first, user, a, b), TIGHT, table) && HasMiddle(Four(first, user, a, b), TIGHT)
  {
    FourPruned(first, user, a, b);
    FourSegments(first, user, a, b);
    Reaches(Four(first, user, a, b), table);
  }

  lemma {:induction false} FourFolded(first: Message, user: string, a: string, b: string, tools: Tools, table: Table)
    requires Ordinary(first) && HasMiddle(Four(first, user, a, b), TIGHT)
    requires tools.accepts(tools.summarize([first], SUMMARY_LINES, 0), [first])
    ensures var p := Summarized(PlanOf(Four(first, user, a, b), TIGHT), TIGHT, tools, table);
      && !p.failed && p.summarized == 1
      && p.prefix == [Plain(Assistant, tools.summarize([first], SUMMARY_LINES, 0)), Plain(User, user)]
  {
    FourSegments(first, user, a, b);
    TwoFolded(first, Plain(User, user), tools, table);
  }

  // ---------------------------------------------------------------- the loss

  lemma {:induction false} NormalizeShrinks(s: string)
    ensures |Normalize(s)| <= |s|
  {
    if s != "" {
      NormalizeShrinks(s[1..]);
    }
  }

  /** A summary that passes without a length requirement passes when the run is short. */
  lemma {:induction false} ShortPasses(s: string, ms: seq<Message>)
    requires CheckSummary(s, ms, false) == [] && (|RenderOriginal(ms)| <= 360 || |s| <= 360)
    ensures Verified(s, ms)
  {
  }

  lemma {:induction false} UserRendered(text: string)
    ensures |RenderOriginal([Plain(User, text)])| <= |text| + 20
  {
    var m := Plain(User, text);
    NormalizeShrinks(text);
    assert |RenderLine(m)| <= |Normalize(text)| + 20;
    assert RenderOriginal([m]) == RenderLine(m);
  }

  lemma {:induction false} UserPasses(text: string)
    requires |text| <= 300
    ensures Verified(FactsOnly([Plain(User, text)]), [Plain(User, text)])
  {
    var ms := [Plain(User, text)];
    UserRendered(text);
    FactsOnlyPasses(ms, false);
    ShortPasses(FactsOnly(ms), ms);
  }

  lemma {:induction false} NothingListed(text: string)
    requires !IsSummary(Plain(Assistant, text))
    ensures FactList([Plain(Assistant, text)]) == []
  {
    var ms := [Plain(Assistant, text)];
    UnmarkedIsNotRequired(text);
    assert RequiredText(ms) == "" && Tokens("") == [];
  }

  lemma {:induction false} NotePasses(text: string)
    requires !IsSummary(Plain(Assistant, text))
    ensures Verified(FactsOnly([Plain(Assistant, text)]), [Plain(Assistant, text)])
  {
    var ms := [Plain(Assistant, text)];
    NothingListed(text);
    FactsOnlyPasses(ms, false);
    EmptyNoteIsShort();
    ShortPasses(FactsOnly(ms), ms);
  }

  lemma {:induction false} EmptyNoteIsShort()
    ensures |Laid(NOTES, NO_SECTIONS, [])| <= 360
  {
  }

  /** Every path or number of a short user message outside the pinned and recent ones survives
      the first of these rounds and is gone after the second, although both summaries passed
      the check. */
  lemma {:induction false} TwoRoundsLose(text: string, t: string, user: string, a: string, b: string, table: Table)
    requires |text| <= 300 && !IsSummary(Plain(User, text)) && t in Units(text) && HardFact(t)
    requires t !in Units(user) && t !in Units(a) && t !in Units(b)
    ensures UsesCheck(NoteTaker())
    ensures var ms, round := Four(Plain(User, text), user, a, b), Compact(TIGHT, NoteTaker());
      && HasFact(ms, t, true)
      && HasFact(Played(ms, table, [round]), t, false)
      && !HasFact(Played(ms, table, [round, round]), t, false)
  {
    var first := Plain(User, text);
    var note := Plain(Assistant, FactsOnly([first]));
    var last := Plain(Assistant, FactsOnly([note]));
    UserPasses(text);
    FactsOnlyUnmarked([first]);
    NotePasses(note.content);
    TwoRoundsPlayed(first, note, last, user, a, b, NoteTaker(), table);
    FactIsListed(first, t);
    NothingListed(note.content);
    FactsOnlyHas([note], t);
    FirstBears(first, user, a, b, t, true);
    FirstBears(note, user, a, b, t, false);
    NobodyBears(last, user, a, b, t);
  }

  lemma {:induction false} FirstBears(first: Message, user: string, a: string, b: string, t: string, strict: bool)
    requires Bears(first, t, strict)
    ensures HasFact(Four(first, user, a, b), t, strict)
  {
    assert Four(first, user, a, b)[0] == first;
  }

  lemma {:induction false} NobodyBears(first: Message, user: string, a: string, b: string, t: string)
    requires t !in Units(first.content) && t !in Units(user) && t !in Units(a) && t !in Units(b)
    ensures !HasFact(Four(first, user, a, b), t, false)
  {
  }

  lemma {:induction false} FactIsListed(first: Message, t: string)
    requires first.role == User && t in Units(first.content) && HardFact(t)
    ensures t in Units(FactsOnly([first]))
  {
    CarriedByOne(first, t);
    CarriedIsListed([first], t);
    FactsOnlyHas([first], t);
  }

  lemma {:induction false} TwoRoundsPlayed(first: Message, note: Message, last: Message, user: string, a: string,
                                           b: string, tools: Tools, table: Table)
    requires Ordinary(first) && tools.accepts(tools.summarize([first], SUMMARY_LINES, 0), [first])
    requires note == Plain(Assistant, tools.summarize([first], SUMMARY_LINES, 0))
    requires Ordinary(note) && tools.accepts(tools.summarize([note], SUMMARY_LINES, 0), [note])
    requires last == Plain(Assistant, tools.summarize([note], SUMMARY_LINES, 0))
    ensures var ms, round := Four(first, user, a, b), Compact(TIGHT, tools);
      && Played(ms, table, [round]) == Four(note, user, a, b)
      && Played(ms, table, [round, round]) == Four(last, user, a, b)
  {
    var ms, round := Four(first, user, a, b), Compact(TIGHT, tools);
    var after := Compacted(ms, TIGHT, tools, table).table;
    NextNote(first, user, a, b, tools, table);
    NextNote(note, user, a, b, tools, after);
    PlayedOnce(ms, table, round, []);
    PlayedOnce(ms, table, round, [round]);
    PlayedOnce(Four(note, user, a, b), after, round, []);
    assert [round] + [] == [round] && [round] + [round] == [round, round];
  }

  lemma {:induction false} PlayedOnce(ms: seq<Message>, table: Table, round: Round, more: seq<Round>)
    requires round.Compact?
    ensures var o := Compacted(ms, round.cfg, round.tools, table);
      Played(ms, table, [round] + more) == Played(o.messages, o.table, more)
  {
    assert ([round] + more)[1..] == more;
  }

  lemma {:induction false} APath(t: string)
    requires t == "/a/b"
    ensures t in Units(t) && HardFact(t) && !IsSummary(Plain(User, t))
  {
    WordRunOfPath(t);
    WholeToken(t);
    NormalizeAscii(t);
    IsAPath(t);
  }

  lemma {:induction false} IsAPath(t: string)
    requires |t| > 1 && t[0] == '/' && t[1] == 'a'
    ensures HardFact(t) && !IsSummary(Plain(User, t))
  {
    assert "/" <= t && StripStart(t, Spaces) == t;
  }

  lemma {:induction false} WordRunOfPath(t: string)
    requires t == "/a/b"
    ensures TokenLength(t) == 4 && StripEnd(t, Chars(TRAILING)) == t
  {
    NoClockAt(t);
    assert WordRun(t[4..]) == 0 && WordRun(t[3..]) == 1 && WordRun(t[2..]) == 2 && WordRun(t[1..]) == 3;
  }

  lemma {:induction false} NoClockAt(s: string)
    requires s != "" && !IsDigit(s[0])
    ensures FirstMatch(ClockPatterns(), s) == 0
  {
    var k := FirstMatchIs(ClockPatterns(), s);
    if k < |ClockPatterns()| {
      ClockPatternsAreClockLike(k);
    }
  }

  /** A history that loses its only path. */
  lemma {:induction false} APathIsLost(table: Table)
    ensures var ms, round := Four(Plain(User, "/a/b"), "y", "x", "z"), Compact(TIGHT, NoteTaker());
      && UsesCheck(NoteTaker())
      && HasFact(ms, "/a/b", true) && !HasFact(Played(ms, table, [round, round]), "/a/b", false)
  {
    APath("/a/b");
    NotIn("x", "/a/b");
    NotIn("y", "/a/b");
    NotIn("z", "/a/b");
    TwoRoundsLose("/a/b", "/a/b", "y", "x", "z", table);
  }

  lemma {:induction false} NotIn(s: string, t: string)
    requires NoSlashNoDigit(s) && HardFact(t)
    ensures t !in Units(s)
  {
    if t in Units(s) {
      PlainHasNoFacts(s, t);
    }
  }
}
