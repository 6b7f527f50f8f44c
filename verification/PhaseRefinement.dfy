/** Every run and every resume, with whatever other runs do in between, is an interleaving of
    steps (src/application/chat/job_runner.py, lines 270-523; src/application/chat/
    job_resume.py, lines 214-357; src/web/routers/chat.py, lines 395-444). */
module PhaseRefinement {
  import opened Texts
  import opened Phases
  import opened PhaseTurn
  import opened PhaseRuns
  import opened PhaseOrder
  import opened PhaseSteps

  /** Beside the others, a run at one place brings the job to r and itself to another place; the
      others may have moved. */
  ghost predicate LeadsBeside(others: multiset<Place>, j: Job, here: Option<Place>, r: Job, there: Option<Place>) {
    exists more :: CanReach(System(j, With(others, here)), System(r, With(more, there)))
  }

  /** ... whatever others there are. */
  ghost predicate Leads(j: Job, here: Option<Place>, r: Job, there: Option<Place>) {
    forall others :: LeadsBeside(others, j, here, r, there)
  }

  /** What happens meanwhile is done by steps of other runs. */
  ghost predicate BySteps(meanwhile: Job -> Job) {
    forall j {:trigger meanwhile(j)} :: forall here :: Leads(j, here, meanwhile(j), here)
  }

  ghost predicate ScriptBySteps(s: Script) {
    BySteps(s.beforeSettling) && forall k :: BySteps(s.attempts(k).meanwhile)
  }

  ghost predicate AllBySteps(scripts: Scripts) {
    forall k :: ScriptBySteps(scripts(k).turn)
  }

  // ---------------------------------------------------------------- steps keep what a run relies on

  lemma {:induction false} TransitionsKeepSize(j: Job, i: nat, next: Next, act: Act)
    requires i < |j.statuses|
    ensures var m := Acted(j, i, next, act);
      |m.job.statuses| >= |j.statuses| && m.job.intakeReady == j.intakeReady
  {
  }

  lemma {:induction false} AdvanceKeepsSize(j: Job, p: Place)
    requires PlaceFits(p, |j.statuses|) && !p.InTurn?
    ensures var m := Advanced(j, p); |m.job.statuses| == |j.statuses| && m.job.intakeReady == j.intakeReady
  {
  }

  lemma {:induction false} StepKeepsSize(s: System, step: Step)
    requires Can(s, step)
    ensures var r := Do(s, step).job; |r.statuses| >= |s.job.statuses| && r.intakeReady == s.job.intakeReady
  {
    match step
    case StartRun =>
    case RecoverJob(_) =>
    case Advance(p) => AdvanceKeepsSize(s.job, p);
    case EndTurn(p, act) => TransitionsKeepSize(s.job, p.i, p.next, act);
    case Stop(_) =>
    case Kill(_) =>
    case Cancel =>
  }

  lemma {:induction false} RanKeepsSize(s: System, steps: seq<Step>)
    requires CanRun(s, steps)
    ensures var r := Ran(s, steps).job; |r.statuses| >= |s.job.statuses| && r.intakeReady == s.job.intakeReady
    decreases |steps|
  {
    if steps != [] {
      StepKeepsSize(s, steps[0]);
      RanKeepsSize(Do(s, steps[0]), steps[1..]);
    }
  }

  lemma {:induction false} ReachedKeepsSize(s: System, t: System)
    requires CanReach(s, t)
    ensures |t.job.statuses| >= |s.job.statuses| && t.job.intakeReady == s.job.intakeReady
  {
    var steps :| CanRun(s, steps) && Ran(s, steps) == t;
    RanKeepsSize(s, steps);
  }

  /** So interference by steps is taken as it is. */
  lemma {:induction false} DisturbedBySteps(j: Job, meanwhile: Job -> Job)
    requires BySteps(meanwhile)
    ensures Disturbed(j, meanwhile) == meanwhile(j)
  {
    assert Leads(j, None, meanwhile(j), None);
    assert LeadsBeside(multiset{}, j, None, meanwhile(j), None);
    var more :| CanReach(System(j, With(multiset{}, None)), System(meanwhile(j), With(more, None)));
    ReachedKeepsSize(System(j, multiset{}), System(meanwhile(j), more));
  }

  // ---------------------------------------------------------------- composing

  lemma {:induction false} BesideThrough(others: multiset<Place>, j: Job, a: Option<Place>, k: Job, b: Option<Place>,
                                         l: Job, c: Option<Place>)
    requires LeadsBeside(others, j, a, k, b) && Leads(k, b, l, c)
    ensures LeadsBeside(others, j, a, l, c)
  {
    var between :| CanReach(System(j, With(others, a)), System(k, With(between, b)));
    assert LeadsBeside(between, k, b, l, c);
    var more :| CanReach(System(k, With(between, b)), System(l, With(more, c)));
    ReachesThrough(System(j, With(others, a)), System(k, With(between, b)), System(l, With(more, c)));
  }

  lemma {:induction false} LeadsThrough(j: Job, a: Option<Place>, k: Job, b: Option<Place>, l: Job, c: Option<Place>)
    requires Leads(j, a, k, b) && Leads(k, b, l, c)
    ensures Leads(j, a, l, c)
  {
    forall others ensures LeadsBeside(others, j, a, l, c) {
      BesideThrough(others, j, a, k, b, l, c);
    }
  }

  lemma {:induction false} LeadsNowhere(j: Job, here: Option<Place>)
    ensures Leads(j, here, j, here)
  {
    forall others ensures LeadsBeside(others, j, here, j, here) {
      ReachesItself(System(j, With(others, here)));
    }
  }

  lemma {:induction false} LeadsByAdvance(j: Job, p: Place)
    requires PlaceFits(p, |j.statuses|) && !p.InTurn?
    ensures Leads(j, Some(p), Advanced(j, p).job, Advanced(j, p).place)
  {
    var m := Advanced(j, p);
    forall others ensures LeadsBeside(others, j, Some(p), m.job, m.place) {
      ReachesByAdvance(j, others, p);
      assert With(others, Some(p)) == others + multiset{p};
    }
  }

  lemma {:induction false} LeadsByAct(j: Job, p: Place, act: Act)
    requires PlaceFits(p, |j.statuses|) && p.InTurn? && (act == Prepares ==> p.next.GoOn?)
    ensures var m := Acted(j, p.i, p.next, act); Leads(j, Some(p), m.job, m.place)
  {
    var m := Acted(j, p.i, p.next, act);
    forall others ensures LeadsBeside(others, j, Some(p), m.job, m.place) {
      ReachesByAct(j, others, p, act);
      assert With(others, Some(p)) == others + multiset{p};
    }
  }

  lemma {:induction false} LeadsByStop(j: Job, p: Place)
    ensures Leads(j, Some(p), j, None)
  {
    forall others ensures LeadsBeside(others, j, Some(p), j, None) {
      var s := System(j, With(others, Some(p)));
      assert s.runs - multiset{p} == others;
      ReachesByStep(s, Stop(p));
      assert With(others, None) == others;
    }
  }

  lemma {:induction false} LeadsByOthers(j: Job, meanwhile: Job -> Job, here: Option<Place>)
    requires BySteps(meanwhile)
    ensures Leads(j, here, Disturbed(j, meanwhile), here)
  {
    DisturbedBySteps(j, meanwhile);
    assert Leads(j, here, meanwhile(j), here);
  }

  // ---------------------------------------------------------------- a turn

  lemma {:induction false} AttemptsAreSteps(j: Job, s: Script, k: nat, d: nat, here: Option<Place>)
    requires ScriptBySteps(s)
    ensures Leads(j, here, AfterAttempts(j, s, k, d), here)
    decreases d + 1 - k
  {
    if k > d {
      LeadsNowhere(j, here);
    } else {
      var next := Disturbed(j, s.attempts(k).meanwhile);
      LeadsByOthers(j, s.attempts(k).meanwhile, here);
      AttemptsAreSteps(next, s, k + 1, d, here);
      LeadsThrough(j, here, next, here, AfterAttempts(j, s, k, d), here);
    }
  }

  /** Where a run is after its turn. */
  function PlaceAfter(i: nat, next: Next, end: TurnEnd): Option<Place> {
    if end == Returned(SaysDone) then Some(Following(i, next)) else None
  }

  /** What the end of a turn does to the job, if anything. */
  function ActOfGate(s: Script, content: string): Option<Act> {
    if GateRuns(s) && s.late in {KilledInGate, CheckerRaises} then None
    else if !GateBlocks(s, content) then Some(Settles(Completes))
    else if s.replans < MAX_REPLANS then Some(Settles(Replans))
    else Some(Settles(Parks))
  }

  function ActOf(s: Script, outcome: Outcome, content: string): Option<Act> {
    match outcome
    case IsQuestion => Some(Settles(Waits))
    case IsParked => Some(Settles(Parks))
    case IsFailed => Some(Settles(Fails))
    case OkSoFar => ActOfGate(s, content)
  }

  predicate Matches(m: Moved, i: nat, next: Next, r: Settled) {
    m == Moved(r.job, PlaceAfter(i, next, r.end))
  }

  lemma {:induction false} GateIsAct(now: Job, i: nat, next: Next, s: Script, content: string)
    requires i < |now.statuses|
    ensures var r, act := AfterGate(now, i, s, content), ActOfGate(s, content);
      Matches(if act.None? then Moved(now, None) else Acted(now, i, next, act.value), i, next, r)
  {
  }

  lemma {:induction false} SettleAsIsAct(now: Job, i: nat, next: Next, s: Script, outcome: Outcome, content: string)
    requires i < |now.statuses|
    ensures var r, act := SettleAs(now, i, s, outcome, content), ActOf(s, outcome, content);
      Matches(if act.None? then Moved(now, None) else Acted(now, i, next, act.value), i, next, r)
  {
    if outcome == OkSoFar {
      GateIsAct(now, i, next, s, content);
    }
  }

  lemma {:induction false} SettleIsSteps(j: Job, i: nat, next: Next, s: Script, h: Heard)
    requires i < |j.statuses| && NextFits(i, next, |j.statuses|) && ScriptBySteps(s)
    ensures var r := Settle(j, i, s, h); Leads(j, Some(InTurn(i, next)), r.job, PlaceAfter(i, next, r.end))
  {
    var now, p := Disturbed(j, s.beforeSettling), InTurn(i, next);
    var r, act := Settle(j, i, s, h), ActOf(s, FinalOutcome(s, h), h.lastContent);
    LeadsByOthers(j, s.beforeSettling, Some(p));
    SettleAsIsAct(now, i, next, s, FinalOutcome(s, h), h.lastContent);
    if (QuestionTested(s, h) && s.late == KilledInTest) || act.None? {
      LeadsByStop(now, p);
    } else {
      LeadsByAct(now, p, act.value);
    }
    LeadsThrough(j, Some(p), now, Some(p), r.job, PlaceAfter(i, next, r.end));
  }

  lemma {:induction false} StoppedIsStep(j: Job, i: nat, next: Next, s: Script, ending: Ending)
    requires i < |j.statuses| && NextFits(i, next, |j.statuses|)
    ensures var r := Stopped(j, i, s, ending); Leads(j, Some(InTurn(i, next)), r.job, PlaceAfter(i, next, r.end))
  {
    LeadsByAct(j, InTurn(i, next), if ending == Killed then IsKilled(s.staleToken) else Settles(Fails));
  }

  /** A turn is steps of other runs and at most one transition of its own. */
  lemma {:induction false} TurnIsSteps(j: Job, i: nat, next: Next, s: Script)
    requires i < |j.statuses| && NextFits(i, next, |j.statuses|) && ScriptBySteps(s)
    ensures var r := Turn(j, i, s); Leads(j, Some(InTurn(i, next)), r.job, PlaceAfter(i, next, r.end))
  {
    var d, p, r := Decisive(s, 1), Some(InTurn(i, next)), Turn(j, i, s);
    var now, a := AfterAttempts(j, s, 1, d), s.attempts(d);
    AttemptsAreSteps(j, s, 1, d, p);
    if a.ending == Finished {
      SettleIsSteps(now, i, next, s, HearAll(a.events));
    } else {
      StoppedIsStep(now, i, next, s, a.ending);
    }
    LeadsThrough(j, p, now, p, r.job, PlaceAfter(i, next, r.end));
  }

  // ---------------------------------------------------------------- a run

  /** A run over the phases from i on, with what other runs do in between, is an interleaving
      that ends with the job it leaves. */
  lemma {:induction false} RunIsSteps(j: Job, i: nat, n: nat, scripts: Scripts)
    requires i <= n <= |j.statuses| && AllBySteps(scripts)
    ensures Leads(j, Some(Before(i, n)), RunFrom(j, i, n, scripts).job, None)
    decreases n - i, 2
  {
    var p, m, r := Some(Before(i, n)), Advanced(j, Before(i, n)), RunFrom(j, i, n, scripts);
    LeadsByAdvance(j, Before(i, n));
    if i < n && m.place.Some? {
      if Terminal(j.statuses[i]) {
        RunIsSteps(j, i + 1, n, scripts);
      } else {
        PhaseIsSteps(m.job, i, n, scripts);
      }
      LeadsThrough(j, p, m.job, m.place, r.job, None);
    }
  }

  lemma {:induction false} PhaseIsSteps(j: Job, i: nat, n: nat, scripts: Scripts)
    requires i < n <= |j.statuses| && AllBySteps(scripts)
    ensures Leads(j, Some(InTurn(i, GoOn(n))), RunPhase(j, i, n, scripts).job, None)
    decreases n - i, 1
  {
    if scripts(i).prepared {
      var p, m := InTurn(i, GoOn(n)), Acted(j, i, GoOn(n), Prepares);
      LeadsByAct(j, p, Prepares);
      if m.place.Some? {
        RunIsSteps(m.job, i + 1, n, scripts);
        LeadsThrough(j, Some(p), m.job, m.place, RunPhase(j, i, n, scripts).job, None);
      }
    } else {
      StreamedIsSteps(j, i, n, scripts);
    }
  }

  lemma {:induction false} StreamedIsSteps(j: Job, i: nat, n: nat, scripts: Scripts)
    requires i < n <= |j.statuses| && AllBySteps(scripts) && !scripts(i).prepared
    ensures Leads(j, Some(InTurn(i, GoOn(n))), RunPhase(j, i, n, scripts).job, None)
    decreases n - i, 0
  {
    var p, r := Some(InTurn(i, GoOn(n))), Turn(j, i, scripts(i).turn);
    TurnIsSteps(j, i, GoOn(n), scripts(i).turn);
    StreamedIs(j, i, n, scripts);
    if r.end == Returned(SaysDone) {
      if i == 0 && n > 1 && scripts(i).asksChoice {
        LeadsByStop(r.job, Before(i + 1, n));
      } else {
        RunIsSteps(r.job, i + 1, n, scripts);
      }
      LeadsThrough(j, p, r.job, Some(Before(i + 1, n)), RunPhase(j, i, n, scripts).job, None);
    }
  }

  // ---------------------------------------------------------------- a resume

  lemma {:induction false} ContinueIsSteps(j: Job, remaining: seq<nat>, scripts: Scripts)
    requires Within(remaining, |j.statuses|) && AllBySteps(scripts)
    ensures Leads(j, Some(Listed(remaining)), ContinueFrom(j, remaining, scripts).job, None)
    decreases |remaining|
  {
    var p, m := Listed(remaining), Advanced(j, Listed(remaining));
    LeadsByAdvance(j, p);
    if m.place.Some? {
      var i, rest := remaining[0], remaining[1..];
      var r := Turn(m.job, i, scripts(i).turn);
      ContinueIs(j, remaining, scripts);
      TurnIsSteps(m.job, i, GoOnWith(rest), scripts(i).turn);
      LeadsThrough(j, Some(p), m.job, m.place, r.job, PlaceAfter(i, GoOnWith(rest), r.end));
      if r.end == Returned(SaysDone) {
        ContinueIsSteps(r.job, rest, scripts);
        LeadsThrough(j, Some(p), r.job, Some(Listed(rest)), ContinueFrom(j, remaining, scripts).job, None);
      }
    }
  }

  /** So is a resume; one of a finished job or without a checkpoint takes no step. */
  lemma {:induction false} ResumeIsSteps(j: Job, saved: Saved, scripts: Scripts)
    requires Inv(j) && AllBySteps(scripts)
    ensures Leads(j, None, Resume(j, saved, scripts).job, None)
  {
    if Terminal(j.status) || saved == NothingSaved {
      LeadsNowhere(j, None);
    } else {
      RecoveredIsSteps(j, saved, scripts);
    }
  }

  lemma {:induction false} RecoveredIsSteps(j: Job, saved: Saved, scripts: Scripts)
    requires Inv(j) && !Terminal(j.status) && saved != NothingSaved && AllBySteps(scripts)
    ensures Leads(j, None, Resume(j, saved, scripts).job, None)
  {
    var found := Requeued(j, saved);
    var p := Found(found.current);
    RecoveredKeeps(j, saved);
    LeadsByRecovery(j, saved);
    LeadsByAdvance(found, p);
    var m, r := Advanced(found, p), Resume(j, saved, scripts);
    LeadsThrough(j, None, found, Some(p), m.job, m.place);
    if m.place.Some? {
      ResumedIsSteps(m.job, found.current, scripts);
      ResumeIs(j, saved, scripts);
      LeadsThrough(j, None, m.job, m.place, r.job, None);
    }
  }

  lemma {:induction false} LeadsByRecovery(j: Job, saved: Saved)
    requires Can(System(j, multiset{}), RecoverJob(saved))
    ensures var found := Requeued(j, saved); Leads(j, None, found, Some(Found(found.current)))
  {
    var found := Requeued(j, saved);
    var p := Some(Found(found.current));
    forall others ensures LeadsBeside(others, j, None, found, p) {
      ReachesByStep(System(j, others), RecoverJob(saved));
      assert With(others, None) == others && With(others, p) == others + multiset{p.value};
    }
  }

  lemma {:induction false} ResumedIsSteps(j: Job, i: nat, scripts: Scripts)
    requires i < |j.statuses| && AllBySteps(scripts)
    ensures var r := Turn(j, i, scripts(i).turn);
      Leads(j, Some(InTurn(i, ListRest)),
            if r.end == Returned(SaysDone) then ContinueFrom(r.job, QueuedFrom(r.job.statuses, 0), scripts).job
            else r.job,
            None)
  {
    var p, r := Some(InTurn(i, ListRest)), Turn(j, i, scripts(i).turn);
    TurnIsSteps(j, i, ListRest, scripts(i).turn);
    if r.end == Returned(SaysDone) {
      var list := QueuedFrom(r.job.statuses, 0);
      LeadsByAdvance(r.job, AtList);
      LeadsThrough(j, p, r.job, Some(AtList), r.job, Some(Listed(list)));
      ContinueIsSteps(r.job, list, scripts);
      LeadsThrough(j, p, r.job, Some(Listed(list)), ContinueFrom(r.job, list, scripts).job, None);
    }
  }
}
