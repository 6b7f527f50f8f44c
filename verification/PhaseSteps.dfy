/** Any number of runs of one job at once, step by step
    (src/application/chat/job_runner.py, lines 270-523; src/application/chat/job_resume.py,
    lines 214-357; src/web/routers/chat.py, lines 395-444 and 625-690).

    Between two awaits a run makes at most one transition of the job.  A step is one such
    stretch of one run, the coming or stopping of a run, or a kill or cancellation from
    outside; the runs interleave in any way. */
module PhaseSteps {
  import opened Texts
  import opened Phases
  import opened PhaseTurn
  import opened PhaseRuns
  import opened PhaseOrder

  // ---------------------------------------------------------------- where the runs are

  /** What a run goes on with when its turn is done: the loop up to phase n, the rest of a
      list, or listing what remains. */
  datatype Next = GoOn(n: nat) | GoOnWith(rest: seq<nat>) | ListRest

  datatype Place =
    | Before(i: nat, n: nat)          // the loop over phases i..n-1
    | Found(i: nat)                   // a resume that recovered the job and has not started its phase
    | InTurn(i: nat, next: Next)
    | AtList                          // a resume whose turn is done
    | Listed(remaining: seq<nat>)     // the loop over the listed phases

  datatype System = System(job: Job, runs: multiset<Place>)

  predicate NextFits(i: nat, next: Next, n: nat) {
    match next
    case GoOn(m) => i < m <= n
    case GoOnWith(rest) => Within(rest, n)
    case ListRest => true
  }

  /** The phases that a place names are there. */
  predicate PlaceFits(p: Place, n: nat) {
    match p
    case Before(i, m) => i <= m <= n
    case Found(i) => i < n
    case InTurn(i, next) => i < n && NextFits(i, next, n)
    case AtList => true
    case Listed(remaining) => Within(remaining, n)
  }

  // ---------------------------------------------------------------- steps

  /** How a turn ends: one of the ways of settling, the completion of prepared research, or a
      kill in the stream. */
  datatype Act = Settles(how: Settlement) | Prepares | IsKilled(stale: bool)

  datatype Step =
    | StartRun
    | RecoverJob(saved: Saved)
    | Advance(p: Place)
    | EndTurn(p: Place, act: Act)
    | Stop(p: Place)                  // anything that ends a run without a transition
    | Kill(i: nat)
    | Cancel

  /** The job after a stretch of a run, and where the run is then, if it goes on. */
  datatype Moved = Moved(job: Job, place: Option<Place>)

  /** A refused transition raises and ends the run. */
  function IfAllowed(j: Job, after: Option<Job>, place: Option<Place>): Moved {
    match after
    case None => Moved(j, None)
    case Some(next) => Moved(next, place)
  }

  function Advanced(j: Job, p: Place): Moved
    requires PlaceFits(p, |j.statuses|) && !p.InTurn?
  {
    match p
    case Before(i, n) =>
      if i == n then Moved(j, None)
      else if Terminal(j.statuses[i]) then Moved(j, Some(Before(i + 1, n)))
      else if Startable(j.statuses[i]) then IfAllowed(j, Start(j, i), Some(InTurn(i, GoOn(n))))
      else Moved(j, Some(InTurn(i, GoOn(n))))
    case Found(i) => IfAllowed(j, Start(j, i), Some(InTurn(i, ListRest)))
    case AtList => Moved(j, Some(Listed(QueuedFrom(j.statuses, 0))))
    case Listed(remaining) =>
      if remaining == [] then Moved(j, None)
      else IfAllowed(j, Start(j, remaining[0]), Some(InTurn(remaining[0], GoOnWith(remaining[1..]))))
  }

  function Following(i: nat, next: Next): Place {
    match next
    case GoOn(n) => Before(i + 1, n)
    case GoOnWith(rest) => Listed(rest)
    case ListRest => AtList
  }

  function Acted(j: Job, i: nat, next: Next, act: Act): Moved
    requires i < |j.statuses|
  {
    match act
    case Settles(Completes) =>
      (match Complete(j, i)
       case Some(after) => Moved(after, Some(Following(i, next)))
       case None => Moved(Fail(j, i), None))
    case Settles(Fails) => Moved(Fail(j, i), None)
    case Settles(Parks) => IfAllowed(j, Park(j, i), None)
    case Settles(Waits) => IfAllowed(j, WaitForAnswer(j, i), None)
    case Settles(Replans) => IfAllowed(j, Replan(j), None)
    case Prepares => IfAllowed(j, Complete(j, i), Some(Following(i, next)))
    case IsKilled(stale) => Moved(Checkpoint(j, i, stale), None)
  }

  predicate Can(s: System, step: Step) {
    var n := |s.job.statuses|;
    match step
    case StartRun => true
    case RecoverJob(saved) => s.job.current < n && !Terminal(s.job.status) && saved != NothingSaved
    case Advance(p) => p in s.runs && PlaceFits(p, n) && !p.InTurn?
    case EndTurn(p, act) => p in s.runs && PlaceFits(p, n) && p.InTurn? && (act == Prepares ==> p.next.GoOn?)
    case Stop(p) => p in s.runs
    case Kill(i) => i < n && s.job.statuses[i] == Running
    case Cancel => true
  }

  /** The run at p is at the new place, or gone. */
  function Replaced(s: System, p: Place, m: Moved): System {
    var others := s.runs - multiset{p};
    System(m.job, match m.place case None => others case Some(q) => others + multiset{q})
  }

  function Do(s: System, step: Step): System
    requires Can(s, step)
  {
    match step
    case StartRun => s.(runs := s.runs + multiset{Before(0, |s.job.statuses|)})
    case RecoverJob(saved) =>
      var found := Requeued(s.job, saved);
      System(found, s.runs + multiset{Found(found.current)})
    case Advance(p) => Replaced(s, p, Advanced(s.job, p))
    case EndTurn(p, act) => Replaced(s, p, Acted(s.job, p.i, p.next, act))
    case Stop(p) => Replaced(s, p, Moved(s.job, None))
    case Kill(i) => s.(job := Checkpoint(s.job, i, false))
    case Cancel => s.(job := CancelJob(s.job).GetOr(s.job))
  }

  // ---------------------------------------------------------------- what every step keeps

  /** A run is never past the first unfinished phase, and its list is in order. */
  predicate OnTrack(p: Place, j: Job) {
    var b := Boundary(j.statuses);
    && PlaceFits(p, |j.statuses|)
    && match p
       case Before(i, _) => i <= b
       case Found(i) => i <= b
       case InTurn(i, next) => i <= b && (next.GoOnWith? ==> Consecutive(next.rest, i + 1))
       case AtList => true
       case Listed(remaining) => remaining == [] || (remaining[0] <= b && Consecutive(remaining, remaining[0]))
  }

  ghost predicate Kept(s: System) {
    Inv(s.job) && forall p :: p in s.runs ==> OnTrack(p, s.job)
  }

  /** Another run is on the first unfinished phase, and there are phases after it. */
  predicate OtherAhead(ss: seq<Status>) {
    Boundary(ss) + 1 < |ss| && ss[Boundary(ss)] != Queued
  }

  /** A resume lists what remains just then. */
  predicate ListsPast(s: System, step: Step) {
    step == Advance(AtList) && OtherAhead(s.job.statuses)
  }

  lemma {:induction false} OnTrackStays(p: Place, j: Job, r: Job)
    requires OnTrack(p, j) && Grows(j, r)
    ensures OnTrack(p, r)
  {
  }

  /** A run's new place is on track exactly when the system is. */
  lemma {:induction false} ReplacedKept(s: System, p: Place, m: Moved)
    requires Kept(s) && p in s.runs && Grows(s.job, m.job)
    ensures Kept(Replaced(s, p, m)) <==> (m.place.Some? ==> OnTrack(m.place.value, m.job))
  {
    forall q | q in s.runs ensures OnTrack(q, m.job) {
      OnTrackStays(q, s.job, m.job);
    }
    if m.place.Some? {
      assert m.place.value in Replaced(s, p, m).runs;
    }
  }

  lemma {:induction false} ListOnTrackIff(j: Job)
    requires Inv(j)
    ensures OnTrack(Listed(QueuedFrom(j.statuses, 0)), j) <==> !OtherAhead(j.statuses)
  {
    QueuedTail(j.statuses, 0);
  }

  lemma {:induction false} StartOnTrack(j: Job, i: nat, next: Next)
    requires OnTrack(InTurn(i, next), j) && Inv(j) && Start(j, i).Some?
    ensures Grows(j, Start(j, i).value) && OnTrack(InTurn(i, next), Start(j, i).value)
  {
    StartGrows(j, i);
  }

  lemma {:induction false} AdvanceGrows(j: Job, p: Place)
    requires Inv(j) && OnTrack(p, j) && !p.InTurn?
    ensures var m := Advanced(j, p);
      && Grows(j, m.job)
      && ((m.place.Some? ==> OnTrack(m.place.value, m.job)) <==> !(p == AtList && OtherAhead(j.statuses)))
  {
    match p
    case Before(i, n) =>
      if i < n && !Terminal(j.statuses[i]) && Start(j, i).Some? {
        StartOnTrack(j, i, GoOn(n));
      }
    case Found(i) =>
      if Start(j, i).Some? {
        StartOnTrack(j, i, ListRest);
      }
    case AtList => ListOnTrackIff(j);
    case Listed(remaining) =>
      if remaining != [] && Start(j, remaining[0]).Some? {
        TailConsecutive(remaining, remaining[0], |j.statuses|);
        StartOnTrack(j, remaining[0], GoOnWith(remaining[1..]));
      }
  }

  /** A run goes on after a turn only when its phase is complete. */
  lemma {:induction false} ActGoesOn(j: Job, i: nat, next: Next, act: Act)
    requires i < |j.statuses|
    ensures var m := Acted(j, i, next, act);
      m.place.Some? ==> m.place == Some(Following(i, next)) && Complete(j, i) == Some(m.job)
  {
  }

  lemma {:induction false} CompletingGrows(j: Job, i: nat, next: Next)
    requires Upto(j, i)
    ensures Grows(j, Acted(j, i, next, Settles(Completes)).job) && Grows(j, Acted(j, i, next, Prepares).job)
  {
    FailGrows(j, i);
    CompletionGrows(j, i);
  }

  lemma {:induction false} OpenEndGrows(j: Job, i: nat, next: Next)
    requires Upto(j, i)
    ensures Grows(j, Acted(j, i, next, Settles(Parks)).job) && Grows(j, Acted(j, i, next, Settles(Waits)).job)
  {
    ParkGrows(j, i);
    RequeueGrows(j, i, false);
  }

  lemma {:induction false} ClosedEndGrows(j: Job, i: nat, next: Next)
    requires Upto(j, i)
    ensures Grows(j, Acted(j, i, next, Settles(Fails)).job) && Grows(j, Acted(j, i, next, Settles(Replans)).job)
  {
    FailGrows(j, i);
    if Replan(j).Some? {
      ReplanGrows(j);
    }
  }

  lemma {:induction false} KilledGrows(j: Job, i: nat, next: Next, stale: bool)
    requires Upto(j, i)
    ensures Grows(j, Acted(j, i, next, IsKilled(stale)).job)
  {
    RequeueGrows(j, i, stale);
  }

  lemma {:induction false} ActGrows(j: Job, i: nat, next: Next, act: Act)
    requires Upto(j, i)
    ensures Grows(j, Acted(j, i, next, act).job)
  {
    match act
    case Settles(Completes) => CompletingGrows(j, i, next);
    case Settles(Parks) => OpenEndGrows(j, i, next);
    case Settles(Waits) => OpenEndGrows(j, i, next);
    case Settles(Fails) => ClosedEndGrows(j, i, next);
    case Settles(Replans) => ClosedEndGrows(j, i, next);
    case Prepares => CompletingGrows(j, i, next);
    case IsKilled(stale) => KilledGrows(j, i, next, stale);
  }

  lemma {:induction false} GoesOnPast(j: Job, i: nat, next: Next, act: Act)
    requires Upto(j, i)
    ensures var m := Acted(j, i, next, act); m.place.Some? ==> i < Boundary(m.job.statuses)
  {
    ActGoesOn(j, i, next, act);
    CompletionGrows(j, i);
  }

  lemma {:induction false} CompletionGrows(j: Job, i: nat)
    requires Upto(j, i)
    ensures Complete(j, i).Some? ==> Grows(j, Complete(j, i).value) && i < Boundary(Complete(j, i).value.statuses)
  {
    if Complete(j, i).Some? {
      CompleteGrows(j, i);
    }
  }

  /** After its turn is done a run is at the next phase, or the one its list has next. */
  lemma {:induction false} FollowingOnTrack(j: Job, i: nat, next: Next, r: Job)
    requires OnTrack(InTurn(i, next), j) && Grows(j, r) && i < Boundary(r.statuses)
    ensures OnTrack(Following(i, next), r)
  {
  }

  lemma {:induction false} ActKeeps(s: System, p: Place, act: Act)
    requires Kept(s) && Can(s, EndTurn(p, act))
    ensures Kept(Do(s, EndTurn(p, act))) && Grows(s.job, Do(s, EndTurn(p, act)).job)
  {
    var m := Acted(s.job, p.i, p.next, act);
    ActGrows(s.job, p.i, p.next, act);
    if m.place.Some? {
      ActGoesOn(s.job, p.i, p.next, act);
      GoesOnPast(s.job, p.i, p.next, act);
      FollowingOnTrack(s.job, p.i, p.next, m.job);
    }
    ReplacedKept(s, p, m);
  }

  lemma {:induction false} OutsideGrows(s: System, step: Step)
    requires Kept(s) && Can(s, step) && (step.Kill? || step.Cancel? || step.RecoverJob?)
    ensures Grows(s.job, Do(s, step).job)
    ensures step.RecoverJob? ==> Do(s, step).job.current == Boundary(Do(s, step).job.statuses)
  {
    match step
    case Kill(i) => RequeueGrows(s.job, i, false);
    case Cancel =>
      if CancelJob(s.job).Some? {
        CancelGrows(s.job);
      }
    case RecoverJob(saved) => RecoveredKeeps(s.job, saved);
  }

  lemma {:induction false} AllStayOnTrack(s: System, r: Job)
    requires Kept(s) && Grows(s.job, r)
    ensures Kept(s.(job := r))
  {
    forall q | q in s.runs ensures OnTrack(q, r) {
      OnTrackStays(q, s.job, r);
    }
  }

  lemma {:induction false} OutsideKeeps(s: System, step: Step)
    requires Kept(s) && Can(s, step) && (step.Kill? || step.Cancel? || step.RecoverJob?)
    ensures Kept(Do(s, step))
  {
    OutsideGrows(s, step);
    AllStayOnTrack(s, Do(s, step).job);
  }

  lemma {:induction false} AdvanceKeepsIff(s: System, p: Place)
    requires Kept(s) && Can(s, Advance(p))
    ensures Grows(s.job, Do(s, Advance(p)).job)
    ensures Kept(Do(s, Advance(p))) <==> !ListsPast(s, Advance(p))
  {
    AdvanceGrows(s.job, p);
    ReplacedKept(s, p, Advanced(s.job, p));
  }

  /** Every step of every run keeps the order of the phases and reopens none; and it keeps each
      run at or before the first unfinished phase if and only if it is not a resume listing
      what remains while another run is on that phase. */
  lemma {:induction false} StepKeepsIff(s: System, step: Step)
    requires Kept(s) && Can(s, step)
    ensures Grows(s.job, Do(s, step).job)
    ensures Kept(Do(s, step)) <==> !ListsPast(s, step)
  {
    match step
    case StartRun =>
    case Advance(p) => AdvanceKeepsIff(s, p);
    case EndTurn(p, act) => ActKeeps(s, p, act);
    case Stop(p) => ReplacedKept(s, p, Moved(s.job, None));
    case _ =>
      OutsideGrows(s, step);
      OutsideKeeps(s, step);
  }

  // ---------------------------------------------------------------- any interleaving

  predicate CanRun(s: System, steps: seq<Step>)
    decreases |steps|
  {
    steps == [] || (Can(s, steps[0]) && CanRun(Do(s, steps[0]), steps[1..]))
  }

  function Ran(s: System, steps: seq<Step>): System
    requires CanRun(s, steps)
    decreases |steps|
  {
    if steps == [] then s else Ran(Do(s, steps[0]), steps[1..])
  }

  /** No step is a listing past another run. */
  predicate NeverPast(s: System, steps: seq<Step>)
    requires CanRun(s, steps)
    decreases |steps|
  {
    steps == [] || (!ListsPast(s, steps[0]) && NeverPast(Do(s, steps[0]), steps[1..]))
  }

  lemma {:induction false} InterleavingsKeep(s: System, steps: seq<Step>)
    requires Kept(s) && CanRun(s, steps) && NeverPast(s, steps)
    ensures Kept(Ran(s, steps)) && Grows(s.job, Ran(s, steps).job)
    decreases |steps|
  {
    if steps != [] {
      StepKeepsIff(s, steps[0]);
      InterleavingsKeep(Do(s, steps[0]), steps[1..]);
    }
  }

  function NewJob(phases: nat, ready: bool): System {
    System(Fresh(phases, ready), multiset{})
  }

  /** Any number of runs and resumes of a new job, interleaved in any way, keep its phases in
      order, and an open job points at its first unfinished phase, as long as no resume lists
      what remains while another run is on that phase. */
  lemma {:induction false} AnyRunsKeepOrder(phases: nat, ready: bool, steps: seq<Step>)
    requires phases > 0 && CanRun(NewJob(phases, ready), steps) && NeverPast(NewJob(phases, ready), steps)
    ensures var j := Ran(NewJob(phases, ready), steps).job;
      InOrder(j.statuses) && (!Terminal(j.status) ==> j.current == Boundary(j.statuses))
  {
    BoundaryIs(Fresh(phases, ready).statuses, 0);
    InterleavingsKeep(NewJob(phases, ready), steps);
  }

  /** Some interleaving of other runs, wherever they are, makes this of the job. */
  ghost predicate DoneByOthers(j: Job, after: Job) {
    exists runs, steps ::
      && Kept(System(j, runs)) && CanRun(System(j, runs), steps) && NeverPast(System(j, runs), steps)
      && Ran(System(j, runs), steps).job == after
  }

  /** What the theorems about one run assume of the others is what the others do. */
  lemma {:induction false} OthersAreOrderly(meanwhile: Job -> Job)
    requires forall j :: Inv(j) ==> DoneByOthers(j, meanwhile(j))
    ensures Orderly(meanwhile)
  {
    forall j | Inv(j) ensures Grows(j, meanwhile(j)) {
      var runs, steps :|
        && Kept(System(j, runs)) && CanRun(System(j, runs), steps) && NeverPast(System(j, runs), steps)
        && Ran(System(j, runs), steps).job == meanwhile(j);
      InterleavingsKeep(System(j, runs), steps);
    }
  }

  lemma {:induction false} StartPastBreaks(j: Job)
    requires Inv(j) && OtherAhead(j.statuses) && j.status != Cancelled
    ensures var b := Boundary(j.statuses);
      && QueuedFrom(j.statuses, 0) != [] && QueuedFrom(j.statuses, 0)[0] == b + 1
      && Start(j, b + 1).Some? && Start(j, b + 1).value.statuses == j.statuses[b + 1 := Running]
      && j.statuses[b] in {Running, WaitingApproval} && !InOrder(j.statuses[b + 1 := Running])
  {
    var b, after := Boundary(j.statuses), j.statuses[Boundary(j.statuses) + 1 := Running];
    QueuedTail(j.statuses, 0);
    BoundaryIs(after, b);
    assert b < b + 1 < |after| && after[b + 1] != Queued;
  }

  lemma {:induction false} AdvanceListed(s: System, remaining: seq<nat>)
    requires Listed(remaining) in s.runs && Within(remaining, |s.job.statuses|) && remaining != []
    requires Start(s.job, remaining[0]).Some?
    ensures Can(s, Advance(Listed(remaining)))
    ensures Do(s, Advance(Listed(remaining))).job == Start(s.job, remaining[0]).value
  {
  }

  lemma {:induction false} AdvanceAtList(s: System)
    requires Can(s, Advance(AtList))
    ensures var list := Listed(QueuedFrom(s.job.statuses, 0));
      Do(s, Advance(AtList)).job == s.job && list in Do(s, Advance(AtList)).runs
  {
  }

  /** Where the order breaks: a resume that listed past another run starts a second phase. */
  lemma {:induction false} PastListingStartsTwo(s: System)
    requires Kept(s) && Can(s, Advance(AtList)) && ListsPast(s, Advance(AtList)) && s.job.status != Cancelled
    ensures var list := Listed(QueuedFrom(s.job.statuses, 0));
      var listed := Do(s, Advance(AtList));
      && Can(listed, Advance(list))
      && (var b, ss := Boundary(s.job.statuses), Do(listed, Advance(list)).job.statuses;
          ss == s.job.statuses[b + 1 := Running] && ss[b] in {Running, WaitingApproval} && !InOrder(ss))
  {
    StartPastBreaks(s.job);
    AdvanceAtList(s);
    AdvanceListed(Do(s, Advance(AtList)), QueuedFrom(s.job.statuses, 0));
  }

  // ---------------------------------------------------------------- one run at a time

  /** The chat route refuses a turn while one is running: a run comes when there is none. */
  predicate OneAtATime(s: System, steps: seq<Step>)
    requires CanRun(s, steps)
    decreases |steps|
  {
    steps == []
    || ((steps[0].StartRun? || steps[0].RecoverJob? ==> s.runs == multiset{})
        && OneAtATime(Do(s, steps[0]), steps[1..]))
  }

  /** The only run is on the first unfinished phase, if there is one, and leaves it queued when
      it is done. */
  predicate OnFirst(p: Place, ss: seq<Status>) {
    && (p.InTurn? ==> p.i == Boundary(ss) || Boundary(ss) == |ss|)
    && (p.AtList? ==> OthersIdle(ss))
  }

  ghost predicate Alone(s: System) {
    || s.runs == multiset{}
    || exists p :: s.runs == multiset{p} && OnFirst(p, s.job.statuses)
  }

  lemma {:induction false} ReplacedAlone(s: System, p: Place, m: Moved)
    requires Alone(s) && p in s.runs && (m.place.Some? ==> OnFirst(m.place.value, m.job.statuses))
    ensures Alone(Replaced(s, p, m))
  {
    assert s.runs == multiset{p};
    if m.place.Some? {
      assert Replaced(s, p, m).runs == multiset{m.place.value};
    } else {
      assert Replaced(s, p, m).runs == multiset{};
    }
  }

  lemma {:induction false} AloneIs(s: System, p: Place)
    requires Alone(s) && p in s.runs
    ensures OnFirst(p, s.job.statuses)
  {
  }

  lemma {:induction false} FirstIsAlone(s: System, p: Place)
    requires s.runs == multiset{} && !p.InTurn? && !p.AtList?
    ensures Alone(s.(runs := s.runs + multiset{p}))
  {
    assert s.runs + multiset{p} == multiset{p};
  }

  lemma {:induction false} AdvanceOnFirst(j: Job, p: Place)
    requires Inv(j) && OnTrack(p, j) && !p.InTurn?
    ensures var m := Advanced(j, p); m.place.Some? ==> OnFirst(m.place.value, m.job.statuses)
  {
    match p
    case Before(i, n) =>
      if i < n && !Terminal(j.statuses[i]) && Start(j, i).Some? {
        StartGrows(j, i);
      }
    case Found(i) =>
      if Start(j, i).Some? {
        StartGrows(j, i);
      }
    case AtList =>
    case Listed(remaining) =>
      if remaining != [] && Start(j, remaining[0]).Some? {
        StartGrows(j, remaining[0]);
      }
  }

  /** Completing the first unfinished phase leaves a queued one first, or none. */
  lemma {:induction false} CompletionLeavesIdle(j: Job, i: nat)
    requires Upto(j, i) && (i == Boundary(j.statuses) || Boundary(j.statuses) == |j.statuses|)
    ensures Complete(j, i).Some? ==> OthersIdle(Complete(j, i).value.statuses)
  {
    if j.statuses[i] == Running {
      BoundaryIs(j.statuses[i := Done], i + 1);
    }
  }

  lemma {:induction false} ActOnFirst(j: Job, i: nat, next: Next, act: Act)
    requires Inv(j) && OnTrack(InTurn(i, next), j) && OnFirst(InTurn(i, next), j.statuses)
    ensures var m := Acted(j, i, next, act); m.place.Some? ==> OnFirst(m.place.value, m.job.statuses)
  {
    ActGoesOn(j, i, next, act);
    CompletionLeavesIdle(j, i);
    FollowingFits(i, next);
  }

  lemma FollowingFits(i: nat, next: Next)
    ensures !Following(i, next).InTurn? && (Following(i, next).AtList? <==> next.ListRest?)
  {
  }

  /** What comes from outside leaves the run on the first unfinished phase, or none is left. */
  lemma {:induction false} OutsideOnFirst(s: System, step: Step, p: Place)
    requires Kept(s) && Can(s, step) && (step.Kill? || step.Cancel?) && OnFirst(p, s.job.statuses)
    ensures OnFirst(p, Do(s, step).job.statuses)
  {
    var ss := s.job.statuses;
    match step
    case Kill(i) =>
      assert i == Boundary(ss);
      BoundaryIs(ss[i := Queued], i);
    case Cancel =>
      if CancelJob(s.job).Some? {
        BoundaryIs(CancelOpen(ss), |ss|);
      }
  }

  lemma {:induction false} AloneStays(s: System, step: Step)
    requires Kept(s) && Alone(s) && Can(s, step)
    requires step.StartRun? || step.RecoverJob? ==> s.runs == multiset{}
    ensures Alone(Do(s, step)) && !ListsPast(s, step)
  {
    match step
    case StartRun => FirstIsAlone(s, Before(0, |s.job.statuses|));
    case RecoverJob(saved) => FirstIsAlone(s.(job := Requeued(s.job, saved)), Found(Requeued(s.job, saved).current));
    case Advance(p) =>
      AloneIs(s, p);
      AdvanceOnFirst(s.job, p);
      ReplacedAlone(s, p, Advanced(s.job, p));
    case EndTurn(p, act) =>
      AloneIs(s, p);
      ActOnFirst(s.job, p.i, p.next, act);
      ReplacedAlone(s, p, Acted(s.job, p.i, p.next, act));
    case Stop(p) => ReplacedAlone(s, p, Moved(s.job, None));
    case Kill(_) => OutsideAlone(s, step);
    case Cancel => OutsideAlone(s, step);
  }

  lemma {:induction false} OutsideAlone(s: System, step: Step)
    requires Kept(s) && Alone(s) && Can(s, step) && (step.Kill? || step.Cancel?)
    ensures Alone(Do(s, step))
  {
    if p :| s.runs == multiset{p} && OnFirst(p, s.job.statuses) {
      OutsideOnFirst(s, step, p);
    }
  }

  lemma {:induction false} OneRunNeverPast(s: System, steps: seq<Step>)
    requires Kept(s) && Alone(s) && CanRun(s, steps) && OneAtATime(s, steps)
    ensures NeverPast(s, steps)
    decreases |steps|
  {
    if steps != [] {
      StepKeepsIff(s, steps[0]);
      AloneStays(s, steps[0]);
      OneRunNeverPast(Do(s, steps[0]), steps[1..]);
    }
  }

  /** With one run at a time the order needs no condition: runs and resumes of a new job, with
      kills, cancellations and errors anywhere, keep its phases in order. */
  lemma {:induction false} OneRunKeepsOrder(phases: nat, ready: bool, steps: seq<Step>)
    requires phases > 0 && CanRun(NewJob(phases, ready), steps) && OneAtATime(NewJob(phases, ready), steps)
    ensures var j := Ran(NewJob(phases, ready), steps).job;
      InOrder(j.statuses) && (!Terminal(j.status) ==> j.current == Boundary(j.statuses))
  {
    BoundaryIs(Fresh(phases, ready).statuses, 0);
    OneRunNeverPast(NewJob(phases, ready), steps);
    AnyRunsKeepOrder(phases, ready, steps);
  }

  // ---------------------------------------------------------------- two runs that are both active

  ghost predicate CanReach(s: System, t: System) {
    exists steps :: CanRun(s, steps) && Ran(s, steps) == t
  }

  lemma {:induction false} ReachesItself(s: System)
    ensures CanReach(s, s)
  {
    assert CanRun(s, []) && Ran(s, []) == s;
  }

  lemma {:induction false} ReachesByStep(s: System, step: Step)
    requires Can(s, step)
    ensures CanReach(s, Do(s, step))
  {
    var t := Do(s, step);
    assert [step][1..] == [] && CanRun(t, []) && Ran(t, []) == t;
    assert CanRun(s, [step]) && Ran(s, [step]) == t;
  }

  lemma {:induction false} RanOfConcat(s: System, a: seq<Step>, b: seq<Step>)
    requires CanRun(s, a) && CanRun(Ran(s, a), b)
    ensures CanRun(s, a + b) && Ran(s, a + b) == Ran(Ran(s, a), b)
    decreases |a|
  {
    if a == [] {
      assert a + b == b;
    } else {
      assert (a + b)[1..] == a[1..] + b;
      RanOfConcat(Do(s, a[0]), a[1..], b);
    }
  }

  lemma {:induction false} ReachesThrough(s: System, t: System, u: System)
    requires CanReach(s, t) && CanReach(t, u)
    ensures CanReach(s, u)
  {
    var a :| CanRun(s, a) && Ran(s, a) == t;
    var b :| CanRun(t, b) && Ran(t, b) == u;
    RanOfConcat(s, a, b);
  }

  function With(others: multiset<Place>, place: Option<Place>): multiset<Place> {
    match place
    case None => others
    case Some(p) => others + multiset{p}
  }

  /** One stretch of one run, beside any others. */
  lemma {:induction false} ReachesByAdvance(j: Job, others: multiset<Place>, p: Place)
    requires PlaceFits(p, |j.statuses|) && !p.InTurn?
    ensures var m := Advanced(j, p); CanReach(System(j, others + multiset{p}), System(m.job, With(others, m.place)))
  {
    var s := System(j, others + multiset{p});
    assert s.runs - multiset{p} == others;
    ReachesByStep(s, Advance(p));
  }

  lemma {:induction false} ReachesByAct(j: Job, others: multiset<Place>, p: Place, act: Act)
    requires PlaceFits(p, |j.statuses|) && p.InTurn? && (act == Prepares ==> p.next.GoOn?)
    ensures var m := Acted(j, p.i, p.next, act);
      CanReach(System(j, others + multiset{p}), System(m.job, With(others, m.place)))
  {
    var s := System(j, others + multiset{p});
    assert s.runs - multiset{p} == others;
    ReachesByStep(s, EndTurn(p, act));
  }

  /** A job of three phases in the given state. */
  function Three(a: Status, b: Status, c: Status, current: nat): Job {
    Job([a, b, c], current, Running, true)
  }

  /** A run starts the first phase and is killed, but does not stop at once. */
  lemma {:induction false} KilledInFirst()
    ensures CanReach(NewJob(3, true), System(Three(Queued, Queued, Queued, 0), multiset{InTurn(0, GoOn(3))}))
  {
    var s, none := NewJob(3, true), multiset{};
    assert s.job.statuses == [Queued, Queued, Queued];
    ReachesByStep(s, StartRun);
    ReachesByAdvance(s.job, none, Before(0, 3));
    var started := System(Three(Running, Queued, Queued, 0), none + multiset{InTurn(0, GoOn(3))});
    assert s.job.statuses[0 := Running] == started.job.statuses;
    ReachesThrough(s, Do(s, StartRun), started);
    assert started.job.statuses[0 := Queued] == [Queued, Queued, Queued];
    ReachesByStep(started, Kill(0));
    ReachesThrough(s, started, Do(started, Kill(0)));
  }

  lemma {:induction false} ThreeRequeued()
    ensures Requeued(Three(Queued, Queued, Queued, 0), SavedByKill) == Three(Queued, Queued, Queued, 0)
  {
    var ss := [Queued, Queued, Queued];
    assert FirstWith(ss, Running) == 3 && FirstWith(ss, WaitingApproval) == 3 && FirstWith(ss, Queued) == 0;
  }

  lemma {:induction false} ThreeStarted()
    ensures Start(Three(Queued, Queued, Queued, 0), 0) == Some(Three(Running, Queued, Queued, 0))
  {
    assert [Queued, Queued, Queued][0 := Running] == [Running, Queued, Queued];
  }

  /** Meanwhile a resume starts the phase again. */
  lemma {:induction false} StartedAgain(first: multiset<Place>)
    ensures CanReach(System(Three(Queued, Queued, Queued, 0), first),
                     System(Three(Running, Queued, Queued, 0), first + multiset{InTurn(0, ListRest)}))
  {
    ThreeRequeued();
    ThreeStarted();
    RecoveredAndStarted(Three(Queued, Queued, Queued, 0), first, Three(Running, Queued, Queued, 0));
  }

  lemma {:induction false} RecoveredAndStarted(j: Job, first: multiset<Place>, started: Job)
    requires j.current < |j.statuses| && !Terminal(j.status) && Requeued(j, SavedByKill) == j
    requires Start(j, j.current) == Some(started)
    ensures CanReach(System(j, first), System(started, first + multiset{InTurn(j.current, ListRest)}))
  {
    ReachesByStep(System(j, first), RecoverJob(SavedByKill));
    ReachesByAdvance(j, first, Found(j.current));
    ReachesThrough(System(j, first), System(j, first + multiset{Found(j.current)}),
                   System(started, first + multiset{InTurn(j.current, ListRest)}));
  }

  /** A run that is done with a phase starts the one after it. */
  lemma {:induction false} DoneThenAdvance(j: Job, others: multiset<Place>, p: Place, done: Job, q: Place)
    requires PlaceFits(p, |j.statuses|) && p.InTurn?
    requires Acted(j, p.i, p.next, Settles(Completes)) == Moved(done, Some(q))
    requires PlaceFits(q, |done.statuses|) && !q.InTurn?
    ensures var m := Advanced(done, q);
      CanReach(System(j, others + multiset{p}), System(m.job, With(others, m.place)))
  {
    var m := Advanced(done, q);
    ReachesByAct(j, others, p, Settles(Completes));
    ReachesByAdvance(done, others, q);
    ReachesThrough(System(j, others + multiset{p}), System(done, others + multiset{q}),
                   System(m.job, With(others, m.place)));
  }

  /** The first run finishes the phase and starts the second. */
  lemma {:induction false} SecondStarted(resume: multiset<Place>)
    ensures CanReach(System(Three(Running, Queued, Queued, 0), resume + multiset{InTurn(0, GoOn(3))}),
                    System(Three(Done, Running, Queued, 1), resume + multiset{InTurn(1, GoOn(3))}))
  {
    var j, done := Three(Running, Queued, Queued, 0), Three(Done, Queued, Queued, 1);
    assert NextQueued(j.statuses, 1) == 1 && j.statuses[0 := Done] == done.statuses;
    assert done.statuses[1 := Running] == [Done, Running, Queued];
    DoneThenAdvance(j, resume, InTurn(0, GoOn(3)), done, Before(1, 3));
  }

  /** The resume finds its phase done, lists what remains, ... */
  lemma {:induction false} ThirdListed(first: multiset<Place>)
    ensures CanReach(System(Three(Done, Running, Queued, 1), first + multiset{InTurn(0, ListRest)}),
                    System(Three(Done, Running, Queued, 1), first + multiset{Listed([2])}))
  {
    var j := Three(Done, Running, Queued, 1);
    OnlyThirdQueued(j.statuses);
    DoneThenAdvance(j, first, InTurn(0, ListRest), j, AtList);
  }

  /** ... and starts the third. */
  lemma {:induction false} ThirdStarted(first: multiset<Place>)
    ensures CanReach(System(Three(Done, Running, Queued, 1), first + multiset{Listed([2])}),
                    System(Three(Done, Running, Running, 2), first + multiset{InTurn(2, GoOnWith([]))}))
  {
    var j := Three(Done, Running, Queued, 1);
    assert j.statuses[2 := Running] == [Done, Running, Running] && [2][1..] == [];
    ReachesByAdvance(j, first, Listed([2]));
  }

  lemma {:induction false} FiveLegs(a: System, b: System, c: System, d: System, e: System, f: System)
    requires CanReach(a, b) && CanReach(b, c) && CanReach(c, d) && CanReach(d, e) && CanReach(e, f)
    ensures CanReach(a, f)
  {
    ReachesThrough(a, b, c);
    ReachesThrough(a, c, d);
    ReachesThrough(a, d, e);
    ReachesThrough(a, e, f);
  }

  lemma Swapped(a: multiset<Place>, b: multiset<Place>)
    ensures a + b == b + a
  {
  }

  /** An interleaving of two runs of a new job after which two of its phases are active. */
  lemma {:induction false} TwoRunsStartTwo()
    ensures CanReach(NewJob(3, true),
                     System(Three(Done, Running, Running, 2),
                            multiset{InTurn(1, GoOn(3))} + multiset{InTurn(2, GoOnWith([]))}))
    ensures !InOrder([Done, Running, Running])
  {
    var first, second := multiset{InTurn(0, GoOn(3))}, multiset{InTurn(1, GoOn(3))};
    var resume := multiset{InTurn(0, ListRest)};
    KilledInFirst();
    StartedAgain(first);
    Swapped(first, resume);
    SecondStarted(resume);
    Swapped(resume, second);
    ThirdListed(second);
    ThirdStarted(second);
    FiveLegs(NewJob(3, true), System(Three(Queued, Queued, Queued, 0), first),
             System(Three(Running, Queued, Queued, 0), first + resume),
             System(Three(Done, Running, Queued, 1), second + resume),
             System(Three(Done, Running, Queued, 1), second + multiset{Listed([2])}),
             System(Three(Done, Running, Running, 2), second + multiset{InTurn(2, GoOnWith([]))}));
    NotInOrder([Done, Running, Running]);
  }
}
