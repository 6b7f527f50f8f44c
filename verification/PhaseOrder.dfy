/** The order of a job's phases over any runs and resumes, with other runs of the same job in
    between (src/application/chat/job_runner.py, lines 270-523; src/application/chat/
    job_resume.py, lines 214-357; src/application/orchestration/job_recovery.py, lines 326-459).

    Every transition of a run keeps the order and never reopens a finished phase, provided the
    other runs do the same; PhaseSteps takes all runs together, step by step.  A resume is the
    exception: the lemmas say exactly when the phases it goes on with break the order. */
module PhaseOrder {
  import opened Texts
  import opened Phases
  import opened PhaseTurn
  import opened PhaseRuns

  // ---------------------------------------------------------------- the shape of a job

  /** The first phase that is not finished. */
  function Boundary(ss: seq<Status>): (b: nat)
    ensures b <= |ss| && (b < |ss| ==> !Terminal(ss[b])) && forall k :: 0 <= k < b ==> Terminal(ss[k])
  {
    if ss == [] || !Terminal(ss[0]) then 0 else 1 + Boundary(ss[1..])
  }

  /** Finished phases, then at most one active or waiting phase, then only queued ones. */
  predicate InOrder(ss: seq<Status>) {
    forall k :: Boundary(ss) < k < |ss| ==> ss[k] == Queued
  }

  /** An open job points at its first unfinished phase. */
  predicate Inv(j: Job) {
    && j.statuses != [] && j.current < |j.statuses| && InOrder(j.statuses)
    && (!Terminal(j.status) ==> j.current == Boundary(j.statuses))
  }

  /** r comes after j: in order, with no finished phase reopened and no phase removed. */
  predicate Grows(j: Job, r: Job) {
    Inv(r) && Boundary(r.statuses) >= Boundary(j.statuses) && |r.statuses| >= |j.statuses|
  }

  /** What other runs do is of that kind. */
  ghost predicate Orderly(meanwhile: Job -> Job) {
    forall j {:trigger meanwhile(j)} :: Inv(j) ==> Grows(j, meanwhile(j))
  }

  ghost predicate Calm(s: Script) {
    Orderly(s.beforeSettling) && forall k :: Orderly(s.attempts(k).meanwhile)
  }

  ghost predicate AllCalm(scripts: Scripts) {
    forall k :: Calm(scripts(k).turn)
  }

  lemma {:induction false} BoundaryIs(ss: seq<Status>, b: nat)
    requires b <= |ss| && (b < |ss| ==> !Terminal(ss[b])) && forall k :: 0 <= k < b ==> Terminal(ss[k])
    ensures Boundary(ss) == b
  {
  }

  // ---------------------------------------------------------------- every transition of a run

  /** A run works on a phase that is finished or the first unfinished one. */
  predicate Upto(j: Job, i: nat) {
    i < |j.statuses| && Inv(j) && i <= Boundary(j.statuses)
  }

  lemma {:induction false} StartGrows(j: Job, i: nat)
    requires Upto(j, i) && Start(j, i).Some?
    ensures var after := Start(j, i).value;
      && Grows(j, after) && Boundary(after.statuses) == Boundary(j.statuses) == i
      && after.statuses[i] == Running
  {
    BoundaryIs(j.statuses[i := Running], i);
  }

  lemma {:induction false} CompleteGrows(j: Job, i: nat)
    requires Upto(j, i) && Complete(j, i).Some?
    ensures Grows(j, Complete(j, i).value) && i < Boundary(Complete(j, i).value.statuses)
  {
    if j.statuses[i] == Running {
      BoundaryIs(Complete(j, i).value.statuses, i + 1);
    }
  }

  lemma {:induction false} FailGrows(j: Job, i: nat)
    requires Upto(j, i)
    ensures Grows(j, Fail(j, i))
  {
    var b := Boundary(j.statuses);
    BoundaryIs(Fail(j, i).statuses, if i < b then b else i + 1);
  }

  lemma {:induction false} ParkGrows(j: Job, i: nat)
    requires Upto(j, i)
    ensures Park(j, i).Some? ==> Grows(j, Park(j, i).value)
  {
    if Park(j, i).Some? {
      BoundaryIs(j.statuses[i := WaitingApproval], i);
    }
  }

  lemma {:induction false} RequeueGrows(j: Job, i: nat, stale: bool)
    requires Upto(j, i)
    ensures WaitForAnswer(j, i).Some? ==> Grows(j, WaitForAnswer(j, i).value)
    ensures Grows(j, Checkpoint(j, i, stale))
  {
    if i == Boundary(j.statuses) {
      BoundaryIs(j.statuses[i := Queued], i);
    }
  }

  lemma {:induction false} ReplanGrows(j: Job)
    requires Inv(j) && Replan(j).Some?
    ensures Grows(j, Replan(j).value)
  {
    BoundaryIs(Replan(j).value.statuses, |j.statuses|);
  }

  lemma {:induction false} CancelGrows(j: Job)
    requires Inv(j) && CancelJob(j).Some?
    ensures Grows(j, CancelJob(j).value)
  {
    BoundaryIs(CancelOpen(j.statuses), |j.statuses|);
  }

  lemma {:induction false} DisturbedGrows(j: Job, meanwhile: Job -> Job)
    requires Inv(j) && Orderly(meanwhile)
    ensures Grows(j, Disturbed(j, meanwhile))
  {
    assert Grows(j, meanwhile(j));
  }

  lemma {:induction false} AttemptsGrow(j: Job, s: Script, k: nat, d: nat)
    requires Inv(j) && Calm(s)
    ensures Grows(j, AfterAttempts(j, s, k, d))
    decreases d + 1 - k
  {
    if k <= d {
      var next := Disturbed(j, s.attempts(k).meanwhile);
      DisturbedGrows(j, s.attempts(k).meanwhile);
      AttemptsGrow(next, s, k + 1, d);
    }
  }

  // ---------------------------------------------------------------- a turn

  predicate Keeps(j: Job, i: nat, r: Settled) {
    Grows(j, r.job) && (r.end == Returned(SaysDone) ==> i < Boundary(r.job.statuses))
  }

  lemma {:induction false} CompleteOrFailKeeps(j: Job, i: nat)
    requires Upto(j, i)
    ensures Keeps(j, i, CompleteOrFail(j, i)) && Keeps(j, i, Settled(Fail(j, i), Returned(SaysFailed), [Fails]))
  {
    FailGrows(j, i);
    if Complete(j, i).Some? {
      CompleteGrows(j, i);
    }
  }

  lemma {:induction false} SettlingKeeps(j: Job, i: nat)
    requires Upto(j, i)
    ensures Keeps(j, i, Settling(j, WaitForAnswer(j, i), SaysQuestion, Waits))
    ensures Keeps(j, i, Settling(j, Park(j, i), SaysParked, Parks))
    ensures Keeps(j, i, Settling(j, Replan(j), SaysReplan, Replans))
  {
    ParkGrows(j, i);
    RequeueGrows(j, i, false);
    if Replan(j).Some? {
      ReplanGrows(j);
    }
  }

  lemma {:induction false} GateKeeps(j: Job, i: nat, s: Script, content: string)
    requires Upto(j, i)
    ensures Keeps(j, i, AfterGate(j, i, s, content))
  {
    CompleteOrFailKeeps(j, i);
    SettlingKeeps(j, i);
  }

  lemma {:induction false} SettleAsKeeps(j: Job, i: nat, s: Script, outcome: Outcome, content: string)
    requires Upto(j, i)
    ensures Keeps(j, i, SettleAs(j, i, s, outcome, content))
  {
    CompleteOrFailKeeps(j, i);
    SettlingKeeps(j, i);
    GateKeeps(j, i, s, content);
  }

  lemma {:induction false} SettleKeeps(j: Job, i: nat, s: Script, h: Heard)
    requires Upto(j, i) && Orderly(s.beforeSettling)
    ensures Keeps(j, i, Settle(j, i, s, h))
  {
    DisturbedGrows(j, s.beforeSettling);
    SettleAsKeeps(Disturbed(j, s.beforeSettling), i, s, FinalOutcome(s, h), h.lastContent);
  }

  lemma {:induction false} StoppedKeeps(j: Job, i: nat, s: Script, ending: Ending)
    requires Upto(j, i)
    ensures Keeps(j, i, Stopped(j, i, s, ending))
  {
    FailGrows(j, i);
    RequeueGrows(j, i, s.staleToken);
  }

  /** A turn keeps the order, whatever orderly runs do meanwhile, and says done only of a phase
      that is finished. */
  lemma {:induction false} TurnKeeps(j: Job, i: nat, s: Script)
    requires Upto(j, i) && Calm(s)
    ensures Keeps(j, i, Turn(j, i, s))
  {
    var d := Decisive(s, 1);
    var now, a := AfterAttempts(j, s, 1, d), s.attempts(d);
    AttemptsGrow(j, s, 1, d);
    SettleKeeps(now, i, s, HearAll(a.events));
    StoppedKeeps(now, i, s, a.ending);
  }

  // ---------------------------------------------------------------- a run

  /** A run over the phases from i on keeps the order. */
  lemma {:induction false} RunKeeps(j: Job, i: nat, n: nat, scripts: Scripts)
    requires Inv(j) && AllCalm(scripts)
    requires i <= n <= |j.statuses| && i <= Boundary(j.statuses)
    ensures Grows(j, RunFrom(j, i, n, scripts).job)
    decreases n - i, 3
  {
    if i == n {
    } else if Terminal(j.statuses[i]) {
      RunKeeps(j, i + 1, n, scripts);
    } else if !Startable(j.statuses[i]) {
      RunPhaseKeeps(j, i, n, scripts);
    } else if Start(j, i).Some? {
      StartGrows(j, i);
      RunPhaseKeeps(Start(j, i).value, i, n, scripts);
    }
  }

  lemma {:induction false} RunPhaseKeeps(j: Job, i: nat, n: nat, scripts: Scripts)
    requires Upto(j, i) && AllCalm(scripts) && i < n <= |j.statuses|
    ensures Grows(j, RunPhase(j, i, n, scripts).job)
    decreases n - i, 2
  {
    if scripts(i).prepared {
      if Complete(j, i).Some? {
        CompleteGrows(j, i);
        RunKeeps(Complete(j, i).value, i + 1, n, scripts);
      }
    } else {
      StreamedKeeps(j, i, n, scripts);
    }
  }

  lemma {:induction false} StreamedKeeps(j: Job, i: nat, n: nat, scripts: Scripts)
    requires Upto(j, i) && AllCalm(scripts) && i < n <= |j.statuses| && !scripts(i).prepared
    ensures Grows(j, RunPhase(j, i, n, scripts).job)
    decreases n - i, 1
  {
    TurnKeeps(j, i, scripts(i).turn);
    StreamedIs(j, i, n, scripts);
    AfterStreamed(j, i, n, scripts, Turn(j, i, scripts(i).turn));
  }

  lemma {:induction false} AfterStreamed(j: Job, i: nat, n: nat, scripts: Scripts, r: Settled)
    requires Keeps(j, i, r) && AllCalm(scripts) && i < n <= |j.statuses|
    ensures Grows(j, r.job)
    ensures r.end == Returned(SaysDone) ==> Grows(j, RunFrom(r.job, i + 1, n, scripts).job)
    decreases n - i, 0
  {
    if r.end == Returned(SaysDone) {
      RunKeeps(r.job, i + 1, n, scripts);
    }
  }

  /** What a streamed phase leads to: on to the next one, or the job as the turn left it. */
  lemma {:induction false} StreamedIs(j: Job, i: nat, n: nat, scripts: Scripts)
    requires i < n <= |j.statuses| && !scripts(i).prepared
    ensures var r := Turn(j, i, scripts(i).turn);
      && |r.job.statuses| >= |j.statuses|
      && RunPhase(j, i, n, scripts).job ==
           if r.end == Returned(SaysDone) && !(i == 0 && n > 1 && scripts(i).asksChoice)
           then RunFrom(r.job, i + 1, n, scripts).job else r.job
  {
    WordMatchesStatus(j, i, scripts(i).turn);
  }

  // ---------------------------------------------------------------- a resume

  /** Recovery finds the first unfinished phase and makes it current, unless there is nothing
      to recover from. */
  lemma {:induction false} RecoveredKeeps(j: Job, saved: Saved)
    requires Inv(j) && !Terminal(j.status)
    ensures Recovered(j, saved).None? <==> saved == NothingSaved
    ensures Recovered(j, saved).Some? ==>
      var r := Recovered(j, saved).value;
      && Grows(j, r) && r.current == Boundary(r.statuses) == Boundary(j.statuses)
      && Startable(r.statuses[r.current])
  {
    var b := Boundary(j.statuses);
    BoundaryIs(j.statuses[b := Queued], b);
    FirstUnfinished(j, Running);
    FirstUnfinished(j, WaitingApproval);
    FirstUnfinished(j, Queued);
  }

  /** Running and waiting phases are found at the boundary, and so is the first queued one
      unless the boundary itself is running or waiting. */
  lemma {:induction false} FirstUnfinished(j: Job, s: Status)
    requires Inv(j) && !Terminal(s)
    ensures var k, b := FirstWith(j.statuses, s), Boundary(j.statuses);
      && k >= b
      && (b < |j.statuses| && j.statuses[b] == s ==> k == b)
      && (s != Queued && k < |j.statuses| ==> k == b)
  {
  }

  /** No other run is on the first unfinished phase. */
  predicate OthersIdle(ss: seq<Status>) {
    Boundary(ss) < |ss| ==> ss[Boundary(ss)] == Queued
  }

  predicate Consecutive(remaining: seq<nat>, from: nat) {
    forall x :: 0 <= x < |remaining| ==> remaining[x] == from + x
  }

  /** The queued phases are the ones from the first unfinished on, or from the one after it. */
  lemma {:induction false} QueuedTail(ss: seq<Status>, i: nat)
    requires i <= |ss| && InOrder(ss)
    ensures var first := Boundary(ss) + if OthersIdle(ss) then 0 else 1;
      var from := if i < first then first else i;
      |QueuedFrom(ss, i)| == (if from <= |ss| then |ss| - from else 0) && Consecutive(QueuedFrom(ss, i), from)
    decreases |ss| - i
  {
    if i < |ss| {
      QueuedTail(ss, i + 1);
    }
  }

  lemma {:induction false} TailConsecutive(remaining: seq<nat>, from: nat, n: nat)
    requires remaining != [] && Consecutive(remaining, from) && Within(remaining, n)
    ensures Consecutive(remaining[1..], from + 1) && Within(remaining[1..], n)
  {
    assert forall x :: 0 <= x < |remaining| - 1 ==> remaining[1..][x] == remaining[x + 1];
  }

  /** Going on with consecutive phases keeps the order as long as the first is not beyond the
      first unfinished one. */
  lemma {:induction false} ContinueKeeps(j: Job, remaining: seq<nat>, from: nat, scripts: Scripts)
    requires Inv(j) && AllCalm(scripts) && Within(remaining, |j.statuses|)
    requires Consecutive(remaining, from) && from <= Boundary(j.statuses)
    ensures Grows(j, ContinueFrom(j, remaining, scripts).job)
    decreases |remaining|, 1
  {
    if remaining != [] && Start(j, remaining[0]).Some? {
      assert remaining[0] == from;
      StartedTurnKeeps(j, from, scripts(from).turn);
      ContinueIs(j, remaining, scripts);
      AfterContinued(j, remaining, from, scripts, Turn(Start(j, from).value, from, scripts(from).turn));
    }
  }

  lemma {:induction false} StartedTurnKeeps(j: Job, i: nat, s: Script)
    requires Upto(j, i) && Start(j, i).Some? && Calm(s)
    ensures Keeps(j, i, Turn(Start(j, i).value, i, s))
  {
    StartGrows(j, i);
    TurnKeeps(Start(j, i).value, i, s);
    KeepsFrom(j, Start(j, i).value, i, Turn(Start(j, i).value, i, s));
  }

  lemma {:induction false} KeepsFrom(j: Job, started: Job, i: nat, r: Settled)
    requires Grows(j, started) && Keeps(started, i, r)
    ensures Keeps(j, i, r)
  {
  }

  lemma {:induction false} AfterContinued(j: Job, remaining: seq<nat>, from: nat, scripts: Scripts, r: Settled)
    requires Keeps(j, from, r) && AllCalm(scripts)
    requires remaining != [] && Consecutive(remaining, from) && Within(remaining, |j.statuses|)
    ensures Within(remaining[1..], |r.job.statuses|)
    ensures r.end == Returned(SaysDone) ==> Grows(j, ContinueFrom(r.job, remaining[1..], scripts).job)
    decreases |remaining|, 0
  {
    TailConsecutive(remaining, from, |r.job.statuses|);
    if r.end == Returned(SaysDone) {
      ContinueKeeps(r.job, remaining[1..], from + 1, scripts);
    }
  }

  /** What going on with the first remaining phase leads to. */
  lemma {:induction false} ContinueIs(j: Job, remaining: seq<nat>, scripts: Scripts)
    requires remaining != [] && Within(remaining, |j.statuses|) && Start(j, remaining[0]).Some?
    ensures var r := Turn(Start(j, remaining[0]).value, remaining[0], scripts(remaining[0]).turn);
      && Within(remaining[1..], |r.job.statuses|)
      && ContinueFrom(j, remaining, scripts).job ==
           if r.end == Returned(SaysDone) then ContinueFrom(r.job, remaining[1..], scripts).job else r.job
  {
    WordMatchesStatus(Start(j, remaining[0]).value, remaining[0], scripts(remaining[0]).turn);
  }

  /** When the resumed turn is done and the remaining phases are listed, no other run is on the
      first of them. */
  ghost predicate ListsClean(j: Job, saved: Saved, scripts: Scripts)
    requires Inv(j)
  {
    !Terminal(j.status) && Recovered(j, saved).Some? ==>
      var found := Recovered(j, saved).value;
      match Reentered(found)
      case None => true
      case Some(started) =>
        var r := Turn(started, found.current, scripts(found.current).turn);
        r.end == Returned(SaysDone) ==> OthersIdle(r.job.statuses)
  }

  lemma {:induction false} ResumeKeeps(j: Job, saved: Saved, scripts: Scripts)
    requires Inv(j) && AllCalm(scripts) && ListsClean(j, saved, scripts)
    ensures Grows(j, Resume(j, saved, scripts).job)
  {
    if !Terminal(j.status) && saved != NothingSaved {
      RecoveredKeeps(j, saved);
      var found := Recovered(j, saved).value;
      if Reentered(found).Some? {
        if Startable(found.statuses[found.current]) {
          StartGrows(found, found.current);
        }
        ResumedTurnKeeps(Reentered(found).value, found.current, scripts);
        ResumeIs(j, saved, scripts);
      }
    }
  }

  /** What a resume that gets to its turn gives. */
  lemma {:induction false} ResumeIs(j: Job, saved: Saved, scripts: Scripts)
    requires j.current < |j.statuses| && !Terminal(j.status)
    requires Recovered(j, saved).Some? && Reentered(Recovered(j, saved).value).Some?
    ensures var found := Recovered(j, saved).value;
      var r := Turn(Reentered(found).value, found.current, scripts(found.current).turn);
      Resume(j, saved, scripts).job ==
        if r.end == Returned(SaysDone) then ContinueFrom(r.job, QueuedFrom(r.job.statuses, 0), scripts).job else r.job
  {
  }

  lemma {:induction false} ResumedTurnKeeps(j: Job, i: nat, scripts: Scripts)
    requires Upto(j, i) && AllCalm(scripts)
    ensures var r := Turn(j, i, scripts(i).turn);
      && Grows(j, r.job)
      && (r.end == Returned(SaysDone) && OthersIdle(r.job.statuses) ==>
            Grows(j, ContinueFrom(r.job, QueuedFrom(r.job.statuses, 0), scripts).job))
  {
    TurnKeeps(j, i, scripts(i).turn);
    var r := Turn(j, i, scripts(i).turn);
    if r.end == Returned(SaysDone) && OthersIdle(r.job.statuses) {
      QueuedTail(r.job.statuses, 0);
      ContinueKeeps(r.job, QueuedFrom(r.job.statuses, 0), Boundary(r.job.statuses), scripts);
    }
  }

  /** The exact condition: the first phase that a resume goes on with keeps the order when it
      is started if and only if no other run is on the first unfinished one. */
  lemma {:induction false} GoingOnKeepsIff(j: Job)
    requires Inv(j) && QueuedFrom(j.statuses, 0) != []
    requires Start(j, QueuedFrom(j.statuses, 0)[0]).Some?
    ensures InOrder(Start(j, QueuedFrom(j.statuses, 0)[0]).value.statuses) <==> OthersIdle(j.statuses)
  {
    var i, b := QueuedFrom(j.statuses, 0)[0], Boundary(j.statuses);
    QueuedTail(j.statuses, 0);
    var after := j.statuses[i := Running];
    assert i == b || i == b + 1;
    BoundaryIs(after, b);
    if OthersIdle(j.statuses) {
      assert i == b;
    } else {
      assert i == b + 1 && after[b + 1] == Running;
    }
  }

  // ---------------------------------------------------------------- any sequence of runs and resumes

  datatype Op = RunAll(scripts: Scripts) | ResumeJob(saved: Saved, scripts: Scripts) | CancelAll | KillAt(i: nat)

  function Apply(j: Job, op: Op): Job
    requires j.statuses != [] && j.current < |j.statuses|
  {
    match op
    case RunAll(scripts) => RunFrom(j, 0, |j.statuses|, scripts).job
    case ResumeJob(saved, scripts) => Resume(j, saved, scripts).job
    case CancelAll => CancelJob(j).GetOr(j)
    case KillAt(i) => if i < |j.statuses| && j.statuses[i] == Running then Checkpoint(j, i, false) else j
  }

  /** Other runs are orderly during the operation, and idle when a resume lists what remains. */
  ghost predicate CalmOp(j: Job, op: Op)
    requires Inv(j)
  {
    match op
    case RunAll(scripts) => AllCalm(scripts)
    case ResumeJob(saved, scripts) => AllCalm(scripts) && ListsClean(j, saved, scripts)
    case _ => true
  }

  lemma {:induction false} ApplyKeeps(j: Job, op: Op)
    requires Inv(j) && CalmOp(j, op)
    ensures Grows(j, Apply(j, op))
  {
    match op
    case RunAll(scripts) => RunKeeps(j, 0, |j.statuses|, scripts);
    case ResumeJob(saved, scripts) => ResumeKeeps(j, saved, scripts);
    case CancelAll =>
      if CancelJob(j).Some? {
        CancelGrows(j);
      }
    case KillAt(i) =>
      if i < |j.statuses| && j.statuses[i] == Running {
        RequeueGrows(j, i, false);
      }
  }

  /** The job after each of the operations, all of them calm. */
  ghost predicate Reaches(j: Job, ops: seq<Op>, after: Job)
    decreases |ops|
  {
    if ops == [] then after == j
    else Inv(j) && CalmOp(j, ops[0]) && Reaches(Apply(j, ops[0]), ops[1..], after)
  }

  lemma {:induction false} OpsGrow(j: Job, ops: seq<Op>, after: Job)
    requires Inv(j) && Reaches(j, ops, after)
    ensures Grows(j, after)
    decreases |ops|
  {
    if ops != [] {
      ApplyKeeps(j, ops[0]);
      OpsGrow(Apply(j, ops[0]), ops[1..], after);
    }
  }

  /** From all-queued phases, every sequence of runs, resumes, kills and cancellations, with
      other runs in between, keeps the phases in order, and an open job points at its first
      unfinished phase. */
  lemma {:induction false} PhasesStayInOrder(phases: nat, ready: bool, ops: seq<Op>, after: Job)
    requires phases > 0 && Reaches(Fresh(phases, ready), ops, after)
    ensures InOrder(after.statuses) && (!Terminal(after.status) ==> after.current == Boundary(after.statuses))
  {
    BoundaryIs(Fresh(phases, ready).statuses, 0);
    OpsGrow(Fresh(phases, ready), ops, after);
  }

  // ---------------------------------------------------------------- without other runs

  /** No other run of the job interferes. */
  ghost predicate Quiet(s: Script) {
    (forall j :: s.beforeSettling(j) == j) && (forall k, j :: s.attempts(k).meanwhile(j) == j)
  }

  ghost predicate AllQuiet(scripts: Scripts) {
    forall k :: Quiet(scripts(k).turn)
  }

  lemma {:induction false} QuietIsCalm(scripts: Scripts)
    requires AllQuiet(scripts)
    ensures AllCalm(scripts)
  {
  }

  lemma {:induction false} QuietAttempts(j: Job, s: Script, k: nat, d: nat)
    requires Quiet(s)
    ensures AfterAttempts(j, s, k, d) == j
    decreases d + 1 - k
  {
    if k <= d {
      assert s.attempts(k).meanwhile(j) == j;
      QuietAttempts(j, s, k + 1, d);
    }
  }

  lemma {:induction false} QuietDone(j: Job, i: nat, s: Script)
    requires Upto(j, i) && j.statuses[i] == Running && Quiet(s) && Turn(j, i, s).end == Returned(SaysDone)
    ensures Turn(j, i, s).job.statuses == j.statuses[i := Done]
  {
    QuietAttempts(j, s, 1, Decisive(s, 1));
    assert s.beforeSettling(j) == j && Disturbed(j, s.beforeSettling) == j;
    ConcludedDone(j, i, s, s.attempts(Decisive(s, 1)));
  }

  lemma {:induction false} ConcludedDone(j: Job, i: nat, s: Script, a: Attempt)
    requires i < |j.statuses| && j.statuses[i] == Running && Disturbed(j, s.beforeSettling) == j
    ensures var r := Conclude(j, i, s, a);
      r.end == Returned(SaysDone) ==> r.job.statuses == j.statuses[i := Done]
  {
  }

  /** Without other runs every resume lists what remains cleanly. */
  lemma {:induction false} QuietListsClean(j: Job, saved: Saved, scripts: Scripts)
    requires Inv(j) && AllQuiet(scripts)
    ensures ListsClean(j, saved, scripts)
  {
    if !Terminal(j.status) && saved != NothingSaved {
      RecoveredKeeps(j, saved);
      var found := Recovered(j, saved).value;
      if Reentered(found).Some? {
        var i := found.current;
        if Startable(found.statuses[i]) {
          StartGrows(found, i);
        }
        QuietTurnIdle(Reentered(found).value, i, scripts(i).turn);
      }
    }
  }

  lemma {:induction false} QuietTurnIdle(j: Job, i: nat, s: Script)
    requires Upto(j, i) && i == Boundary(j.statuses) && j.statuses[i] == Running && Quiet(s)
    ensures Turn(j, i, s).end == Returned(SaysDone) ==> OthersIdle(Turn(j, i, s).job.statuses)
  {
    if Turn(j, i, s).end == Returned(SaysDone) {
      QuietDone(j, i, s);
      BoundaryIs(j.statuses[i := Done], i + 1);
    }
  }

  // ---------------------------------------------------------------- two active phases

  /** Another run that finishes the first phase and starts the second, when it finds the first
      one running. */
  function FinishesFirst(j: Job): Job {
    if |j.statuses| == 3 && j.statuses == [Running, Queued, Queued] && j.status == Running
    then j.(statuses := [Done, Running, Queued], current := 1) else j
  }

  lemma {:induction false} FinishesFirstIsOrderly()
    ensures Orderly(FinishesFirst)
  {
    forall j | Inv(j) ensures Grows(j, FinishesFirst(j)) {
      if FinishesFirst(j) != j {
        BoundaryIs(j.statuses, 0);
        BoundaryIs([Done, Running, Queued], 1);
      }
    }
  }

  /** A turn of one attempt in which one event arrives, no question and no gate. */
  function OneEvent(e: Event, before: Job -> Job): Script {
    var once := Attempt([e], Finished, j => j);
    Script(k => once, 0, t => false, t => false, false, None, 0, false, NothingLate, before)
  }

  lemma {:induction false} OneEventTurn(j: Job, i: nat, e: Event, before: Job -> Job)
    requires i < |j.statuses|
    ensures var s, h := OneEvent(e, before), Hear(NOTHING_HEARD, e);
      Turn(j, i, s) == SettleAs(Disturbed(j, before), i, s, h.outcome, h.lastContent)
  {
    var s := OneEvent(e, before);
    assert Decisive(s, 1) == 1;
    assert Disturbed(j, s.attempts(1).meanwhile) == j && AfterAttempts(j, s, 2, 1) == j;
    assert AfterAttempts(j, s, 1, 1) == j;
    assert [e][..0] == [] && HearAll([e]) == Hear(NOTHING_HEARD, e);
  }

  /** The first phase's turn ends well, with the other run in between; the third is parked. */
  function Overlapping(k: nat): PhaseScript {
    if k == 0 then PhaseScript(OneEvent(TurnEnds("done", false), FinishesFirst), false, false)
    else PhaseScript(OneEvent(ReactParked, j => j), false, false)
  }

  lemma {:induction false} OverlappingIsCalm()
    ensures AllCalm(Overlapping)
  {
    FinishesFirstIsOrderly();
    var first, later := Overlapping(0).turn, Overlapping(1).turn;
    assert forall k :: Overlapping(k).turn == if k == 0 then first else later;
  }

  /** A new job of three phases that was killed in its first one. */
  function Interrupted(): Job {
    Checkpoint(Job([Running, Queued, Queued], 0, Running, true), 0, false)
  }

  /** A resume of that job whose phase another, orderly run finishes meanwhile: it says done,
      lists the third phase as the only queued one, and starts it beside the second, which the
      other run is on. */
  lemma {:induction false} ResumeCanStartTwo()
    ensures Start(Fresh(3, true), 0) == Some(Job([Running, Queued, Queued], 0, Running, true))
    ensures Inv(Interrupted()) && AllCalm(Overlapping)
    ensures var r := Resume(Interrupted(), SavedByKill, Overlapping);
      r == RunResult(Job([Done, Running, WaitingApproval], 2, WaitingApproval, true), false)
      && !InOrder(r.job.statuses)
  {
    var j1 := Job([Running, Queued, Queued], 0, Running, true);
    var j2, j3 := Job([Done, Running, Queued], 1, Running, true), Job([Done, Running, Running], 2, Running, true);
    OverlappingIsCalm();
    assert Fresh(3, true).statuses[0 := Running] == j1.statuses;
    InterruptedIsReentered(j1);
    FirstIsFound(j1, j2);
    ThirdIsParked(j2, j3);
    NotInOrder([Done, Running, WaitingApproval]);
  }

  lemma {:induction false} NotInOrder(ss: seq<Status>)
    requires |ss| == 3 && ss[0] == Done && ss[1] == Running && ss[2] != Queued
    ensures !InOrder(ss)
  {
    BoundaryIs(ss, 1);
  }

  lemma {:induction false} FirstIsFound(j1: Job, j2: Job)
    requires j1 == Job([Running, Queued, Queued], 0, Running, true)
    requires j2 == Job([Done, Running, Queued], 1, Running, true)
    ensures Turn(j1, 0, Overlapping(0).turn) == Settled(j2, Returned(SaysDone), [])
  {
    OneEventTurn(j1, 0, TurnEnds("done", false), FinishesFirst);
  }

  lemma {:induction false} InterruptedIsReentered(j1: Job)
    requires j1 == Job([Running, Queued, Queued], 0, Running, true)
    ensures var j0 := Interrupted(); Inv(j0) && Recovered(j0, SavedByKill) == Some(j0) && Reentered(j0) == Some(j1)
  {
    var j0 := Interrupted();
    assert j0.statuses == [Queued, Queued, Queued];
    assert FirstWith(j0.statuses, Queued) == 0 && Boundary(j0.statuses) == 0;
    assert FirstWith(j0.statuses, Running) == 3 && FirstWith(j0.statuses, WaitingApproval) == 3;
    assert j0.statuses[0 := Running] == j1.statuses;
  }

  lemma {:induction false} ThirdIsParked(j2: Job, j3: Job)
    requires j2 == Job([Done, Running, Queued], 1, Running, true)
    requires j3 == Job([Done, Running, Running], 2, Running, true)
    ensures QueuedFrom(j2.statuses, 0) == [2]
    ensures ContinueFrom(j2, [2], Overlapping)
      == RunResult(Job([Done, Running, WaitingApproval], 2, WaitingApproval, true), false)
  {
    OnlyThirdQueued(j2.statuses);
    assert j2.statuses[2 := Running] == j3.statuses && Start(j2, 2) == Some(j3);
    OneEventTurn(j3, 2, ReactParked, j => j);
    assert j3.statuses[2 := WaitingApproval] == [Done, Running, WaitingApproval];
  }

  lemma {:induction false} OnlyThirdQueued(ss: seq<Status>)
    requires |ss| == 3 && ss[0] == Done && ss[1] == Running && ss[2] == Queued
    ensures QueuedFrom(ss, 0) == [2]
  {
    assert QueuedFrom(ss, 3) == [] && QueuedFrom(ss, 2) == [2] + [] == [2];
    assert QueuedFrom(ss, 1) == [] + [2] == [2] && QueuedFrom(ss, 0) == [] + [2];
  }
}
