/** What no run can do, whatever runs there are: work on a job that is over, or on one whose
    first phase is not ready (src/application/orchestration/job_phase_orchestrator.py, lines
    223-470). */
module PhaseGuards {
  import opened Texts
  import opened Phases
  import opened PhaseTurn
  import opened PhaseRuns
  import opened PhaseSteps

  // ---------------------------------------------------------------- a job that is over

  /** The job and all its phases are finished. */
  predicate Over(j: Job) {
    Terminal(j.status) && forall k :: 0 <= k < |j.statuses| ==> Terminal(j.statuses[k])
  }

  /** Phases stay as they are, except that some may be marked failed; none is added. */
  predicate AtMostFailed(j: Job, r: Job) {
    |r.statuses| == |j.statuses|
    && forall k :: 0 <= k < |j.statuses| ==> r.statuses[k] == j.statuses[k] || r.statuses[k] == Failed
  }

  /** Cancelling a job that is not over finishes it. */
  lemma {:induction false} CancelledIsOver(j: Job)
    requires CancelJob(j).Some?
    ensures Over(CancelJob(j).value) && CancelJob(j).value.status == Cancelled
    ensures forall k :: 0 <= k < |j.statuses| && Terminal(j.statuses[k]) ==>
      CancelJob(j).value.statuses[k] == j.statuses[k]
  {
  }

  lemma {:induction false} ActStaysOver(j: Job, i: nat, next: Next, act: Act)
    requires Over(j) && i < |j.statuses|
    ensures var r := Acted(j, i, next, act).job;
      && Over(r) && AtMostFailed(j, r)
      && (r == j || r == Fail(j, i))
  {
  }

  lemma {:induction false} AdvanceStaysOver(j: Job, p: Place)
    requires Over(j) && PlaceFits(p, |j.statuses|) && !p.InTurn?
    ensures Advanced(j, p).job == j
  {
  }

  /** No step of any run starts, parks or reopens a phase of a job that is over, or adds one. */
  lemma {:induction false} StepStaysOver(s: System, step: Step)
    requires Over(s.job) && Can(s, step)
    ensures Over(Do(s, step).job) && AtMostFailed(s.job, Do(s, step).job)
    ensures s.job.status != Cancelled ==> Do(s, step).job.status != Cancelled
  {
    match step
    case StartRun =>
    case RecoverJob(_) =>
    case Advance(p) => AdvanceStaysOver(s.job, p);
    case EndTurn(p, act) => ActStaysOver(s.job, p.i, p.next, act);
    case Stop(_) =>
    case Kill(_) =>
    case Cancel =>
  }

  /** Nor do any number of steps; and a job that is done or failed is not cancelled any more. */
  lemma {:induction false} StaysOver(s: System, steps: seq<Step>)
    requires Over(s.job) && CanRun(s, steps)
    ensures Over(Ran(s, steps).job) && AtMostFailed(s.job, Ran(s, steps).job)
    ensures s.job.status != Cancelled ==> Ran(s, steps).job.status != Cancelled
    decreases |steps|
  {
    if steps != [] {
      StepStaysOver(s, steps[0]);
      StaysOver(Do(s, steps[0]), steps[1..]);
    }
  }

  /** A cancelled job can still become a failed one: exactly when a run that was in its turn
      fails, or completes a phase that is not done. */
  lemma {:induction false} CancelledFailsIff(j: Job, i: nat, next: Next, act: Act)
    requires Over(j) && j.status == Cancelled && i < |j.statuses|
    ensures Acted(j, i, next, act).job.status == Failed <==>
      act == Settles(Fails) || (act == Settles(Completes) && j.statuses[i] != Done)
  {
  }

  /** For example a job whose only phase is running, cancelled before its turn ends well. */
  lemma {:induction false} CancelledBecomesFailed()
    ensures var j := Job([Running], 0, Running, true);
      && CancelJob(j) == Some(Job([Cancelled], 0, Cancelled, true))
      && Acted(CancelJob(j).value, 0, GoOn(1), Settles(Completes)).job == Job([Failed], 0, Failed, true)
  {
    assert CancelOpen([Running]) == [Cancelled] && [Cancelled][0 := Failed] == [Failed];
  }

  // ---------------------------------------------------------------- a job that is not ready

  /** No phase was ever started: all are queued, or all were cancelled. */
  predicate NeverStarted(j: Job) {
    && !j.intakeReady && j.statuses != []
    && ((forall k :: 0 <= k < |j.statuses| ==> j.statuses[k] == Queued)
        || (forall k :: 0 <= k < |j.statuses| ==> j.statuses[k] == Cancelled))
    && (!Terminal(j.status) ==> j.current == 0 && j.statuses[0] == Queued)
    && (Terminal(j.status) <==> j.statuses[0] == Cancelled)
  }

  /** A run is before the first phase, or passes over cancelled ones. */
  predicate Idle(p: Place, j: Job) {
    match p
    case Before(i, _) => i == 0 || j.statuses == [] || j.statuses[0] == Cancelled
    case Found(i) => i == 0
    case _ => false
  }

  ghost predicate Waiting(s: System) {
    NeverStarted(s.job) && forall p :: p in s.runs ==> Idle(p, s.job)
  }

  lemma {:induction false} AdvanceStaysIdle(j: Job, p: Place)
    requires NeverStarted(j) && Idle(p, j) && PlaceFits(p, |j.statuses|)
    ensures var m := Advanced(j, p); m.job == j && (m.place.Some? ==> Idle(m.place.value, j))
  {
  }

  lemma {:induction false} CancelledNeverStarted(j: Job)
    requires NeverStarted(j) && CancelJob(j).Some?
    ensures NeverStarted(CancelJob(j).value) && CancelJob(j).value.statuses[0] == Cancelled
  {
  }

  lemma {:induction false} RecoveredNeverStarted(j: Job, saved: Saved)
    requires NeverStarted(j) && !Terminal(j.status)
    ensures NeverStarted(Requeued(j, saved)) && Requeued(j, saved).current == 0
    ensures Requeued(j, saved).statuses == j.statuses
  {
  }

  lemma {:induction false} StepWaits(s: System, step: Step)
    requires Waiting(s) && Can(s, step)
    ensures Waiting(Do(s, step))
  {
    match step
    case StartRun =>
    case RecoverJob(saved) => RecoveredNeverStarted(s.job, saved);
    case Advance(p) => AdvanceStaysIdle(s.job, p);
    case EndTurn(p, act) => assert false;
    case Stop(_) =>
    case Kill(_) => assert false;
    case Cancel =>
      if CancelJob(s.job).Some? {
        CancelledNeverStarted(s.job);
      }
  }

  lemma {:induction false} RunsWait(s: System, steps: seq<Step>)
    requires Waiting(s) && CanRun(s, steps)
    ensures Waiting(Ran(s, steps))
    decreases |steps|
  {
    if steps != [] {
      StepWaits(s, steps[0]);
      RunsWait(Do(s, steps[0]), steps[1..]);
    }
  }

  /** As long as the intake check of the first phase does not pass, no run or resume, however
      many there are, ever starts any phase of the job. */
  lemma {:induction false} NotReadyNeverStarts(phases: nat, steps: seq<Step>)
    requires phases > 0 && CanRun(NewJob(phases, false), steps)
    ensures forall k :: 0 <= k < |Ran(NewJob(phases, false), steps).job.statuses| ==>
      Ran(NewJob(phases, false), steps).job.statuses[k] in {Queued, Cancelled}
  {
    RunsWait(NewJob(phases, false), steps);
  }
}
