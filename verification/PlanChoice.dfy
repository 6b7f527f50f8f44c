/** A plan that asks the operator to choose (src/application/chat/job_runner.py, lines 484-512). */
module PlanChoice {
  import opened Texts
  import opened Phases
  import opened PhaseTurn
  import opened PhaseRuns
  import opened PhaseOrder

  /** A plan that asks the operator to choose is never parked: the first phase is completed
      before the park, which the orchestrator then refuses, so the run raises and leaves the
      job as the completed turn did. */
  lemma {:induction false} PlanChoiceIsNeverParked(j: Job, n: nat, scripts: Scripts)
    requires 1 < n <= |j.statuses| && !scripts(0).prepared && scripts(0).asksChoice
    requires Turn(j, 0, scripts(0).turn).end == Returned(SaysDone)
    ensures RunPhase(j, 0, n, scripts) == RunResult(Turn(j, 0, scripts(0).turn).job, true)
    ensures RunPhase(j, 0, n, scripts).job.statuses[0] == Done
  {
    WordMatchesStatus(j, 0, scripts(0).turn);
  }

  /** With no other phase the plan is the whole job, and the run goes through. */
  lemma {:induction false} LonePlanGoesThrough(j: Job, scripts: Scripts)
    requires |j.statuses| >= 1 && !scripts(0).prepared
    requires Turn(j, 0, scripts(0).turn).end == Returned(SaysDone)
    ensures RunPhase(j, 0, 1, scripts) == RunResult(Turn(j, 0, scripts(0).turn).job, false)
    ensures RunPhase(j, 0, 1, scripts).job.statuses[0] == Done
  {
    WordMatchesStatus(j, 0, scripts(0).turn);
  }

  /** A new job after its first phase was finished. */
  function OneDone(n: nat): Job
    requires n > 1
  {
    Job([Done] + seq(n - 1, k => Queued), 1, Running, true)
  }

  lemma {:induction false} FirstStarted(n: nat)
    requires n > 1
    ensures var started := Start(Fresh(n, true), 0);
      && started.Some? && Upto(started.value, 0) && |started.value.statuses| == n
      && Complete(started.value, 0) == Some(OneDone(n))
  {
    var j := Fresh(n, true);
    BoundaryIs(j.statuses, 0);
    StartGrows(j, 0);
    var started := Start(j, 0).value;
    assert NextQueued(started.statuses, 1) == 1;
    assert started.statuses[0 := Done] == OneDone(n).statuses;
  }

  /** In a run of a new job without interference, nothing waits for approval afterwards: the
      first phase is done, every other phase queued, and the job goes on running. */
  lemma {:induction false} PlanChoiceLeavesNothingWaiting(n: nat, scripts: Scripts)
    requires n > 1 && AllQuiet(scripts) && !scripts(0).prepared && scripts(0).asksChoice
    requires Turn(Start(Fresh(n, true), 0).value, 0, scripts(0).turn).end == Returned(SaysDone)
    ensures var r := RunFrom(Fresh(n, true), 0, n, scripts);
      && r == RunResult(OneDone(n), true)
      && r.job.status != WaitingApproval && forall k :: 0 <= k < n ==> r.job.statuses[k] != WaitingApproval
  {
    var s := scripts(0).turn;
    FirstStarted(n);
    var started := Start(Fresh(n, true), 0).value;
    QuietAttempts(started, s, 1, Decisive(s, 1));
    assert s.beforeSettling(started) == started && Disturbed(started, s.beforeSettling) == started;
    PlanChoiceIsNeverParked(started, n, scripts);
  }

  // ---------------------------------------------------------------- one such run

  /** The phase's only attempt finishes with this reply, no question and no gate. */
  function Says(text: string): Script {
    OneEvent(TurnEnds(text, false), j => j)
  }

  lemma {:induction false} SaysIsDone(j: Job, text: string)
    requires Upto(j, 0) && j.statuses[0] == Running
    ensures Quiet(Says(text)) && Turn(j, 0, Says(text)).end == Returned(SaysDone)
  {
    OneEventTurn(j, 0, TurnEnds(text, false), j => j);
  }

  /** Two phases whose first says which options there are: the run raises, and the job is
      left running with nothing waiting for the operator. */
  lemma {:induction false} TwoPhasePlanIsNotParked(text: string)
    ensures var scripts: Scripts := k => PhaseScript(Says(text), false, true);
      RunFrom(Fresh(2, true), 0, 2, scripts) == RunResult(Job([Done, Queued], 1, Running, true), true)
  {
    var scripts: Scripts := k => PhaseScript(Says(text), false, true);
    FirstStarted(2);
    StartGrows(Fresh(2, true), 0);
    SaysIsDone(Start(Fresh(2, true), 0).value, text);
    PlanChoiceLeavesNothingWaiting(2, scripts);
    assert OneDone(2).statuses == [Done, Queued];
  }
}
