/** Running a job's phases, and resuming it later
    (src/application/chat/job_runner.py, lines 270-523; src/application/chat/job_resume.py,
    lines 214-357; src/web/routers/chat.py, lines 395-444). */
module PhaseRuns {
  import opened Texts
  import opened Phases
  import opened PhaseTurn

  /** What one phase of a run brings: its turn, whether it is research that was prepared
      when the job was made, and whether its text asks the operator to choose. */
  datatype PhaseScript = PhaseScript(turn: Script, prepared: bool, asksChoice: bool)

  type Scripts = nat -> PhaseScript

  // ---------------------------------------------------------------- one run over all phases

  /** Returned when the run went through or stopped at a phase; raised when the orchestrator
      or a cancellation threw. */
  datatype RunResult = RunResult(job: Job, raised: bool)

  /** The phases i..n-1 of a run. */
  function RunFrom(j: Job, i: nat, n: nat, scripts: Scripts): RunResult
    requires i <= n <= |j.statuses|
    decreases n - i
  {
    if i == n then RunResult(j, false)
    else if Terminal(j.statuses[i]) then RunFrom(j, i + 1, n, scripts)
    else
      var started := if Startable(j.statuses[i]) then Start(j, i) else Some(j);
      if started.None? then RunResult(j, true)
      else RunPhase(started.value, i, n, scripts)
  }

  function RunPhase(j: Job, i: nat, n: nat, scripts: Scripts): RunResult
    requires i < n <= |j.statuses|
    decreases n - i, 0
  {
    if scripts(i).prepared then
      match Complete(j, i)
      case None => RunResult(j, true)
      case Some(after) => RunFrom(after, i + 1, n, scripts)
    else
      WordMatchesStatus(j, i, scripts(i).turn);
      var r := Turn(j, i, scripts(i).turn);
      if !r.end.Returned? then RunResult(r.job, true)
      else if r.end.word != SaysDone then RunResult(r.job, false)
      else if i == 0 && n > 1 && scripts(i).asksChoice then
        // the plan is parked for the operator's choice -- after it was completed
        match Park(r.job, i)
        case None => RunResult(r.job, true)
        case Some(parked) => RunResult(parked, false)
      else RunFrom(r.job, i + 1, n, scripts)
  }

  method ExecuteGoalJobPhases(orch: Orchestrator, scripts: Scripts) returns (raised: bool)
    modifies orch
    ensures RunFrom(old(orch.Now()), 0, |old(orch.statuses)|, scripts) == RunResult(orch.Now(), raised)
  {
    var n := |orch.statuses|;
    ghost var start := orch.Now();
    for i := 0 to n
      invariant n <= |orch.statuses|
      invariant RunFrom(orch.Now(), i, n, scripts) == RunFrom(start, 0, n, scripts)
    {
      var stop, failed := ExecutePhase(orch, i, n, scripts);
      if stop {
        return failed;
      }
    }
    return false;
  }

  /** The body of that loop: skip a finished phase, else start it, and complete it at once or
      stream it.  The run stops at a phase that does not get done. */
  method ExecutePhase(orch: Orchestrator, i: nat, n: nat, scripts: Scripts) returns (stop: bool, raised: bool)
    requires i < n <= |orch.statuses|
    modifies orch
    ensures n <= |orch.statuses|
    ensures RunFrom(old(orch.Now()), i, n, scripts) ==
      if stop then RunResult(orch.Now(), raised) else RunFrom(orch.Now(), i + 1, n, scripts)
  {
    if Terminal(orch.statuses[i]) {
      return false, false;
    }
    if Startable(orch.statuses[i]) {
      var ok := orch.StartPhase(i);
      if !ok {
        return true, true;
      }
    }
    if scripts(i).prepared {
      var ok := orch.CompletePhase(i);
      return !ok, !ok;
    }
    stop, raised := StreamPhase(orch, i, n, scripts);
  }

  /** A phase that needs its turn streamed: the run goes on only after a finished phase. */
  method StreamPhase(orch: Orchestrator, i: nat, n: nat, scripts: Scripts) returns (stop: bool, raised: bool)
    requires i < n <= |orch.statuses| && !scripts(i).prepared
    modifies orch
    ensures n <= |orch.statuses|
    ensures RunPhase(old(orch.Now()), i, n, scripts) ==
      if stop then RunResult(orch.Now(), raised) else RunFrom(orch.Now(), i + 1, n, scripts)
  {
    WordMatchesStatus(orch.Now(), i, scripts(i).turn);
    var end, used := StreamTurnBound(orch, i, scripts(i).turn);
    if !end.Returned? {
      return true, true;
    }
    if end.word != SaysDone {
      return true, false;
    }
    if i == 0 && n > 1 && scripts(i).asksChoice {
      var parked := orch.ParkPhase(i);
      return true, !parked;
    }
    return false, false;
  }

  // ---------------------------------------------------------------- resuming

  /** The first phase with the given status, or the number of phases. */
  function FirstWith(ss: seq<Status>, s: Status): (k: nat)
    ensures k <= |ss| && (k < |ss| ==> ss[k] == s) && forall x :: 0 <= x < k ==> ss[x] != s
  {
    if ss == [] || ss[0] == s then 0 else 1 + FirstWith(ss[1..], s)
  }

  /** The job's latest checkpoint: missing or corrupt, made by an operator kill, or any other. */
  datatype Saved = NothingSaved | SavedByKill | SavedOtherwise

  /** resume_after_crash: without a checkpoint the job has to be planned anew and is left alone. */
  function Recovered(j: Job, saved: Saved): Option<Job> {
    if saved == NothingSaved then None else Some(Requeued(j, saved))
  }

  /** An interrupted phase is queued again, a parked one becomes current, and after an operator
      kill the first queued one does. */
  function Requeued(j: Job, saved: Saved): Job {
    var running, parked, queued :=
      FirstWith(j.statuses, Running), FirstWith(j.statuses, WaitingApproval), FirstWith(j.statuses, Queued);
    var n := |j.statuses|;
    if running < n then
      (if Terminal(j.status) then j.(statuses := j.statuses[running := Queued])
       else j.(statuses := j.statuses[running := Queued], current := running, status := Running))
    else if Terminal(j.status) then j
    else if parked < n then j.(current := parked, status := WaitingApproval)
    else if queued < n && saved == SavedByKill then j.(current := queued, status := Running)
    else j
  }

  predicate Within(remaining: seq<nat>, n: nat) {
    forall x :: 0 <= x < |remaining| ==> remaining[x] < n
  }

  /** The queued phases after the resumed one, from the list taken before the loop. */
  function ContinueFrom(j: Job, remaining: seq<nat>, scripts: Scripts): RunResult
    requires Within(remaining, |j.statuses|)
    decreases |remaining|
  {
    if remaining == [] then RunResult(j, false)
    else
      match Start(j, remaining[0])
      case None => RunResult(j, true)
      case Some(started) =>
        WordMatchesStatus(started, remaining[0], scripts(remaining[0]).turn);
        var r := Turn(started, remaining[0], scripts(remaining[0]).turn);
        if !r.end.Returned? then RunResult(r.job, true)
        else if r.end.word != SaysDone then RunResult(r.job, false)
        else ContinueFrom(r.job, remaining[1..], scripts)
  }

  function QueuedFrom(ss: seq<Status>, i: nat): (r: seq<nat>)
    requires i <= |ss|
    ensures Within(r, |ss|)
    decreases |ss| - i
  {
    if i == |ss| then []
    else (if ss[i] == Queued then [i] else []) + QueuedFrom(ss, i + 1)
  }

  /** The recovered job with its current phase running again; a phase that is running is left so. */
  function Reentered(found: Job): Option<Job>
    requires found.current < |found.statuses|
  {
    if Startable(found.statuses[found.current]) then Start(found, found.current) else Some(found)
  }

  /** A finished job, or one without a checkpoint, is not resumed. */
  function Resume(j: Job, saved: Saved, scripts: Scripts): RunResult
    requires j.current < |j.statuses|
  {
    if Terminal(j.status) || Recovered(j, saved).None? then RunResult(j, false)
    else
      var found := Recovered(j, saved).value;
      match Reentered(found)
      case None => RunResult(found, true)
      case Some(started) =>
        var i := found.current;
        WordMatchesStatus(started, i, scripts(i).turn);
        var r := Turn(started, i, scripts(i).turn);
        if !r.end.Returned? then RunResult(r.job, true)
        else if r.end.word != SaysDone then RunResult(r.job, false)
        else ContinueFrom(r.job, QueuedFrom(r.job.statuses, 0), scripts)
  }

  method ContinueRemaining(orch: Orchestrator, scripts: Scripts) returns (raised: bool)
    modifies orch
    ensures ContinueFrom(old(orch.Now()), QueuedFrom(old(orch.statuses), 0), scripts) == RunResult(orch.Now(), raised)
  {
    var remaining: seq<nat> := QueuedFrom(orch.statuses, 0);
    ghost var start, all := orch.Now(), remaining;
    while remaining != []
      invariant Within(remaining, |orch.statuses|)
      invariant ContinueFrom(orch.Now(), remaining, scripts) == ContinueFrom(start, all, scripts)
      decreases |remaining|
    {
      var i := remaining[0];
      var ok := orch.StartPhase(i);
      if !ok {
        return true;
      }
      WordMatchesStatus(orch.Now(), i, scripts(i).turn);
      var end, used := StreamTurnBound(orch, i, scripts(i).turn);
      if !end.Returned? {
        return true;
      }
      if end.word != SaysDone {
        return false;
      }
      remaining := remaining[1..];
    }
    return false;
  }
}
