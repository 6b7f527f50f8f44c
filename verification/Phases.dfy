/** The job/phase status machine that the chat runners drive
    (src/application/orchestration/job_phase_orchestrator.py, lines 223-470, and
    src/application/orchestration/job_recovery.py, lines 211-294).

    Each transition is a function of the job that is None when the orchestrator raises
    InvalidPhaseTransitionError; the class changes its fields accordingly. */
module Phases {
  import opened Texts

  /** Phases and jobs share one set of statuses. */
  datatype Status = Queued | Running | WaitingApproval | Done | Failed | Cancelled

  /** The phases in index order, the current one, and the job's own status.  `intakeReady`
      is whether the first phase passes the intake check when it starts. */
  datatype Job = Job(statuses: seq<Status>, current: nat, status: Status, intakeReady: bool)

  predicate Terminal(s: Status) {
    s in {Done, Failed, Cancelled}
  }

  predicate Startable(s: Status) {
    s in {Queued, WaitingApproval}
  }

  function NextQueued(ss: seq<Status>, i: nat): (k: nat)
    requires i <= |ss|
    ensures i <= k <= |ss|
    ensures forall x :: i <= x < k ==> ss[x] != Queued
    ensures k < |ss| ==> ss[k] == Queued
    decreases |ss| - i
  {
    if i == |ss| || ss[i] == Queued then i else NextQueued(ss, i + 1)
  }

  function Start(j: Job, i: nat): Option<Job>
    requires i < |j.statuses|
  {
    if (i == 0 && !j.intakeReady) || j.status == Cancelled || !Startable(j.statuses[i]) then None
    else Some(j.(statuses := j.statuses[i := Running], current := i, status := Running))
  }

  function Complete(j: Job, i: nat): Option<Job>
    requires i < |j.statuses|
  {
    match j.statuses[i]
    case Done => Some(j)
    case Running =>
      var next := NextQueued(j.statuses, i + 1);
      Some(j.(statuses := j.statuses[i := Done],
              current := if next == |j.statuses| then i else next,
              status := if next == |j.statuses| then Done else Running))
    case _ => None
  }

  function Fail(j: Job, i: nat): Job
    requires i < |j.statuses|
  {
    j.(statuses := j.statuses[i := Failed], current := i, status := Failed)
  }

  function Park(j: Job, i: nat): Option<Job>
    requires i < |j.statuses|
  {
    if Terminal(j.statuses[i]) then None
    else Some(j.(statuses := j.statuses[i := WaitingApproval], current := i, status := WaitingApproval))
  }

  /** The step asked a question: back to queued, the job stays open. */
  function WaitForAnswer(j: Job, i: nat): Option<Job>
    requires i < |j.statuses|
  {
    if Terminal(j.statuses[i]) then None
    else Some(j.(statuses := j.statuses[i := Queued], current := i, status := Running))
  }

  function CancelOpen(ss: seq<Status>): seq<Status> {
    seq(|ss|, i requires 0 <= i < |ss| => if Terminal(ss[i]) then ss[i] else Cancelled)
  }

  /** The phases that a replan adds: Formulate and Execute. */
  const REPLANNED: seq<Status> := [Queued, Queued]

  function Replan(j: Job): Option<Job> {
    if Terminal(j.status) then None
    else Some(j.(statuses := CancelOpen(j.statuses) + REPLANNED, current := |j.statuses|,
                 status := if Done in j.statuses then Running else Queued))
  }

  const MAX_REPLANS: nat := 3

  /** A kill in mid-stream: a running phase goes back to queued unless a newer run owns it. */
  function Checkpoint(j: Job, i: nat, stale: bool): Job
    requires i < |j.statuses|
  {
    if stale || j.statuses[i] != Running then j
    else if Terminal(j.status) then j.(statuses := j.statuses[i := Queued])
    else j.(statuses := j.statuses[i := Queued], current := i, status := Running)
  }

  function CancelJob(j: Job): Option<Job> {
    if Terminal(j.status) && j.status != Cancelled then None
    else Some(j.(statuses := CancelOpen(j.statuses), status := Cancelled))
  }

  // ---------------------------------------------------------------- the orchestrator

  /** What a phase turn can do to settle its phase. */
  datatype Settlement = Completes | Fails | Parks | Waits | Replans

  class Orchestrator {
    var statuses: seq<Status>
    var current: nat
    var status: Status
    const intakeReady: bool
    ghost var settled: seq<Settlement>   // every settling transition that was made

    function Now(): Job
      reads this
    {
      Job(statuses, current, status, intakeReady)
    }

    constructor (phases: nat, ready: bool)
      ensures Now() == Fresh(phases, ready) && settled == []
    {
      statuses := seq(phases, i => Queued);
      current, status, intakeReady, settled := 0, Queued, ready, [];
    }

    method StartPhase(i: nat) returns (ok: bool)
      requires i < |statuses|
      modifies this
      ensures ok <==> Start(old(Now()), i).Some?
      ensures Now() == (if ok then Start(old(Now()), i).value else old(Now())) && settled == old(settled)
    {
      if i == 0 && !intakeReady {
        return false;
      }
      if status == Cancelled || !Startable(statuses[i]) {
        return false;
      }
      statuses := statuses[i := Running];
      status, current := Running, i;
      return true;
    }

    method CompletePhase(i: nat) returns (ok: bool)
      requires i < |statuses|
      modifies this
      ensures ok <==> Complete(old(Now()), i).Some?
      ensures Now() == if ok then Complete(old(Now()), i).value else old(Now())
      ensures settled == old(settled) + if old(statuses[i]) == Running then [Completes] else []
    {
      if statuses[i] in {Failed, Cancelled, WaitingApproval, Queued} {
        return false;
      }
      if statuses[i] == Done {
        return true;
      }
      settled := settled + [Completes];
      var next := NextQueued(statuses, i + 1);
      statuses := statuses[i := Done];
      if next == |statuses| {
        status, current := Done, i;
      } else {
        status, current := Running, next;
      }
      return true;
    }

    method FailPhase(i: nat)
      requires i < |statuses|
      modifies this
      ensures Now() == Fail(old(Now()), i) && settled == old(settled) + [Fails]
    {
      statuses := statuses[i := Failed];
      status, current := Failed, i;
      settled := settled + [Fails];
    }

    method ParkPhase(i: nat) returns (ok: bool)
      requires i < |statuses|
      modifies this
      ensures ok <==> Park(old(Now()), i).Some?
      ensures Now() == if ok then Park(old(Now()), i).value else old(Now())
      ensures settled == old(settled) + if ok then [Parks] else []
    {
      if Terminal(statuses[i]) {
        return false;
      }
      statuses := statuses[i := WaitingApproval];
      status, current := WaitingApproval, i;
      settled := settled + [Parks];
      return true;
    }

    method WaitPhase(i: nat) returns (ok: bool)
      requires i < |statuses|
      modifies this
      ensures ok <==> WaitForAnswer(old(Now()), i).Some?
      ensures Now() == if ok then WaitForAnswer(old(Now()), i).value else old(Now())
      ensures settled == old(settled) + if ok then [Waits] else []
    {
      if Terminal(statuses[i]) {
        return false;
      }
      statuses := statuses[i := Queued];
      status, current := Running, i;
      settled := settled + [Waits];
      return true;
    }

    /** replan_job: cancels what is not finished and appends the new plan. */
    method ReplanJob() returns (ok: bool)
      modifies this
      ensures ok <==> Replan(old(Now())).Some?
      ensures Now() == if ok then Replan(old(Now())).value else old(Now())
      ensures settled == old(settled) + if ok then [Replans] else []
    {
      if Terminal(status) {
        return false;
      }
      var anyDone, open, n := Done in statuses, statuses, |statuses|;
      for i := 0 to n
        invariant |open| == n
        invariant forall k :: 0 <= k < n ==>
          open[k] == if k < i && !Terminal(statuses[k]) then Cancelled else statuses[k]
      {
        if !Terminal(open[i]) {
          open := open[i := Cancelled];
        }
      }
      assert open == CancelOpen(statuses);
      statuses := open + REPLANNED;
      current := n;
      status := if anyDone then Running else Queued;
      settled := settled + [Replans];
      return true;
    }

    method CheckpointKill(i: nat, stale: bool)
      requires i < |statuses|
      modifies this
      ensures Now() == Checkpoint(old(Now()), i, stale) && settled == old(settled)
    {
      if stale || statuses[i] != Running {
        return;
      }
      statuses := statuses[i := Queued];
      if !Terminal(status) {
        status, current := Running, i;
      }
    }

    /** Another run of the job, while this one is waiting. */
    method Interfere(after: Job)
      modifies this
      ensures Now() == after.(intakeReady := old(Now()).intakeReady) && settled == old(settled)
    {
      statuses, current, status := after.statuses, after.current, after.status;
    }
  }

  function Fresh(phases: nat, ready: bool): Job {
    Job(seq(phases, i => Queued), 0, Queued, ready)
  }
}
