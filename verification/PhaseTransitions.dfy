/** What the transitions of a job do to each of its phases
    (src/application/orchestration/job_phase_orchestrator.py, lines 223-470, and
    src/application/orchestration/job_recovery.py, lines 211-294). */
module PhaseTransitions {
  import opened Texts
  import opened Phases
  import opened PhaseTurn
  import opened PhaseRuns
  import opened PhaseEvents

  /** Phase k is the first one from i on with that status. */
  predicate FirstIs(ss: seq<Status>, i: nat, s: Status, k: nat) {
    i <= k < |ss| && ss[k] == s && forall x :: i <= x < k ==> ss[x] != s
  }

  predicate NoneFrom(ss: seq<Status>, i: nat, s: Status) {
    forall x :: i <= x < |ss| ==> ss[x] != s
  }

  /** Two lists of phases differ at most at phase i. */
  predicate OnlyAt(before: seq<Status>, after: seq<Status>, i: nat) {
    |after| == |before| && forall x :: 0 <= x < |before| && x != i ==> after[x] == before[x]
  }

  // ---------------------------------------------------------------- completing

  /** A running phase gets done, and the job goes on to the first queued phase after it, even if
      an earlier one is queued. */
  lemma {:induction false} DoneMovesOn(j: Job, i: nat, k: nat)
    requires i < |j.statuses| && j.statuses[i] == Running && FirstIs(j.statuses, i + 1, Queued, k)
    ensures var r := Complete(j, i);
      && r.Some? && r.value.statuses[i] == Done && OnlyAt(j.statuses, r.value.statuses, i)
      && r.value.current == k && r.value.status == Running
  {
    assert NextQueued(j.statuses, i + 1) == k;
  }

  /** With none queued after it the job is done. */
  lemma {:induction false} DoneEnds(j: Job, i: nat)
    requires i < |j.statuses| && j.statuses[i] == Running && NoneFrom(j.statuses, i + 1, Queued)
    ensures var r := Complete(j, i);
      && r.Some? && r.value.statuses[i] == Done && OnlyAt(j.statuses, r.value.statuses, i)
      && r.value.current == i && r.value.status == Done
  {
    assert NextQueued(j.statuses, i + 1) == |j.statuses|;
  }

  // ---------------------------------------------------------------- replanning

  /** A turn that plans anew cancels every phase that is not finished, keeps the others, appends
      two queued phases and makes the first of them current; the job is running if some phase
      was done, and queued otherwise. */
  lemma {:induction false} ReplannedIs(j: Job, i: nat, s: Script)
    requires i < |j.statuses| && Turn(j, i, s).end == Returned(SaysReplan)
    ensures var now, r := WhenSettling(j, s), Turn(j, i, s).job;
      var n := |now.statuses|;
      && !Terminal(now.status)
      && |r.statuses| == n + 2 && r.statuses[n] == Queued && r.statuses[n + 1] == Queued && r.current == n
      && (forall x :: 0 <= x < n ==>
            r.statuses[x] == if Terminal(now.statuses[x]) then now.statuses[x] else Cancelled)
      && (r.status == Running <==> exists x :: 0 <= x < n && now.statuses[x] == Done)
      && (r.status == Queued <==> forall x :: 0 <= x < n ==> now.statuses[x] != Done)
  {
  }

  // ---------------------------------------------------------------- killed turns

  /** The job when a turn that does not finish its stream comes to its end. */
  function WhenStopped(j: Job, s: Script): (r: Job)
    ensures |r.statuses| >= |j.statuses|
  {
    AfterAttempts(j, s, 1, Decisive(s, 1))
  }

  /** A killed turn queues its phase again if it is still running and no newer run owns it, and
      makes it current unless the job is over. */
  lemma {:induction false} KilledIs(j: Job, i: nat, s: Script)
    requires i < |j.statuses| && Deciding(s).ending == Killed
    ensures var now, r := WhenStopped(j, s), Turn(j, i, s);
      && r.end == RaisedCancelled
      && (s.staleToken || now.statuses[i] != Running ==> r.job == now)
      && (!s.staleToken && now.statuses[i] == Running ==>
            && r.job.statuses[i] == Queued && OnlyAt(now.statuses, r.job.statuses, i)
            && (if Terminal(now.status) then r.job.current == now.current && r.job.status == now.status
                else r.job.current == i && r.job.status == Running))
  {
  }

  /** A cancellation or an error in one of the awaits after the stream leaves the job as it is. */
  lemma {:induction false} LateTroubleIs(j: Job, i: nat, s: Script, reply: string)
    requires i < |j.statuses| && Deciding(s).ending == Finished
    requires forall e <- Deciding(s).events :: !Decides(e) && !Clarifies(e)
    requires IsReply(Deciding(s).events, reply)
    ensures var now, r := WhenSettling(j, s), Turn(j, i, s);
      && (s.late == KilledInTest && s.endsWithQuestion(reply) ==> r.end == RaisedCancelled && r.job == now)
      && (s.selfVerify && s.checker.Some? && !PlainQuestion(s, reply) ==>
            && (s.late == KilledInGate ==> r.end == RaisedCancelled && r.job == now)
            && (s.late == CheckerRaises ==> r.end == RaisedError && r.job == now))
  {
    var events := Deciding(s).events;
    assert !exists e <- events :: Clarifies(e);
    NoneDecidesHears(events);
    ReplyIsHeard(events);
    ReplyIsUnique(events, reply, HearAll(events).lastContent);
  }

  // ---------------------------------------------------------------- recovery

  /** The first running phase is queued again, and current unless the job is over. */
  lemma {:induction false} InterruptedIsRequeued(j: Job, saved: Saved, k: nat)
    requires FirstIs(j.statuses, 0, Running, k) && saved != NothingSaved
    ensures var r := Recovered(j, saved);
      && r.Some? && r.value.statuses[k] == Queued && OnlyAt(j.statuses, r.value.statuses, k)
      && (if Terminal(j.status) then r.value.current == j.current && r.value.status == j.status
          else r.value.current == k && r.value.status == Running)
  {
    assert FirstWith(j.statuses, Running) == k;
  }

  /** Otherwise no phase changes: the first parked one becomes current; and after an operator
      kill, but after no other stop, the first queued one does. */
  lemma {:induction false} OthersAreFound(j: Job, saved: Saved)
    requires NoneFrom(j.statuses, 0, Running) && saved != NothingSaved && !Terminal(j.status)
    ensures var r := Recovered(j, saved);
      && r.Some? && r.value.statuses == j.statuses
      && (forall k :: FirstIs(j.statuses, 0, WaitingApproval, k) ==>
            r.value.current == k && r.value.status == WaitingApproval)
      && (NoneFrom(j.statuses, 0, WaitingApproval) ==>
            && (saved != SavedByKill ==> r.value == j)
            && (saved == SavedByKill ==>
                  && (NoneFrom(j.statuses, 0, Queued) ==> r.value == j)
                  && forall k :: FirstIs(j.statuses, 0, Queued, k) ==>
                       r.value.current == k && r.value.status == Running))
  {
    assert FirstWith(j.statuses, Running) == |j.statuses|;
    forall k, s | FirstIs(j.statuses, 0, s, k) ensures FirstWith(j.statuses, s) == k {
    }
    forall s | NoneFrom(j.statuses, 0, s) ensures FirstWith(j.statuses, s) == |j.statuses| {
    }
  }

  // ---------------------------------------------------------------- where a run stops

  /** Phase i is the first that is not finished, and can be started. */
  predicate NextToRun(j: Job, i: nat) {
    i < |j.statuses| && Startable(j.statuses[i]) && forall x :: 0 <= x < i ==> Terminal(j.statuses[x])
  }

  lemma {:induction false} SkipsFinished(j: Job, k: nat, i: nat, scripts: Scripts)
    requires k <= i <= |j.statuses| && forall x :: k <= x < i ==> Terminal(j.statuses[x])
    ensures RunFrom(j, k, |j.statuses|, scripts) == RunFrom(j, i, |j.statuses|, scripts)
    decreases i - k
  {
    if k < i {
      SkipsFinished(j, k + 1, i, scripts);
    }
  }

  /** A run raises when its first unfinished phase is not let start, or its turn ends without a
      word; it returns after a turn that did not get the phase done.  No later phase is touched. */
  lemma {:induction false} RunStops(j: Job, i: nat, scripts: Scripts)
    requires NextToRun(j, i) && !scripts(i).prepared
    ensures Start(j, i) == None ==> RunFrom(j, 0, |j.statuses|, scripts) == RunResult(j, true)
    ensures Start(j, i).Some? ==>
      var r := Turn(Start(j, i).value, i, scripts(i).turn);
      && (!r.end.Returned? ==> RunFrom(j, 0, |j.statuses|, scripts) == RunResult(r.job, true))
      && (r.end.Returned? && r.end.word != SaysDone ==> RunFrom(j, 0, |j.statuses|, scripts) == RunResult(r.job, false))
  {
    SkipsFinished(j, 0, i, scripts);
  }

  lemma {:induction false} QueuedIs(ss: seq<Status>, i: nat, k: nat)
    requires FirstIs(ss, i, Queued, k)
    ensures QueuedFrom(ss, i) != [] && QueuedFrom(ss, i)[0] == k
    decreases k - i
  {
    var rest := QueuedFrom(ss, i + 1);
    if i < k {
      QueuedIs(ss, i + 1, k);
      assert QueuedFrom(ss, i) == [] + rest == rest;
    } else {
      assert QueuedFrom(ss, i) == [k] + rest;
    }
  }

  /** So does the loop over what remains after a resumed phase, at the first queued phase. */
  lemma {:induction false} RemainingStops(j: Job, k: nat, scripts: Scripts)
    requires FirstIs(j.statuses, 0, Queued, k)
    ensures var rest := QueuedFrom(j.statuses, 0);
      && (Start(j, k) == None ==> ContinueFrom(j, rest, scripts) == RunResult(j, true))
      && (Start(j, k).Some? ==>
            var r := Turn(Start(j, k).value, k, scripts(k).turn);
            && (!r.end.Returned? ==> ContinueFrom(j, rest, scripts) == RunResult(r.job, true))
            && (r.end.Returned? && r.end.word != SaysDone ==>
                  ContinueFrom(j, rest, scripts) == RunResult(r.job, false)))
  {
    QueuedIs(j.statuses, 0, k);
  }

  /** And a resume at the phase it found: a phase that is queued or parked is started, and any
      other goes on as it is. */
  lemma {:induction false} ResumeStops(j: Job, saved: Saved, scripts: Scripts)
    requires j.current < |j.statuses| && !Terminal(j.status) && saved != NothingSaved
    ensures var found := Recovered(j, saved).value;
      var k := found.current;
      && k < |found.statuses|
      && (found.statuses[k] in {Queued, WaitingApproval} && Start(found, k) == None ==>
            Resume(j, saved, scripts) == RunResult(found, true))
      && (found.statuses[k] !in {Queued, WaitingApproval} || Start(found, k).Some? ==>
            var running := if found.statuses[k] in {Queued, WaitingApproval} then Start(found, k).value else found;
            var r := Turn(running, k, scripts(k).turn);
            && (!r.end.Returned? ==> Resume(j, saved, scripts) == RunResult(r.job, true))
            && (r.end.Returned? && r.end.word != SaysDone ==> Resume(j, saved, scripts) == RunResult(r.job, false)))
  {
  }

  // ---------------------------------------------------------------- runs of a cancelled job

  /** A run over a cancelled job in which no phase is running leaves it as it is. */
  lemma {:induction false} CancelledRunsNothing(j: Job, i: nat, n: nat, scripts: Scripts)
    requires i <= n <= |j.statuses| && j.status == Cancelled && NoneFrom(j.statuses, 0, Running)
    ensures RunFrom(j, i, n, scripts).job == j
    ensures RunFrom(j, i, n, scripts).raised <==> exists k :: i <= k < n && !Terminal(j.statuses[k])
    decreases n - i
  {
    if i < n && Terminal(j.statuses[i]) {
      CancelledRunsNothing(j, i + 1, n, scripts);
    }
  }
}
