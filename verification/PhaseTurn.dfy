/** One phase's turn: a bounded retry loop over the model stream, then exactly one settling
    transition (src/application/chat/turn_streamer.py, lines 330-359 and 430-764).

    The stream of each attempt is a list of events with a way of ending; what other runs of
    the same job do meanwhile is a function applied to the job. */
module PhaseTurn {
  import opened Texts
  import opened Phases

  datatype Event =
    | ReactParked
    | ReactFailed
    | ApprovalRequired
    | StreamError(text: string)
    | TurnEnds(text: string, clarification: bool)
    | OtherEvent

  datatype Ending = Finished | TimedOut | Stalled | Broke | Killed

  datatype Attempt = Attempt(events: seq<Event>, ending: Ending, meanwhile: Job -> Job)

  /** What goes wrong after the stream, at one of the two awaits left: a cancellation there, or
      a checker that raises.  The question test catches its own errors. */
  datatype Late = NothingLate | KilledInTest | KilledInGate | CheckerRaises

  /** Everything a turn does not decide itself.  `checker` is None without a named checker or
      without an engine to run it. */
  datatype Script = Script(
    attempts: nat -> Attempt, retries: int, endsWithQuestion: string -> bool, needsAnswer: string -> bool,
    selfVerify: bool, checker: Option<string -> bool>, replans: nat, staleToken: bool, late: Late,
    beforeSettling: Job -> Job)

  datatype Word = SaysDone | SaysQuestion | SaysParked | SaysFailed | SaysReplan

  datatype TurnEnd = Returned(word: Word) | RaisedCancelled | RaisedRefused | RaisedError

  // ---------------------------------------------------------------- listening to one attempt

  datatype Outcome = OkSoFar | IsParked | IsFailed | IsQuestion

  datatype Heard = Heard(outcome: Outcome, lastContent: string, errorText: string)

  const NOTHING_HEARD: Heard := Heard(OkSoFar, "", "")

  function Hear(h: Heard, e: Event): Heard {
    match e
    case ReactParked => h.(outcome := IsParked)
    case ReactFailed => h.(outcome := IsFailed)
    case ApprovalRequired => h.(outcome := IsParked)
    case StreamError(text) => h.(outcome := IsFailed, errorText := if text == "" then "stream error" else text)
    case TurnEnds(text, clarification) =>
      h.(lastContent := if text == "" then h.lastContent else text,
         outcome := if clarification && h.outcome == OkSoFar then IsQuestion else h.outcome)
    case OtherEvent => h
  }

  function HearAll(events: seq<Event>): Heard {
    if events == [] then NOTHING_HEARD else Hear(HearAll(events[..|events| - 1]), events[|events| - 1])
  }

  method ConsumeStream(events: seq<Event>) returns (h: Heard)
    ensures h == HearAll(events)
  {
    h := NOTHING_HEARD;
    for k := 0 to |events|
      invariant h == HearAll(events[..k])
    {
      assert events[..k + 1][..k] == events[..k];
      h := Hear(h, events[k]);
    }
    assert events[..|events|] == events;
  }

  // ---------------------------------------------------------------- what a turn should do

  function AttemptLimit(s: Script): nat {
    1 + if s.retries < 0 then 0 else s.retries
  }

  predicate Retried(e: Ending) {
    e == TimedOut || e == Stalled
  }

  /** The attempt that decides, from attempt k on: the first that is not retried. */
  function Decisive(s: Script, k: nat): (d: nat)
    requires 1 <= k <= AttemptLimit(s)
    ensures k <= d <= AttemptLimit(s)
    ensures forall x :: k <= x < d ==> Retried(s.attempts(x).ending)
    ensures d < AttemptLimit(s) ==> !Retried(s.attempts(d).ending)
    decreases AttemptLimit(s) - k
  {
    if k == AttemptLimit(s) || !Retried(s.attempts(k).ending) then k else Decisive(s, k + 1)
  }

  /** Other runs may change statuses but do not remove phases. */
  function Disturbed(j: Job, meanwhile: Job -> Job): (r: Job)
    ensures |r.statuses| >= |j.statuses|
  {
    var after := meanwhile(j);
    if |after.statuses| >= |j.statuses| then after.(intakeReady := j.intakeReady) else j
  }

  /** The job after the attempts k..d have run. */
  function AfterAttempts(j: Job, s: Script, k: nat, d: nat): (r: Job)
    ensures |r.statuses| >= |j.statuses|
    decreases d + 1 - k
  {
    if k > d then j else AfterAttempts(Disturbed(j, s.attempts(k).meanwhile), s, k + 1, d)
  }

  datatype Settled = Settled(job: Job, end: TurnEnd, log: seq<Settlement>)

  function Settling(j: Job, next: Option<Job>, word: Word, how: Settlement): Settled {
    match next
    case None => Settled(j, RaisedRefused, [])
    case Some(after) => Settled(after, Returned(word), [how])
  }

  function CompleteOrFail(j: Job, i: nat): Settled
    requires i < |j.statuses|
  {
    match Complete(j, i)
    case Some(after) => Settled(after, Returned(SaysDone), if j.statuses[i] == Running then [Completes] else [])
    case None => Settled(Fail(j, i), Returned(SaysFailed), [Fails])
  }

  predicate GateRuns(s: Script) {
    s.selfVerify && s.checker.Some?
  }

  /** The verify gate blocks completion: a named checker ran and did not pass. */
  predicate GateBlocks(s: Script, content: string) {
    GateRuns(s) && !s.checker.value(content)
  }

  /** The model is asked whether a reply that ends with a question waits for an answer. */
  predicate QuestionTested(s: Script, h: Heard) {
    h.outcome == OkSoFar && s.endsWithQuestion(h.lastContent)
  }

  function FinalOutcome(s: Script, h: Heard): Outcome {
    if QuestionTested(s, h) && s.needsAnswer(h.lastContent) then IsQuestion else h.outcome
  }

  /** The verify gate and what follows it.  A cancellation in the gate makes no transition,
      and neither does a checker that raises. */
  function AfterGate(now: Job, i: nat, s: Script, content: string): Settled
    requires i < |now.statuses|
  {
    if GateRuns(s) && s.late == KilledInGate then Settled(now, RaisedCancelled, [])
    else if GateRuns(s) && s.late == CheckerRaises then Settled(now, RaisedError, [])
    else if !GateBlocks(s, content) then CompleteOrFail(now, i)
    else if s.replans < MAX_REPLANS then Settling(now, Replan(now), SaysReplan, Replans)
    else Settling(now, Park(now, i), SaysParked, Parks)
  }

  function SettleAs(now: Job, i: nat, s: Script, outcome: Outcome, content: string): Settled
    requires i < |now.statuses|
  {
    match outcome
    case IsQuestion => Settling(now, WaitForAnswer(now, i), SaysQuestion, Waits)
    case IsParked => Settling(now, Park(now, i), SaysParked, Parks)
    case IsFailed => Settled(Fail(now, i), Returned(SaysFailed), [Fails])
    case OkSoFar => AfterGate(now, i, s, content)
  }

  /** A cancellation in the question test makes no transition either. */
  function Settle(j: Job, i: nat, s: Script, h: Heard): Settled
    requires i < |j.statuses|
  {
    var now := Disturbed(j, s.beforeSettling);
    if QuestionTested(s, h) && s.late == KilledInTest then Settled(now, RaisedCancelled, [])
    else SettleAs(now, i, s, FinalOutcome(s, h), h.lastContent)
  }

  /** What an attempt that did not finish leads to when it is not tried again. */
  function Stopped(j: Job, i: nat, s: Script, ending: Ending): Settled
    requires i < |j.statuses|
  {
    if ending == Killed then Settled(Checkpoint(j, i, s.staleToken), RaisedCancelled, [])
    else Settled(Fail(j, i), Returned(SaysFailed), [Fails])
  }

  /** What the deciding attempt a leads to. */
  function Conclude(j: Job, i: nat, s: Script, a: Attempt): Settled
    requires i < |j.statuses|
  {
    if a.ending == Finished then Settle(j, i, s, HearAll(a.events)) else Stopped(j, i, s, a.ending)
  }

  function Turn(j: Job, i: nat, s: Script): Settled
    requires i < |j.statuses|
  {
    var d := Decisive(s, 1);
    Conclude(AfterAttempts(j, s, 1, d), i, s, s.attempts(d))
  }

  // ---------------------------------------------------------------- the turn as the source makes it

  /** Complete the phase; if that is refused, fail it honestly. */
  method CompletePhaseOrFail(orch: Orchestrator, i: nat) returns (completed: bool)
    requires i < |orch.statuses|
    modifies orch
    ensures var r := CompleteOrFail(old(orch.Now()), i);
      && orch.Now() == r.job && orch.settled == old(orch.settled) + r.log
      && r.end == Returned(if completed then SaysDone else SaysFailed)
  {
    completed := orch.CompletePhase(i);
    if !completed {
      orch.FailPhase(i);
    }
  }

  method PassGate(orch: Orchestrator, i: nat, s: Script, content: string) returns (end: TurnEnd)
    requires i < |orch.statuses|
    modifies orch
    ensures var r := AfterGate(old(orch.Now()), i, s, content);
      orch.Now() == r.job && end == r.end && orch.settled == old(orch.settled) + r.log
  {
    if GateRuns(s) && s.late == KilledInGate {
      return RaisedCancelled;
    }
    if GateRuns(s) && s.late == CheckerRaises {
      return RaisedError;
    }
    var ok;
    if GateBlocks(s, content) {
      if s.replans < MAX_REPLANS {
        ok := orch.ReplanJob();
        return if ok then Returned(SaysReplan) else RaisedRefused;
      }
      ok := orch.ParkPhase(i);
      return if ok then Returned(SaysParked) else RaisedRefused;
    }
    var completed := CompletePhaseOrFail(orch, i);
    return Returned(if completed then SaysDone else SaysFailed);
  }

  method SettlePhase(orch: Orchestrator, i: nat, s: Script, h: Heard) returns (end: TurnEnd)
    requires i < |orch.statuses|
    modifies orch
    ensures var r := Settle(old(orch.Now()), i, s, h);
      orch.Now() == r.job && end == r.end && orch.settled == old(orch.settled) + r.log
  {
    orch.Interfere(Disturbed(orch.Now(), s.beforeSettling));
    var outcome := h.outcome;
    if outcome == OkSoFar && s.endsWithQuestion(h.lastContent) {
      if s.late == KilledInTest {
        return RaisedCancelled;
      }
      if s.needsAnswer(h.lastContent) {
        outcome := IsQuestion;
      }
    }
    var ok;
    if outcome == IsQuestion {
      ok := orch.WaitPhase(i);
      return if ok then Returned(SaysQuestion) else RaisedRefused;
    }
    if outcome == IsParked {
      ok := orch.ParkPhase(i);
      return if ok then Returned(SaysParked) else RaisedRefused;
    }
    if outcome == IsFailed {
      orch.FailPhase(i);
      return Returned(SaysFailed);
    }
    end := PassGate(orch, i, s, h.lastContent);
  }

  /** Handling an attempt that did not finish: checkpoint on a kill, failure otherwise. */
  method StopPhase(orch: Orchestrator, i: nat, s: Script, ending: Ending) returns (end: TurnEnd)
    requires i < |orch.statuses|
    modifies orch
    ensures var r := Stopped(old(orch.Now()), i, s, ending);
      orch.Now() == r.job && end == r.end && orch.settled == old(orch.settled) + r.log
  {
    if ending == Killed {
      orch.CheckpointKill(i, s.staleToken);
      return RaisedCancelled;
    }
    orch.FailPhase(i);
    return Returned(SaysFailed);
  }

  /** The retry loop.  Falling out of it without a finished stream cannot happen. */
  method StreamAttempts(orch: Orchestrator, i: nat, s: Script) returns (used: nat, heard: Heard)
    requires i < |orch.statuses|
    modifies orch
    ensures used == Decisive(s, 1) && |orch.statuses| >= |old(orch.statuses)|
    ensures orch.Now() == AfterAttempts(old(orch.Now()), s, 1, used) && orch.settled == old(orch.settled)
    ensures heard == HearAll(s.attempts(used).events)
  {
    var attempts := 1 + if s.retries < 0 then 0 else s.retries;
    ghost var start, d := orch.Now(), Decisive(s, 1);
    used := 1;
    var decided := false;
    while used <= attempts
      invariant 1 <= used <= d && attempts == AttemptLimit(s) && !decided
      invariant orch.settled == old(orch.settled) && |orch.statuses| >= |start.statuses|
      invariant AfterAttempts(orch.Now(), s, used, d) == AfterAttempts(start, s, 1, d)
      decreases attempts - used
    {
      var attempt := s.attempts(used);
      orch.Interfere(Disturbed(orch.Now(), attempt.meanwhile));
      heard := ConsumeStream(attempt.events);
      if Retried(attempt.ending) && used < attempts {
        used := used + 1;
        continue;
      }
      decided := true;
      break;
    }
    if !decided {
      assert false;
    }
  }

  /** A whole turn: the attempts, then one way of settling. */
  method StreamTurnBound(orch: Orchestrator, i: nat, s: Script) returns (end: TurnEnd, used: nat)
    requires i < |orch.statuses|
    modifies orch
    ensures var r := Turn(old(orch.Now()), i, s);
      orch.Now() == r.job && end == r.end && orch.settled == old(orch.settled) + r.log
    ensures orch.settled == old(orch.settled) + OneSettlement(end, FoundDone(old(orch.Now()), i, s))
    ensures used == Decisive(s, 1) <= AttemptLimit(s)
  {
    TurnSettlesOnce(orch.Now(), i, s);
    var heard;
    used, heard := StreamAttempts(orch, i, s);
    var ending := s.attempts(used).ending;
    if ending == Finished {
      end := SettlePhase(orch, i, s, heard);
    } else {
      end := StopPhase(orch, i, s, ending);
    }
  }

  // ---------------------------------------------------------------- every turn settles once

  function SettlementOf(w: Word): Settlement {
    match w
    case SaysDone => Completes
    case SaysQuestion => Waits
    case SaysParked => Parks
    case SaysFailed => Fails
    case SaysReplan => Replans
  }

  /** The one transition that the returned word names; none when the turn raised, or when it
      says done of a phase that it found done. */
  function OneSettlement(end: TurnEnd, foundDone: bool): seq<Settlement> {
    if end.Returned? && !(end.word == SaysDone && foundDone) then [SettlementOf(end.word)] else []
  }

  /** Another run had already finished the phase when this turn came to settle it. */
  predicate FoundDone(j: Job, i: nat, s: Script)
    requires i < |j.statuses|
  {
    Disturbed(AfterAttempts(j, s, 1, Decisive(s, 1)), s.beforeSettling).statuses[i] == Done
  }

  /** A turn that returns has made exactly one successful settling transition, the one its
      word names, unless it says done of a phase that another run had finished; then, and
      when it raises, it has made none.  It used at most 1 + retries attempts. */
  lemma {:induction false} TurnSettlesOnce(j: Job, i: nat, s: Script)
    requires i < |j.statuses|
    ensures var r := Turn(j, i, s);
      && r.log == OneSettlement(r.end, FoundDone(j, i, s))
      && Decisive(s, 1) <= 1 + (if s.retries < 0 then 0 else s.retries)
  {
  }

  /** The status the word promises. */
  predicate StatusFits(j: Job, i: nat, w: Word)
    requires i < |j.statuses|
  {
    match w
    case SaysDone => j.statuses[i] == Done
    case SaysQuestion => j.statuses[i] == Queued && j.status == Running && j.current == i
    case SaysParked => j.statuses[i] == WaitingApproval && j.status == WaitingApproval && j.current == i
    case SaysFailed => j.statuses[i] == Failed && j.status == Failed && j.current == i
    case SaysReplan =>
      Terminal(j.statuses[i]) && j.current < |j.statuses| && j.statuses[j.current] == Queued && !Terminal(j.status)
  }

  predicate Fits(j: Job, i: nat, r: Settled)
    requires i < |j.statuses|
  {
    |r.job.statuses| >= |j.statuses| && (r.end.Returned? ==> StatusFits(r.job, i, r.end.word))
  }

  lemma {:induction false} TransitionsFit(j: Job, i: nat)
    requires i < |j.statuses|
    ensures Fits(j, i, Settling(j, WaitForAnswer(j, i), SaysQuestion, Waits))
    ensures Fits(j, i, Settling(j, Park(j, i), SaysParked, Parks))
    ensures Fits(j, i, CompleteOrFail(j, i))
    ensures Fits(j, i, Settled(Fail(j, i), Returned(SaysFailed), [Fails]))
  {
  }

  lemma {:induction false} ReplanFits(j: Job, i: nat)
    requires i < |j.statuses|
    ensures Fits(j, i, Settling(j, Replan(j), SaysReplan, Replans))
  {
  }

  lemma {:induction false} GateFits(now: Job, i: nat, s: Script, content: string)
    requires i < |now.statuses|
    ensures Fits(now, i, AfterGate(now, i, s, content))
  {
    TransitionsFit(now, i);
    ReplanFits(now, i);
  }

  lemma {:induction false} SettleFits(j: Job, i: nat, s: Script, h: Heard)
    requires i < |j.statuses|
    ensures Fits(j, i, Settle(j, i, s, h))
  {
    SettleAsFits(Disturbed(j, s.beforeSettling), i, s, FinalOutcome(s, h), h.lastContent);
  }

  lemma {:induction false} SettleAsFits(now: Job, i: nat, s: Script, outcome: Outcome, content: string)
    requires i < |now.statuses|
    ensures Fits(now, i, SettleAs(now, i, s, outcome, content))
  {
    TransitionsFit(now, i);
    GateFits(now, i, s, content);
  }

  lemma {:induction false} ConcludedFits(j: Job, i: nat, s: Script, a: Attempt)
    requires i < |j.statuses|
    ensures Fits(j, i, Conclude(j, i, s, a))
  {
    SettleFits(j, i, s, HearAll(a.events));
    TransitionsFit(j, i);
  }

  /** When the turn returns, the phase has the status its word names. */
  lemma {:induction false} WordMatchesStatus(j: Job, i: nat, s: Script)
    requires i < |j.statuses|
    ensures Fits(j, i, Turn(j, i, s))
  {
    var d := Decisive(s, 1);
    ConcludedFits(AfterAttempts(j, s, 1, d), i, s, s.attempts(d));
  }

  /** Two scripts that differ only in what abandoned attempts said. */
  ghost predicate SameButAbandoned(s: Script, t: Script) {
    && t.(attempts := s.attempts) == s
    && forall k :: s.attempts(k).ending == t.attempts(k).ending && s.attempts(k).meanwhile == t.attempts(k).meanwhile
         && (k == Decisive(s, 1) ==> s.attempts(k).events == t.attempts(k).events)
  }

  lemma {:induction false} SameDecisive(s: Script, t: Script, k: nat)
    requires SameButAbandoned(s, t) && 1 <= k <= AttemptLimit(s)
    ensures Decisive(s, k) == Decisive(t, k)
    decreases AttemptLimit(s) - k
  {
    assert s.attempts(k).ending == t.attempts(k).ending;
    if k < AttemptLimit(s) && Retried(s.attempts(k).ending) {
      SameDecisive(s, t, k + 1);
    }
  }

  lemma {:induction false} SameAfterAttempts(j: Job, s: Script, t: Script, k: nat, d: nat)
    requires SameButAbandoned(s, t)
    ensures AfterAttempts(j, s, k, d) == AfterAttempts(j, t, k, d)
    decreases d + 1 - k
  {
    if k <= d {
      assert s.attempts(k).meanwhile == t.attempts(k).meanwhile;
      SameAfterAttempts(Disturbed(j, s.attempts(k).meanwhile), s, t, k + 1, d);
    }
  }

  /** No outcome leaks from an abandoned attempt. */
  lemma {:induction false} AbandonedAttemptsDoNotMatter(j: Job, i: nat, s: Script, t: Script)
    requires i < |j.statuses| && SameButAbandoned(s, t)
    ensures Turn(j, i, s) == Turn(j, i, t)
  {
    var d := Decisive(s, 1);
    SameDecisive(s, t, 1);
    SameAfterAttempts(j, s, t, 1, d);
    assert s.attempts(d) == t.attempts(d);
  }

  /** Cancellation never fails the phase: during the stream at most it goes from running back
      to queued, and after the stream nothing is done to the job at all, nor is anything when
      the checker raises. */
  lemma {:induction false} KillNeverFails(j: Job, i: nat, s: Script)
    requires i < |j.statuses| && Turn(j, i, s).end in {RaisedCancelled, RaisedError}
    ensures var before := AfterAttempts(j, s, 1, Decisive(s, 1));
      var after := Turn(j, i, s).job;
      || (after == before && Turn(j, i, s).end == RaisedCancelled)
      || after == Disturbed(before, s.beforeSettling)
      || (before.statuses[i] == Running && after.statuses == before.statuses[i := Queued]
          && (Terminal(before.status) ==> after.status == before.status)
          && Turn(j, i, s).end == RaisedCancelled)
  {
  }
}
