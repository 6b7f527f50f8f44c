/** What the events of a turn decide, read off the list of events
    (src/application/chat/turn_streamer.py, lines 439-480 and 623-764). */
module PhaseEvents {
  import opened Texts
  import opened Phases
  import opened PhaseTurn

  // ---------------------------------------------------------------- events that rule out completion

  predicate SaysFailure(e: Event) {
    e.ReactFailed? || e.StreamError?
  }

  predicate SaysPark(e: Event) {
    e.ReactParked? || e.ApprovalRequired?
  }

  predicate Decides(e: Event) {
    SaysFailure(e) || SaysPark(e)
  }

  predicate Clarifies(e: Event) {
    e.TurnEnds? && e.clarification
  }

  /** Event k is the last one that says failure or park. */
  predicate LastDeciding(events: seq<Event>, k: nat) {
    k < |events| && Decides(events[k]) && forall m :: k < m < |events| ==> !Decides(events[m])
  }

  predicate NoneDecides(events: seq<Event>) {
    forall e <- events :: !Decides(e)
  }

  /** The text of the last reply that is not empty. */
  ghost predicate IsReply(events: seq<Event>, reply: string) {
    if reply == "" then forall e <- events :: e.TurnEnds? ==> e.text == ""
    else exists k :: 0 <= k < |events| && events[k].TurnEnds? && events[k].text == reply
           && forall m :: k < m < |events| && events[m].TurnEnds? ==> events[m].text == ""
  }

  lemma {:induction false} DecidingOneMore(events: seq<Event>, e: Event, k: nat)
    requires LastDeciding(events, k) && !Decides(e)
    ensures LastDeciding(events + [e], k)
  {
  }

  lemma {:induction false} LastOne(events: seq<Event>, e: Event)
    ensures HearAll(events + [e]) == Hear(HearAll(events), e)
  {
    assert (events + [e])[..|events|] == events;
  }

  /** The last event that says failure or park decides, whatever else was said. */
  lemma {:induction false} LastDecidingDecides(events: seq<Event>, k: nat)
    requires LastDeciding(events, k)
    ensures HearAll(events).outcome == if SaysFailure(events[k]) then IsFailed else IsParked
  {
    var front, e := events[..|events| - 1], events[|events| - 1];
    assert events == front + [e];
    LastOne(front, e);
    if k < |front| {
      assert LastDeciding(front, k);
      LastDecidingDecides(front, k);
    }
  }

  /** Without such an event, a clarification makes it a question, and nothing else does. */
  lemma {:induction false} NoneDecidesHears(events: seq<Event>)
    requires NoneDecides(events)
    ensures HearAll(events).outcome == if exists e <- events :: Clarifies(e) then IsQuestion else OkSoFar
  {
    if events != [] {
      var front, e := events[..|events| - 1], events[|events| - 1];
      assert events == front + [e] && e in events && forall x <- front :: x in events;
      LastOne(front, e);
      NoneDecidesHears(front);
    }
  }

  lemma {:induction false} ReplyIsHeard(events: seq<Event>)
    ensures IsReply(events, HearAll(events).lastContent)
  {
    if events != [] {
      var front, e := events[..|events| - 1], events[|events| - 1];
      assert events == front + [e];
      LastOne(front, e);
      ReplyIsHeard(front);
      ReplyOneMore(front, e, HearAll(front).lastContent);
    }
  }

  lemma {:induction false} ReplyOneMore(events: seq<Event>, e: Event, reply: string)
    requires IsReply(events, reply)
    ensures IsReply(events + [e], if e.TurnEnds? && e.text != "" then e.text else reply)
  {
    var all := events + [e];
    if e.TurnEnds? && e.text != "" {
      assert all[|events|] == e;
    } else if reply != "" {
      var k :| 0 <= k < |events| && events[k].TurnEnds? && events[k].text == reply
        && forall m :: k < m < |events| && events[m].TurnEnds? ==> events[m].text == "";
      assert all[k] == events[k];
    }
  }

  // ---------------------------------------------------------------- a turn whose stream finished

  function Deciding(s: Script): Attempt {
    s.attempts(Decisive(s, 1))
  }

  /** The job when a finished turn comes to settle its phase. */
  function WhenSettling(j: Job, s: Script): (r: Job)
    ensures |r.statuses| >= |j.statuses|
  {
    Disturbed(AfterAttempts(j, s, 1, Decisive(s, 1)), s.beforeSettling)
  }

  /** The last failure or park among the events decides between failing and parking the phase;
      a finished phase is not parked. */
  lemma {:induction false} EventsDecide(j: Job, i: nat, s: Script, k: nat)
    requires i < |j.statuses| && Deciding(s).ending == Finished && LastDeciding(Deciding(s).events, k)
    ensures var r, now := Turn(j, i, s), WhenSettling(j, s);
      if SaysFailure(Deciding(s).events[k]) then
        r.end == Returned(SaysFailed) && r.job.statuses[i] == Failed && r.job.status == Failed
      else if Terminal(now.statuses[i]) then r.end == RaisedRefused && r.job == now
      else r.end == Returned(SaysParked) && r.job.statuses[i] == WaitingApproval && r.job.status == WaitingApproval
  {
    LastDecidingDecides(Deciding(s).events, k);
  }

  /** A clarification without such an event asks the operator. */
  lemma {:induction false} ClarificationAsks(j: Job, i: nat, s: Script)
    requires i < |j.statuses| && Deciding(s).ending == Finished && NoneDecides(Deciding(s).events)
    requires exists e <- Deciding(s).events :: Clarifies(e)
    ensures var r, now := Turn(j, i, s), WhenSettling(j, s);
      if Terminal(now.statuses[i]) then r.end == RaisedRefused && r.job == now
      else r.end == Returned(SaysQuestion) && r.job.statuses[i] == Queued && r.job.status == Running
  {
    NoneDecidesHears(Deciding(s).events);
  }

  /** The reply of a turn is a plain question that waits for an answer. */
  predicate PlainQuestion(s: Script, reply: string) {
    s.endsWithQuestion(reply) && s.needsAnswer(reply)
  }

  predicate PassesCheck(s: Script, reply: string) {
    s.selfVerify && s.checker.Some? ==> s.checker.value(reply)
  }

  /** A question comes from a clarification, or from the reply of a turn in which nothing says
      failure or park. */
  lemma {:induction false} QuestionMeans(j: Job, i: nat, s: Script)
    requires i < |j.statuses| && Turn(j, i, s).end == Returned(SaysQuestion)
    ensures Deciding(s).ending == Finished && NoneDecides(Deciding(s).events)
    ensures || (exists e <- Deciding(s).events :: Clarifies(e))
            || (exists reply :: IsReply(Deciding(s).events, reply) && PlainQuestion(s, reply))
  {
    FinishedIfSettled(j, i, s);
    WhatDecides(Deciding(s).events);
    ReplyIsHeard(Deciding(s).events);
  }

  /** Either nothing says failure or park, or there is a last event that does, and then it is
      heard. */
  lemma {:induction false} WhatDecides(events: seq<Event>)
    ensures NoneDecides(events) || HearAll(events).outcome in {IsFailed, IsParked}
    ensures NoneDecides(events) && HearAll(events).outcome == IsQuestion ==> exists e <- events :: Clarifies(e)
    ensures NoneDecides(events) && HearAll(events).outcome != IsQuestion ==> forall e <- events :: !Clarifies(e)
  {
    if NoneDecides(events) {
      NoneDecidesHears(events);
    } else {
      var k := LastDecidingOf(events, |events|);
      LastDecidingDecides(events, k);
    }
  }

  lemma {:induction false} LastDecidingOf(events: seq<Event>, n: nat) returns (k: nat)
    requires n <= |events| && !NoneDecides(events[..n])
    requires forall m :: n <= m < |events| ==> !Decides(events[m])
    ensures LastDeciding(events, k)
  {
    if Decides(events[n - 1]) {
      k := n - 1;
    } else {
      assert events[..n] == events[..n - 1] + [events[n - 1]];
      k := LastDecidingOf(events, n - 1);
    }
  }

  lemma {:induction false} FinishedIfSettled(j: Job, i: nat, s: Script)
    requires i < |j.statuses| && Turn(j, i, s).end.Returned? && Turn(j, i, s).end.word != SaysFailed
    ensures Deciding(s).ending == Finished
  {
  }

  /** A phase gets done only in an attempt that finished, in which nothing says failure or park,
      nothing asks for clarification, the reply is no question that waits for an answer, and
      the checker, if there is one, passes the reply. */
  lemma {:induction false} DoneMeans(j: Job, i: nat, s: Script)
    requires i < |j.statuses| && Turn(j, i, s).end == Returned(SaysDone)
    ensures Deciding(s).ending == Finished
    ensures forall e <- Deciding(s).events :: !Decides(e) && !Clarifies(e)
    ensures exists reply :: IsReply(Deciding(s).events, reply) && !PlainQuestion(s, reply) && PassesCheck(s, reply)
  {
    var events := Deciding(s).events;
    FinishedIfSettled(j, i, s);
    WhatDecides(events);
    ReplyIsHeard(events);
    assert IsReply(events, HearAll(events).lastContent);
  }

  /** And that is enough: such a turn completes a running phase. */
  lemma {:induction false} DoneWhen(j: Job, i: nat, s: Script, reply: string)
    requires i < |j.statuses| && Deciding(s).ending == Finished && s.late == NothingLate
    requires forall e <- Deciding(s).events :: !Decides(e) && !Clarifies(e)
    requires IsReply(Deciding(s).events, reply) && !PlainQuestion(s, reply)
    requires PassesCheck(s, reply)
    requires WhenSettling(j, s).statuses[i] == Running
    ensures var r := Turn(j, i, s);
      r.end == Returned(SaysDone) && r.job.statuses == WhenSettling(j, s).statuses[i := Done]
  {
    var events := Deciding(s).events;
    assert !exists e <- events :: Clarifies(e);
    NoneDecidesHears(events);
    ReplyIsHeard(events);
    ReplyIsUnique(events, reply, HearAll(events).lastContent);
  }

  lemma {:induction false} ReplyIsUnique(events: seq<Event>, a: string, b: string)
    requires IsReply(events, a) && IsReply(events, b)
    ensures a == b
  {
  }

  /** A reply that the checker does not pass is planned anew three times at most, then parked. */
  lemma {:induction false} FailedCheckReplans(j: Job, i: nat, s: Script, reply: string)
    requires i < |j.statuses| && Deciding(s).ending == Finished && s.late == NothingLate
    requires forall e <- Deciding(s).events :: !Decides(e) && !Clarifies(e)
    requires IsReply(Deciding(s).events, reply) && !PlainQuestion(s, reply)
    requires !PassesCheck(s, reply)
    requires WhenSettling(j, s).statuses[i] == Running && WhenSettling(j, s).status == Running
    ensures Turn(j, i, s).end == Returned(if s.replans < 3 then SaysReplan else SaysParked)
  {
    var events := Deciding(s).events;
    assert !exists e <- events :: Clarifies(e);
    NoneDecidesHears(events);
    ReplyIsHeard(events);
    ReplyIsUnique(events, reply, HearAll(events).lastContent);
  }

  /** A stream that breaks, or stalls or times out in its last attempt, fails the phase. */
  lemma {:induction false} UnfinishedFails(j: Job, i: nat, s: Script)
    requires i < |j.statuses| && Deciding(s).ending in {TimedOut, Stalled, Broke}
    ensures var r := Turn(j, i, s);
      r.end == Returned(SaysFailed) && r.job.statuses[i] == Failed && r.job.status == Failed
  {
  }

  /** The deciding attempt is the first that neither timed out nor stalled, or the last that the
      retries allow. */
  lemma {:induction false} DecidingIs(s: Script, d: nat)
    requires 1 <= d && (s.retries >= 0 ==> d <= 1 + s.retries) && (s.retries < 0 ==> d == 1)
    requires forall k :: 1 <= k < d ==> s.attempts(k).ending in {TimedOut, Stalled}
    requires s.attempts(d).ending !in {TimedOut, Stalled} || d == (if s.retries < 0 then 1 else 1 + s.retries)
    ensures Deciding(s) == s.attempts(d)
  {
    DecisiveFrom(s, 1, d);
  }

  lemma {:induction false} DecisiveFrom(s: Script, k: nat, d: nat)
    requires 1 <= k <= d <= AttemptLimit(s)
    requires forall x :: 1 <= x < d ==> s.attempts(x).ending in {TimedOut, Stalled}
    requires s.attempts(d).ending !in {TimedOut, Stalled} || d == AttemptLimit(s)
    ensures Decisive(s, k) == d
    decreases d - k
  {
    if k < d {
      DecisiveFrom(s, k + 1, d);
    }
  }
}
