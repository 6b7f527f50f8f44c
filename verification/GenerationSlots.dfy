/** The cancellable first-come-first-served slot limiter for model calls, whose cap may
    change while calls run and wait (src/application/gateway/generation_semaphore.py).

    Every method body between two awaits is one atomic step of the event loop.  A task that
    entered `async with` is in one of five stages; its future is done unless the stage is
    Waiting.  `Slots` is the state, `Next` the step relation, and the class at the end is
    the object itself, each method proved to take the step named in its contract. */
module GenerationSlots {

  type TaskId = nat

  datatype Stage =
    | Holding          // inside the `async with` block
    | Waiting          // future pending
    | WaitCancelled    // cancelled while pending; CancelledError not delivered yet
    | Granted          // future has its result; the task has not run again yet
    | GrantCancelled   // cancelled in that window

  datatype Slots = Slots(
    max: int, inUse: int, waiters: seq<TaskId>, stage: map<TaskId, Stage>, loopKnown: bool, deferred: nat)

  datatype Event =
    | Acquire(t: TaskId)
    | Cancel(t: TaskId)
    | Resume(t: TaskId)
    | Leave(t: TaskId)
    | SetCap(cap: int, onLoop: bool)
    | RunDeferred

  const MIN_CAP := 1
  const MAX_CAP := 3

  predicate CapAllowed(cap: int) {
    MIN_CAP <= cap <= MAX_CAP
  }

  // ---------------------------------------------------------------- the steps

  predicate IsLive(stage: map<TaskId, Stage>, t: TaskId) {
    t in stage && stage[t] == Waiting
  }

  /** The waiters whose future is still pending, in queue order. */
  function Live(waiters: seq<TaskId>, stage: map<TaskId, Stage>): seq<TaskId> {
    if waiters == [] then []
    else (if IsLive(stage, waiters[0]) then [waiters[0]] else []) + Live(waiters[1..], stage)
  }

  function LiveOf(s: Slots): seq<TaskId> {
    Live(s.waiters, s.stage)
  }

  function Wake(s: Slots): Slots
    decreases |s.waiters|
  {
    if s.waiters == [] || s.inUse >= s.max then s
    else
      var t, rest := s.waiters[0], s.(waiters := s.waiters[1..]);
      if !IsLive(s.stage, t) then Wake(rest)
      else Wake(rest.(inUse := s.inUse + 1, stage := s.stage[t := Granted]))
  }

  function Release(s: Slots): Slots {
    Wake(s.(inUse := if s.inUse - 1 < 0 then 0 else s.inUse - 1))
  }

  function Gone(s: Slots, t: TaskId): Slots {
    s.(stage := s.stage - {t})
  }

  function RemoveFirst(waiters: seq<TaskId>, t: TaskId): seq<TaskId> {
    if waiters == [] then []
    else if waiters[0] == t then waiters[1..]
    else [waiters[0]] + RemoveFirst(waiters[1..], t)
  }

  /** A slot is free and nobody waits for it. */
  predicate FastPath(s: Slots) {
    s.inUse < s.max && LiveOf(s) == []
  }

  /** t goes to the end of the queue, and the object has seen its event loop. */
  function Joined(s: Slots, t: TaskId): Slots {
    s.(waiters := s.waiters + [t], stage := s.stage[t := Waiting], loopKnown := true)
  }

  predicate Enabled(s: Slots, e: Event) {
    match e
    case Acquire(t) => t !in s.stage
    case Cancel(t) => t in s.stage && s.stage[t] in {Waiting, Granted}
    case Resume(t) => t in s.stage && s.stage[t] in {WaitCancelled, Granted, GrantCancelled}
    case Leave(t) => t in s.stage && s.stage[t] == Holding
    case SetCap(_, _) => true
    case RunDeferred => s.deferred > 0
  }

  function Next(s: Slots, e: Event): Slots
    requires Enabled(s, e)
  {
    match e
    case Acquire(t) =>
      if FastPath(s) then s.(inUse := s.inUse + 1, stage := s.stage[t := Holding]) else Joined(s, t)
    case Cancel(t) =>
      s.(stage := s.stage[t := if s.stage[t] == Waiting then WaitCancelled else GrantCancelled])
    case Resume(t) =>
      (match s.stage[t]
       case Granted => s.(stage := s.stage[t := Holding])
       case GrantCancelled => Release(Gone(s, t))
       case _ => Gone(s, t).(waiters := RemoveFirst(s.waiters, t)))
    case Leave(t) => Release(Gone(s, t))
    case SetCap(cap, onLoop) =>
      if !CapAllowed(cap) then s
      else if !s.loopKnown then s.(max := cap)
      else if onLoop then Wake(s.(max := cap))
      else s.(max := cap, deferred := s.deferred + 1)
    case RunDeferred => Wake(s.(deferred := s.deferred - 1))
  }

  // ---------------------------------------------------------------- the invariant

  predicate Occupies(stage: Stage) {
    stage in {Holding, Granted, GrantCancelled}
  }

  /** The running holders and the granted waiters that have not resumed. */
  function Occupying(stage: map<TaskId, Stage>): set<TaskId> {
    set t | t in stage && Occupies(stage[t])
  }

  predicate Distinct(ts: seq<TaskId>) {
    forall i, j :: 0 <= i < j < |ts| ==> ts[i] != ts[j]
  }

  /** The queue holds each waiting task once, and nobody who waits is missing from it. */
  predicate QueueOk(s: Slots) {
    && Distinct(s.waiters)
    && (forall t <- s.waiters :: t in s.stage && s.stage[t] in {Waiting, WaitCancelled})
    && (forall t <- s.stage :: s.stage[t] == Waiting ==> t in s.waiters)
  }

  predicate Accounted(s: Slots) {
    s.inUse == |Occupying(s.stage)|
  }

  /** A live waiter implies that all slots are in use or a deferred wake is on its way. */
  predicate NoLostWakeUp(s: Slots) {
    LiveOf(s) != [] ==> s.inUse >= s.max || s.deferred > 0
  }

  /** What holds whatever other threads do to the cap. */
  predicate Sound(s: Slots) {
    && CapAllowed(s.max)
    && QueueOk(s) && Accounted(s)
    && (s.waiters != [] ==> s.loopKnown)
  }

  predicate Inv(s: Slots) {
    Sound(s) && NoLostWakeUp(s)
  }

  function Initial(cap: int): Slots {
    Slots(cap, 0, [], map[], false, 0)
  }

  // ---------------------------------------------------------------- the queue under small changes

  lemma {:induction false} LiveMembers(ws: seq<TaskId>, stage: map<TaskId, Stage>, t: TaskId)
    ensures t in Live(ws, stage) <==> t in ws && IsLive(stage, t)
  {
    if ws != [] {
      LiveMembers(ws[1..], stage, t);
      assert t in ws <==> t == ws[0] || t in ws[1..];
    }
  }

  lemma {:induction false} LiveDistinct(ws: seq<TaskId>, stage: map<TaskId, Stage>)
    requires Distinct(ws)
    ensures Distinct(Live(ws, stage))
  {
    if ws != [] {
      assert Distinct(ws[1..]);
      LiveDistinct(ws[1..], stage);
      LiveMembers(ws[1..], stage, ws[0]);
    }
  }

  lemma {:induction false} LiveSame(ws: seq<TaskId>, a: map<TaskId, Stage>, b: map<TaskId, Stage>)
    requires forall t <- ws :: IsLive(a, t) == IsLive(b, t)
    ensures Live(ws, a) == Live(ws, b)
  {
    if ws != [] {
      LiveSame(ws[1..], a, b);
      assert ws[0] in ws;
    }
  }

  lemma {:induction false} LiveAppend(ws: seq<TaskId>, t: TaskId, stage: map<TaskId, Stage>)
    ensures Live(ws + [t], stage) == Live(ws, stage) + if IsLive(stage, t) then [t] else []
  {
    if ws == [] {
      assert ws + [t] == [t] && [t][1..] == [];
    } else {
      assert (ws + [t])[1..] == ws[1..] + [t];
      LiveAppend(ws[1..], t, stage);
    }
  }

  /** Removing one task, or its no longer being live, takes it out of the live queue. */
  lemma {:induction false} LiveWithout(ws: seq<TaskId>, t: TaskId, a: map<TaskId, Stage>, b: map<TaskId, Stage>)
    requires Distinct(ws) && !IsLive(b, t)
    requires forall u <- ws :: u != t ==> IsLive(a, u) == IsLive(b, u)
    ensures Live(ws, b) == RemoveFirst(Live(ws, a), t)
    ensures Live(RemoveFirst(ws, t), b) == Live(ws, b)
  {
    if ws != [] {
      assert Distinct(ws[1..]);
      if ws[0] == t {
        assert forall u <- ws[1..] :: u != t;
        LiveSame(ws[1..], a, b);
        LiveMembers(ws[1..], a, t);
        RemoveAbsent(Live(ws[1..], a), t);
        assert ([t] + Live(ws[1..], a))[1..] == Live(ws[1..], a) == [] + Live(ws[1..], a);
      } else {
        LiveWithout(ws[1..], t, a, b);
        assert ws[0] in ws;
        assert RemoveFirst(ws, t)[1..] == RemoveFirst(ws[1..], t);
        var head := if IsLive(a, ws[0]) then [ws[0]] else [];
        assert Live(ws, a) == head + Live(ws[1..], a);
        assert Live(ws, b) == head + Live(ws[1..], b);
        assert (head + Live(ws[1..], a))[|head|..] == Live(ws[1..], a);
      }
    }
  }

  lemma {:induction false} RemoveAbsent(ws: seq<TaskId>, t: TaskId)
    requires t !in ws
    ensures RemoveFirst(ws, t) == ws
  {
    if ws != [] {
      RemoveAbsent(ws[1..], t);
    }
  }

  lemma {:induction false} RemoveMembers(ws: seq<TaskId>, t: TaskId)
    requires Distinct(ws)
    ensures Distinct(RemoveFirst(ws, t))
    ensures forall u :: u in RemoveFirst(ws, t) <==> u in ws && u != t
  {
    if ws != [] {
      assert Distinct(ws[1..]);
      RemoveMembers(ws[1..], t);
      assert forall u :: u in ws <==> u == ws[0] || u in ws[1..];
      assert ws[0] !in ws[1..];
    }
  }

  // ---------------------------------------------------------------- what a wake-up does

  /** How many waiters a wake-up can serve now. */
  function Grantable(s: Slots): nat {
    var free := s.max - s.inUse;
    if free <= 0 then 0 else if free <= |LiveOf(s)| then free else |LiveOf(s)|
  }

  function GrantAll(stage: map<TaskId, Stage>, ts: seq<TaskId>): map<TaskId, Stage> {
    map t | t in stage :: if t in ts then Granted else stage[t]
  }

  /** w is s after the front of the live queue, as long as there were free slots, was granted. */
  ghost predicate WokenFrom(s: Slots, w: Slots) {
    var k := Grantable(s);
    && w.inUse == s.inUse + k
    && LiveOf(w) == LiveOf(s)[k..]
    && w.stage == GrantAll(s.stage, LiveOf(s)[..k])
    && (w.max, w.loopKnown, w.deferred) == (s.max, s.loopKnown, s.deferred)
    && (w.waiters != [] ==> s.waiters != [])
    && QueueOk(w) && Accounted(w)
  }

  lemma {:induction false} OccupyingGrows(stage: map<TaskId, Stage>, t: TaskId, to: Stage)
    requires t in stage ==> !Occupies(stage[t])
    requires Occupies(to)
    ensures |Occupying(stage[t := to])| == |Occupying(stage)| + 1
  {
    assert Occupying(stage[t := to]) == Occupying(stage) + {t};
  }

  lemma {:induction false} PopFront(s: Slots)
    requires QueueOk(s) && Accounted(s) && s.waiters != []
    ensures var t, rest := s.waiters[0], s.(waiters := s.waiters[1..]);
      if IsLive(s.stage, t) then
        var r := rest.(inUse := s.inUse + 1, stage := s.stage[t := Granted]);
        QueueOk(r) && Accounted(r) && LiveOf(s) == [t] + LiveOf(r)
      else QueueOk(rest) && Accounted(rest) && LiveOf(s) == LiveOf(rest)
  {
    var t, rest := s.waiters[0], s.(waiters := s.waiters[1..]);
    assert Distinct(rest.waiters) && t !in rest.waiters;
    if IsLive(s.stage, t) {
      LiveSame(rest.waiters, s.stage, s.stage[t := Granted]);
      OccupyingGrows(s.stage, t, Granted);
    }
  }

  /** One grant at the front, then the rest of the wake-up. */
  lemma {:induction false} GrantThenRest(s: Slots, t: TaskId, r: Slots, w: Slots)
    requires t in s.stage && s.inUse < s.max && s.waiters != []
    requires r == s.(waiters := s.waiters[1..], inUse := s.inUse + 1, stage := s.stage[t := Granted])
    requires LiveOf(s) == [t] + LiveOf(r) && WokenFrom(r, w)
    ensures WokenFrom(s, w)
  {
    var k := Grantable(r);
    assert Grantable(s) == k + 1;
    assert LiveOf(s)[..k + 1] == [t] + LiveOf(r)[..k];
    assert LiveOf(s)[k + 1..] == LiveOf(r)[k..];
    assert GrantAll(s.stage[t := Granted], LiveOf(r)[..k]) == GrantAll(s.stage, [t] + LiveOf(r)[..k]);
  }

  lemma {:induction false} GrantNone(stage: map<TaskId, Stage>)
    ensures GrantAll(stage, []) == stage
  {
  }

  /** A wake-up grants exactly the first Grantable waiters of the live queue. */
  lemma {:induction false} WakeGrantsFront(s: Slots)
    requires QueueOk(s) && Accounted(s)
    ensures WokenFrom(s, Wake(s))
    decreases |s.waiters|
  {
    if s.waiters == [] || s.inUse >= s.max {
      GrantNone(s.stage);
      assert LiveOf(s)[..0] == [] && LiveOf(s)[0..] == LiveOf(s);
    } else {
      PopFront(s);
      var t, rest := s.waiters[0], s.(waiters := s.waiters[1..]);
      if IsLive(s.stage, t) {
        var r := rest.(inUse := s.inUse + 1, stage := s.stage[t := Granted]);
        WakeGrantsFront(r);
        GrantThenRest(s, t, r, Wake(r));
      } else {
        WakeGrantsFront(rest);
      }
    }
  }

  /** After a wake-up nobody waits beside a free slot. */
  lemma {:induction false} WakeServes(s: Slots)
    requires QueueOk(s) && Accounted(s)
    ensures var w := Wake(s);
      && (LiveOf(w) != [] ==> w.inUse >= w.max)
      && (w.inUse > s.inUse ==> w.inUse <= w.max)
  {
    WakeGrantsFront(s);
  }

  // ---------------------------------------------------------------- one step

  /** A holder or a cancelled grant goes away: its slot is accounted for without the clamp. */
  lemma {:induction false} GoneOccupier(s: Slots, t: TaskId)
    requires QueueOk(s) && Accounted(s) && t in s.stage && Occupies(s.stage[t])
    ensures s.inUse >= 1
    ensures var r := Gone(s, t).(inUse := s.inUse - 1);
      QueueOk(r) && Accounted(r) && LiveOf(r) == LiveOf(s) && Release(Gone(s, t)) == Wake(r)
  {
    OccupyingShrinks(s.stage, t);
    assert t !in s.waiters;
    LiveSame(s.waiters, s.stage, s.stage - {t});
  }

  lemma {:induction false} OccupyingShrinks(stage: map<TaskId, Stage>, t: TaskId)
    requires t in stage && Occupies(stage[t])
    ensures |Occupying(stage)| == |Occupying(stage - {t})| + 1
  {
    assert Occupying(stage) == Occupying(stage - {t}) + {t};
  }

  /** The slots in use after a wake-up that raised them. */
  lemma {:induction false} ReleaseServes(s: Slots, t: TaskId)
    requires Sound(s) && t in s.stage && Occupies(s.stage[t])
    ensures var n := Release(Gone(s, t)); n.inUse > s.inUse ==> n.inUse <= n.max
  {
    GoneOccupier(s, t);
    WakeServes(Gone(s, t).(inUse := s.inUse - 1));
  }

  lemma {:induction false} CancelKeepsQueue(s: Slots, t: TaskId)
    requires QueueOk(s) && Accounted(s) && Enabled(s, Cancel(t))
    ensures var n := Next(s, Cancel(t));
      && QueueOk(n) && Accounted(n)
      && LiveOf(n) == RemoveFirst(LiveOf(s), t)
  {
    var n := Next(s, Cancel(t));
    assert Occupying(n.stage) == Occupying(s.stage);
    if s.stage[t] == Waiting {
      LiveWithout(s.waiters, t, s.stage, n.stage);
    } else {
      assert t !in s.waiters;
      LiveSame(s.waiters, s.stage, n.stage);
      LiveMembers(s.waiters, s.stage, t);
      RemoveAbsent(LiveOf(s), t);
    }
  }

  lemma {:induction false} CancelledLeavesQueue(s: Slots, t: TaskId)
    requires QueueOk(s) && Accounted(s) && t in s.stage && s.stage[t] == WaitCancelled
    ensures var n := Next(s, Resume(t));
      QueueOk(n) && Accounted(n) && LiveOf(n) == LiveOf(s)
  {
    var n := Next(s, Resume(t));
    assert Occupying(n.stage) == Occupying(s.stage);
    RemoveMembers(s.waiters, t);
    LiveWithout(s.waiters, t, s.stage, n.stage);
    LiveMembers(s.waiters, s.stage, t);
    RemoveAbsent(LiveOf(s), t);
  }

  lemma {:induction false} GrantTaken(s: Slots, t: TaskId)
    requires QueueOk(s) && Accounted(s) && t in s.stage && s.stage[t] == Granted
    ensures var n := Next(s, Resume(t));
      QueueOk(n) && Accounted(n) && LiveOf(n) == LiveOf(s)
  {
    var n := Next(s, Resume(t));
    assert Occupying(n.stage) == Occupying(s.stage);
    assert t !in s.waiters;
    LiveSame(s.waiters, s.stage, n.stage);
  }

  lemma {:induction false} AcquireKeepsQueue(s: Slots, t: TaskId)
    requires QueueOk(s) && Accounted(s) && t !in s.stage
    ensures var n := Next(s, Acquire(t));
      && QueueOk(n) && Accounted(n)
      && LiveOf(n) == LiveOf(s) + if n.inUse == s.inUse then [t] else []
  {
    assert t !in s.waiters;
    LiveSame(s.waiters, s.stage, Next(s, Acquire(t)).stage);
    if FastPath(s) {
      OccupyingGrows(s.stage, t, Holding);
    } else {
      JoinsQueue(s, t);
    }
  }

  lemma {:induction false} JoinsQueue(s: Slots, t: TaskId)
    requires QueueOk(s) && Accounted(s) && t !in s.stage
    ensures var n := Joined(s, t); QueueOk(n) && Accounted(n) && LiveOf(n) == LiveOf(s) + [t]
  {
    var stage := s.stage[t := Waiting];
    assert t !in s.waiters && Occupying(stage) == Occupying(s.stage);
    LiveSame(s.waiters, s.stage, stage);
    LiveAppend(s.waiters, t, stage);
  }

  /** Where a wake-up leads. */
  lemma {:induction false} WakeIsSound(s: Slots)
    requires Sound(s)
    ensures Sound(Wake(s)) && NoLostWakeUp(Wake(s))
  {
    WakeGrantsFront(s);
  }

  lemma {:induction false} ReleaseIsSound(s: Slots, t: TaskId)
    requires Sound(s) && t in s.stage && Occupies(s.stage[t])
    ensures Sound(Release(Gone(s, t))) && NoLostWakeUp(Release(Gone(s, t)))
  {
    GoneOccupier(s, t);
    WakeIsSound(Gone(s, t).(inUse := s.inUse - 1));
  }

  lemma {:induction false} AcquireIsSound(s: Slots, t: TaskId)
    requires Sound(s) && t !in s.stage
    ensures var n := Next(s, Acquire(t)); Sound(n) && (NoLostWakeUp(s) ==> NoLostWakeUp(n))
  {
    AcquireKeepsQueue(s, t);
  }

  lemma {:induction false} CancelIsSound(s: Slots, t: TaskId)
    requires Sound(s) && Enabled(s, Cancel(t))
    ensures var n := Next(s, Cancel(t)); Sound(n) && (NoLostWakeUp(s) ==> NoLostWakeUp(n))
  {
    CancelKeepsQueue(s, t);
    RemoveMembersOnly(LiveOf(s), t);
  }

  lemma {:induction false} ResumeIsSound(s: Slots, t: TaskId)
    requires Sound(s) && Enabled(s, Resume(t))
    ensures var n := Next(s, Resume(t)); Sound(n) && (NoLostWakeUp(s) ==> NoLostWakeUp(n))
  {
    if s.stage[t] == Granted {
      GrantTaken(s, t);
    } else if s.stage[t] == WaitCancelled {
      CancelledLeavesQueue(s, t);
    } else {
      ReleaseIsSound(s, t);
    }
  }

  lemma {:induction false} SetCapIsSound(s: Slots, cap: int, onLoop: bool)
    requires Sound(s)
    ensures var n := Next(s, SetCap(cap, onLoop)); Sound(n) && (NoLostWakeUp(s) ==> NoLostWakeUp(n))
  {
    if CapAllowed(cap) {
      WakeIsSound(s.(max := cap));
    }
  }

  /** Accounting and queue order are kept by every step, and so is no lost wake-up. */
  lemma {:induction false} StepIsSound(s: Slots, e: Event)
    requires Sound(s) && Enabled(s, e)
    ensures Sound(Next(s, e)) && (NoLostWakeUp(s) ==> NoLostWakeUp(Next(s, e)))
  {
    match e
    case Acquire(t) => AcquireIsSound(s, t);
    case Cancel(t) => CancelIsSound(s, t);
    case Resume(t) => ResumeIsSound(s, t);
    case Leave(t) => ReleaseIsSound(s, t);
    case SetCap(cap, onLoop) => SetCapIsSound(s, cap, onLoop);
    case RunDeferred => WakeIsSound(s.(deferred := s.deferred - 1));
  }

  /** Slot accounting and no lost wake-up, kept by every step. */
  lemma {:induction false} StepKeepsInv(s: Slots, e: Event)
    requires Inv(s) && Enabled(s, e)
    ensures Inv(Next(s, e))
  {
    StepIsSound(s, e);
  }

  lemma {:induction false} RemoveMembersOnly(ws: seq<TaskId>, t: TaskId)
    ensures ws == [] ==> RemoveFirst(ws, t) == []
  {
  }

  // ---------------------------------------------------------------- whole runs

  /** A run from s in which every event is enabled when it happens. */
  predicate Possible(s: Slots, es: seq<Event>)
    decreases |es|
  {
    es == [] || (Enabled(s, es[0]) && Possible(Next(s, es[0]), es[1..]))
  }

  function After(s: Slots, es: seq<Event>): Slots
    requires Possible(s, es)
    decreases |es|
  {
    if es == [] then s else After(Next(s, es[0]), es[1..])
  }

  /** In every reachable state, under any interleaving: the slots in use are exactly the
      running holders plus the grants not yet taken up, and no wake-up is lost. */
  lemma {:induction false} ReachableInv(s: Slots, es: seq<Event>)
    requires Inv(s) && Possible(s, es)
    ensures Inv(After(s, es))
    decreases |es|
  {
    if es != [] {
      StepKeepsInv(s, es[0]);
      ReachableInv(Next(s, es[0]), es[1..]);
    }
  }

  lemma {:induction false} InitialInv(cap: int)
    requires CapAllowed(cap)
    ensures Inv(Initial(cap))
  {
    assert Occupying(Initial(cap).stage) == {};
  }

  /** An event that gives a slot back. */
  predicate GivesBack(s: Slots, e: Event) {
    Enabled(s, e) && (e.Leave? || (e.Resume? && s.stage[e.t] == GrantCancelled))
  }

  /** The clamp at zero never fires: whoever gives a slot back is one of those counted. */
  lemma {:induction false} ClampNeverFires(cap: int, es: seq<Event>, e: Event)
    requires CapAllowed(cap) && Possible(Initial(cap), es)
    requires GivesBack(After(Initial(cap), es), e)
    ensures After(Initial(cap), es).inUse - 1 >= 0
  {
    InitialInv(cap);
    ReachableInv(Initial(cap), es);
    GoneOccupier(After(Initial(cap), es), e.t);
  }

  /** A step that raises the number of slots in use leaves it at or below the current cap,
      even when the cap was lowered below the number running. */
  lemma {:induction false} NoOvershoot(s: Slots, e: Event)
    requires Sound(s) && Enabled(s, e)
    ensures var n := Next(s, e); n.inUse > s.inUse ==> n.inUse <= n.max
  {
    match e
    case Acquire(t) =>
    case Cancel(t) =>
    case Resume(t) =>
      if s.stage[t] == GrantCancelled {
        ReleaseServes(s, t);
      }
    case Leave(t) => ReleaseServes(s, t);
    case SetCap(cap, onLoop) => WakeServes(s.(max := cap));
    case RunDeferred => WakeServes(s.(deferred := s.deferred - 1));
  }
}
