/** First come, first served: nobody overtakes a waiting task, and with a fixed cap the
    wait is bounded by a number of releases (src/application/gateway/generation_semaphore.py). */
module SlotFairness {
  import opened GenerationSlots

  /** The part of a queue before a. */
  function Ahead(queue: seq<TaskId>, a: TaskId): seq<TaskId> {
    if queue == [] || queue[0] == a then [] else [queue[0]] + Ahead(queue[1..], a)
  }

  function AheadOf(s: Slots, a: TaskId): seq<TaskId> {
    Ahead(LiveOf(s), a)
  }

  function Excess(s: Slots): nat {
    if s.inUse > s.max then s.inUse - s.max else 0
  }

  /** How many releases a waiting task may still have to see: one more than those ahead of it,
      and one for each slot in use beyond the cap. */
  function Need(s: Slots, a: TaskId): nat {
    |AheadOf(s, a)| + 1 + Excess(s)
  }

  // ---------------------------------------------------------------- queue positions

  lemma {:induction false} AheadDropped(queue: seq<TaskId>, a: TaskId, k: nat)
    requires k <= |queue| && Distinct(queue) && a in queue[k..]
    ensures k <= |Ahead(queue, a)|
    ensures Ahead(queue[k..], a) == Ahead(queue, a)[k..] && queue[..k] == Ahead(queue, a)[..k]
  {
    if k == 0 {
      assert queue[0..] == queue;
    } else {
      NotFirst(queue, a, k);
      AheadDropped(queue[1..], a, k - 1);
      PrependCut(queue[0], Ahead(queue[1..], a), k);
      PrependCut(queue[0], queue[1..], k);
      assert [queue[0]] + queue[1..] == queue;
    }
  }

  lemma {:induction false} PrependCut(x: TaskId, tail: seq<TaskId>, k: nat)
    requires 0 < k <= |tail| + 1
    ensures ([x] + tail)[k..] == tail[k - 1..] && ([x] + tail)[..k] == [x] + tail[..k - 1]
  {
  }

  lemma {:induction false} NotFirst(queue: seq<TaskId>, a: TaskId, k: nat)
    requires 0 < k <= |queue| && Distinct(queue) && a in queue[k..]
    ensures queue[0] != a && Distinct(queue[1..])
    ensures queue[1..][k - 1..] == queue[k..]
  {
    var i :| 0 <= i < |queue[k..]| && queue[k..][i] == a;
    assert queue[k + i] == a;
  }

  lemma {:induction false} AheadWithout(queue: seq<TaskId>, a: TaskId, t: TaskId)
    requires t != a
    ensures |Ahead(RemoveFirst(queue, t), a)| <= |Ahead(queue, a)|
    ensures forall u <- Ahead(RemoveFirst(queue, t), a) :: u in Ahead(queue, a)
  {
    if queue != [] && queue[0] != t {
      AheadWithout(queue[1..], a, t);
      assert RemoveFirst(queue, t)[1..] == RemoveFirst(queue[1..], t);
    }
  }

  lemma {:induction false} AheadAppended(queue: seq<TaskId>, a: TaskId, more: seq<TaskId>)
    requires a in queue
    ensures Ahead(queue + more, a) == Ahead(queue, a)
  {
    if queue[0] != a {
      assert (queue + more)[1..] == queue[1..] + more;
      AheadAppended(queue[1..], a, more);
    }
  }

  // ---------------------------------------------------------------- one step beside a waiting task

  /** From s to n, a keeps waiting: slots newly taken go to tasks that were ahead of it, nobody
      joins those ahead, and the releases still needed drop by at least `given`. */
  ghost predicate Keeps(s: Slots, n: Slots, a: TaskId, given: nat) {
    && (forall t <- Occupying(n.stage) :: t in Occupying(s.stage) || t in AheadOf(s, a))
    && (forall t <- AheadOf(n, a) :: t in AheadOf(s, a))
    && (n.max == s.max ==> Need(n, a) + given <= Need(s, a))
  }

  lemma {:induction false} WakeKeeps(s: Slots, a: TaskId)
    requires QueueOk(s) && Accounted(s) && a in LiveOf(Wake(s))
    ensures Keeps(s, Wake(s), a, 0)
    ensures s.inUse < s.max ==> |AheadOf(Wake(s), a)| == |AheadOf(s, a)| - (s.max - s.inUse)
    ensures s.inUse >= s.max ==> AheadOf(Wake(s), a) == AheadOf(s, a)
    ensures Wake(s).max == s.max && (s.inUse < s.max ==> Wake(s).inUse == s.max)
    ensures s.inUse >= s.max ==> Wake(s).inUse == s.inUse
  {
    WakeGrantsFront(s);
    var k := Grantable(s);
    LiveDistinct(s.waiters, s.stage);
    AheadDropped(LiveOf(s), a, k);
    assert k < |LiveOf(s)|;
    forall t <- Occupying(Wake(s).stage) ensures t in Occupying(s.stage) || t in AheadOf(s, a) {
      if t in LiveOf(s)[..k] {
        assert t in AheadOf(s, a)[..k];
      }
    }
  }

  lemma {:induction false} ReleaseKeeps(s: Slots, t: TaskId, a: TaskId)
    requires QueueOk(s) && Accounted(s) && t in s.stage && Occupies(s.stage[t])
    requires a in LiveOf(Release(Gone(s, t)))
    ensures Keeps(s, Release(Gone(s, t)), a, 1)
  {
    GoneOccupier(s, t);
    var r := Gone(s, t).(inUse := s.inUse - 1);
    WakeKeeps(r, a);
    assert AheadOf(r, a) == AheadOf(s, a);
    assert forall u <- Occupying(r.stage) :: u in Occupying(s.stage);
  }

  lemma {:induction false} AcquireKeeps(s: Slots, t: TaskId, a: TaskId)
    requires QueueOk(s) && Accounted(s) && t !in s.stage && a in LiveOf(s)
    ensures Keeps(s, Next(s, Acquire(t)), a, 0)
  {
    var n := Next(s, Acquire(t));
    AcquireKeepsQueue(s, t);
    AheadAppended(LiveOf(s), a, [t]);
    assert Occupying(n.stage) == Occupying(s.stage);
    NobodyServed(s, n, a);
  }

  lemma {:induction false} CancelKeeps(s: Slots, t: TaskId, a: TaskId)
    requires QueueOk(s) && Accounted(s) && Enabled(s, Cancel(t))
    requires a in LiveOf(s) && a in LiveOf(Next(s, Cancel(t)))
    ensures Keeps(s, Next(s, Cancel(t)), a, 0)
  {
    CancelsOther(s, t, a);
    CancelKeepsQueue(s, t);
    AheadWithout(LiveOf(s), a, t);
    NobodyServed(s, Next(s, Cancel(t)), a);
  }

  lemma {:induction false} CancelsOther(s: Slots, t: TaskId, a: TaskId)
    requires Enabled(s, Cancel(t)) && a in LiveOf(Next(s, Cancel(t)))
    ensures t != a
    ensures var n := Next(s, Cancel(t));
      Occupying(n.stage) == Occupying(s.stage) && n.inUse == s.inUse && n.max == s.max
  {
    var n := Next(s, Cancel(t));
    LiveMembers(n.waiters, n.stage, a);
  }

  /** A step that serves nobody and lets nobody in ahead of a. */
  lemma {:induction false} NobodyServed(s: Slots, n: Slots, a: TaskId)
    requires Occupying(n.stage) == Occupying(s.stage) && n.inUse == s.inUse && n.max == s.max
    requires |AheadOf(n, a)| <= |AheadOf(s, a)| && forall u <- AheadOf(n, a) :: u in AheadOf(s, a)
    ensures Keeps(s, n, a, 0)
  {
  }

  lemma {:induction false} ResumeKeeps(s: Slots, t: TaskId, a: TaskId)
    requires Inv(s) && Enabled(s, Resume(t))
    requires a in LiveOf(s) && a in LiveOf(Next(s, Resume(t)))
    ensures Keeps(s, Next(s, Resume(t)), a, if GivesBack(s, Resume(t)) then 1 else 0)
  {
    if s.stage[t] == GrantCancelled {
      ReleaseKeeps(s, t, a);
    } else {
      if s.stage[t] == Granted {
        GrantTaken(s, t);
      } else {
        CancelledLeavesQueue(s, t);
      }
      assert Occupying(Next(s, Resume(t)).stage) == Occupying(s.stage);
      NobodyServed(s, Next(s, Resume(t)), a);
    }
  }

  lemma {:induction false} SetCapKeeps(s: Slots, cap: int, onLoop: bool, a: TaskId)
    requires Inv(s) && a in LiveOf(s) && a in LiveOf(Next(s, SetCap(cap, onLoop)))
    ensures Keeps(s, Next(s, SetCap(cap, onLoop)), a, 0)
  {
    if CapAllowed(cap) && s.loopKnown && onLoop {
      WakeKeeps(s.(max := cap), a);
      assert AheadOf(s.(max := cap), a) == AheadOf(s, a);
    }
  }

  lemma {:induction false} StepKeeps(s: Slots, e: Event, a: TaskId)
    requires Inv(s) && Enabled(s, e)
    requires a in LiveOf(s) && a in LiveOf(Next(s, e))
    ensures Keeps(s, Next(s, e), a, if GivesBack(s, e) then 1 else 0)
  {
    match e
    case Acquire(t) => AcquireKeeps(s, t, a);
    case Cancel(t) => CancelKeeps(s, t, a);
    case Resume(t) => ResumeKeeps(s, t, a);
    case Leave(t) => ReleaseKeeps(s, t, a);
    case SetCap(cap, onLoop) => SetCapKeeps(s, cap, onLoop, a);
    case RunDeferred =>
      WakeKeeps(s.(deferred := s.deferred - 1), a);
      assert AheadOf(s.(deferred := s.deferred - 1), a) == AheadOf(s, a);
  }

  predicate WaitsOrGranted(stage: map<TaskId, Stage>, a: TaskId) {
    a in stage && (stage[a] == Waiting || stage[a] == Granted)
  }

  lemma {:induction false} WakeOnlyGrants(s: Slots, a: TaskId)
    requires QueueOk(s) && Accounted(s) && IsLive(s.stage, a)
    ensures WaitsOrGranted(Wake(s).stage, a)
  {
    WakeGrantsFront(s);
  }

  lemma {:induction false} ReleaseOnlyGrants(s: Slots, t: TaskId, a: TaskId)
    requires QueueOk(s) && Accounted(s) && IsLive(s.stage, a) && t in s.stage && Occupies(s.stage[t])
    ensures WaitsOrGranted(Release(Gone(s, t)).stage, a)
  {
    GoneOccupier(s, t);
    WakeOnlyGrants(Gone(s, t).(inUse := s.inUse - 1), a);
  }

  /** No event but its own cancellation does anything to a waiting task except granting. */
  lemma {:induction false} OnlyGranted(s: Slots, e: Event, a: TaskId)
    requires Inv(s) && Enabled(s, e) && IsLive(s.stage, a) && e != Cancel(a)
    ensures WaitsOrGranted(Next(s, e).stage, a)
  {
    match e
    case Acquire(t) =>
    case Cancel(t) =>
    case Resume(t) =>
      if s.stage[t] == GrantCancelled {
        ReleaseOnlyGrants(s, t, a);
      }
    case Leave(t) => ReleaseOnlyGrants(s, t, a);
    case SetCap(cap, onLoop) =>
      if CapAllowed(cap) {
        WakeOnlyGrants(s.(max := cap), a);
      }
    case RunDeferred => WakeOnlyGrants(s.(deferred := s.deferred - 1), a);
  }

  /** A waiting task stops waiting in one of two ways: its own cancellation, or a grant. */
  lemma {:induction false} WaitEnds(s: Slots, e: Event, a: TaskId)
    requires Inv(s) && Enabled(s, e) && a in LiveOf(s) && a !in LiveOf(Next(s, e))
    ensures e == Cancel(a) || (a in Next(s, e).stage && Next(s, e).stage[a] == Granted)
  {
    LiveMembers(s.waiters, s.stage, a);
    if e != Cancel(a) {
      OnlyGranted(s, e, a);
      StepKeepsInv(s, e);
      LiveMembers(Next(s, e).waiters, Next(s, e).stage, a);
    }
  }

  // ---------------------------------------------------------------- whole runs

  predicate LiveThroughout(s: Slots, es: seq<Event>, a: TaskId)
    requires Possible(s, es)
    decreases |es|
  {
    a in LiveOf(s) && (es != [] ==> LiveThroughout(Next(s, es[0]), es[1..], a))
  }

  function Releases(s: Slots, es: seq<Event>): nat
    requires Possible(s, es)
    decreases |es|
  {
    if es == [] then 0
    else (if GivesBack(s, es[0]) then 1 else 0) + Releases(Next(s, es[0]), es[1..])
  }

  /** No overtaking: while a waits, every slot newly taken goes to a task that was ahead of
      it in the queue; neither a later waiter nor the fast path gets one. */
  lemma {:induction false} NoOvertaking(s: Slots, es: seq<Event>, a: TaskId)
    requires Inv(s) && Possible(s, es) && LiveThroughout(s, es, a)
    ensures forall t <- Occupying(After(s, es).stage) :: t in Occupying(s.stage) || t in AheadOf(s, a)
    decreases |es|
  {
    if es != [] {
      var n := Next(s, es[0]);
      StepKeepsInv(s, es[0]);
      NoOvertaking(n, es[1..], a);
      StepKeeps(s, es[0], a);
    }
  }

  predicate CapFixed(es: seq<Event>, cap: int) {
    forall e <- es :: e.SetCap? ==> e.cap == cap
  }

  lemma {:induction false} CapStays(s: Slots, e: Event)
    requires Inv(s) && Enabled(s, e) && (e.SetCap? ==> e.cap == s.max)
    ensures Next(s, e).max == s.max
  {
    match e
    case Acquire(t) =>
    case Cancel(t) =>
    case Resume(t) =>
      if s.stage[t] == GrantCancelled {
        GoneOccupier(s, t);
        WakeGrantsFront(Gone(s, t).(inUse := s.inUse - 1));
      }
    case Leave(t) =>
      GoneOccupier(s, t);
      WakeGrantsFront(Gone(s, t).(inUse := s.inUse - 1));
    case SetCap(cap, onLoop) => WakeGrantsFront(s);
    case RunDeferred => WakeGrantsFront(s.(deferred := s.deferred - 1));
  }

  lemma {:induction false} RunPrefix(s: Slots, es: seq<Event>, n: nat)
    requires Possible(s, es) && n <= |es|
    ensures Possible(s, es[..n])
    decreases |es|
  {
    if n > 0 {
      assert es[..n][1..] == es[1..][..n - 1];
      RunPrefix(Next(s, es[0]), es[1..], n - 1);
    }
  }

  lemma {:induction false} NeedDrops(s: Slots, e: Event, a: TaskId)
    requires Inv(s) && Enabled(s, e) && (e.SetCap? ==> e.cap == s.max)
    requires a in LiveOf(s) && a in LiveOf(Next(s, e))
    ensures Need(Next(s, e), a) + (if GivesBack(s, e) then 1 else 0) <= Need(s, a)
  {
    StepKeeps(s, e, a);
    CapStays(s, e);
  }

  /** Bounded wait: with a fixed cap, a task with k live waiters ahead that is not cancelled
      is granted by event n, having seen at most k + 1 + max(0, in use - cap) releases. */
  lemma {:induction false} BoundedWait(s: Slots, es: seq<Event>, a: TaskId) returns (n: nat)
    requires Inv(s) && Possible(s, es) && a in LiveOf(s)
    requires CapFixed(es, s.max) && Cancel(a) !in es
    requires Releases(s, es) >= Need(s, a)
    ensures n < |es| && Possible(s, es[..n + 1])
    ensures var g := After(s, es[..n + 1]); a in g.stage && g.stage[a] == Granted
    ensures Releases(s, es[..n + 1]) <= Need(s, a)
    decreases |es|
  {
    var e, more := es[0], es[1..];
    var next := Next(s, e);
    assert e in es && forall x <- more :: x in es;
    StepKeepsInv(s, e);
    CapStays(s, e);
    if a in LiveOf(next) {
      NeedDrops(s, e, a);
      var m := BoundedWait(next, more, a);
      n := m + 1;
      PrefixSteps(s, es, n);
    } else {
      n := 0;
      WaitEnds(s, e, a);
      PrefixSteps(s, es, 0);
      assert more[..0] == [];
    }
  }

  /** The first n + 1 events of a run: the first one, then n more. */
  lemma {:induction false} PrefixSteps(s: Slots, es: seq<Event>, n: nat)
    requires Possible(s, es) && n < |es|
    ensures var next, more := Next(s, es[0]), es[1..];
      && Possible(s, es[..n + 1]) && Possible(next, more[..n])
      && After(s, es[..n + 1]) == After(next, more[..n])
      && Releases(s, es[..n + 1]) == (if GivesBack(s, es[0]) then 1 else 0) + Releases(next, more[..n])
  {
    RunPrefix(s, es, n + 1);
    assert es[..n + 1][1..] == es[1..][..n];
  }
}
