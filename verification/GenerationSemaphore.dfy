/** The slot limiter as the object the gateway holds.  Each method is one atomic step of
    the event loop and takes exactly the step of the state machine named in its contract. */
module SemaphoreObject {
  import opened GenerationSlots

  class GenerationSemaphore {
    var max: int
    var inUse: int
    var waiters: seq<TaskId>
    var stage: map<TaskId, Stage>   // what the event loop knows of each task here
    var loopKnown: bool             // the object has seen its event loop
    var deferred: nat               // wake-ups another thread has scheduled on that loop

    ghost function State(): Slots
      reads this
    {
      Slots(max, inUse, waiters, stage, loopKnown, deferred)
    }

    /** Other caps are refused before an object exists. */
    constructor (cap: int)
      requires 1 <= cap <= 3
      ensures State() == Initial(cap) && Inv(State())
    {
      max, inUse, waiters, stage, loopKnown, deferred := cap, 0, [], map[], false, 0;
      new;
      InitialInv(cap);
    }

    method AnyLive() returns (live: bool)
      ensures live <==> LiveOf(State()) != []
    {
      live := false;
      for k := 0 to |waiters|
        invariant Live(waiters, stage) == Live(waiters[k..], stage)
      {
        if IsLive(stage, waiters[k]) {
          return true;
        }
      }
    }

    /** True when an acquire now would queue. */
    method WouldWait() returns (wait: bool)
      ensures forall t :: t !in stage ==> wait == (t in Next(State(), Acquire(t)).waiters[|waiters|..])
    {
      var live := AnyLive();
      wait := inUse >= max || live;
    }

    method WakeWaiters()
      modifies this
      ensures State() == Wake(old(State()))
    {
      while waiters != [] && inUse < max
        invariant Wake(State()) == Wake(old(State()))
        decreases |waiters|
      {
        var t := waiters[0];
        waiters := waiters[1..];
        if !IsLive(stage, t) {
          continue;
        }
        inUse := inUse + 1;
        stage := stage[t := Granted];
      }
    }

    method ReleaseSlot()
      modifies this
      ensures State() == Release(old(State()))
    {
      inUse := if inUse - 1 < 0 then 0 else inUse - 1;
      WakeWaiters();
    }

    /** Entering up to the await: true on the fast path, false when the task now waits. */
    method Enter(t: TaskId) returns (entered: bool)
      requires Inv(State()) && t !in stage
      modifies this
      ensures State() == Next(old(State()), Acquire(t)) && Inv(State())
      ensures entered <==> stage[t] == Holding
    {
      StepKeepsInv(State(), Acquire(t));
      entered := Look(t);
      if !entered {
        Join(t);
      }
    }

    /** The test at the beginning, with the fast path. */
    method Look(t: TaskId) returns (entered: bool)
      requires t !in stage
      modifies this
      ensures entered <==> FastPath(old(State()))
      ensures State() == if entered then Next(old(State()), Acquire(t)) else old(State())
    {
      var live := AnyLive();
      if inUse < max && !live {
        inUse := inUse + 1;
        stage := stage[t := Holding];
        return true;
      }
      return false;
    }

    /** The slow path: remember the loop, then join the queue. */
    method Join(t: TaskId)
      modifies this
      ensures State() == Joined(old(State()), t)
    {
      loopKnown := true;
      stage := stage[t := Waiting];
      waiters := waiters + [t];
    }

    /** Entering after the await: the grant is taken up, or the cancellation is delivered and
        what it left behind is undone. */
    method ResumeEnter(t: TaskId) returns (entered: bool)
      requires Inv(State()) && Enabled(State(), Resume(t))
      modifies this
      ensures State() == Next(old(State()), Resume(t)) && Inv(State())
      ensures entered <==> t in stage
    {
      StepKeepsInv(State(), Resume(t));
      ghost var before := State();
      if stage[t] == Granted {
        stage := stage[t := Holding];
        return true;
      }
      var granted := stage[t] == GrantCancelled;
      stage := stage - {t};
      if granted {
        GoneOccupier(before, t);
        WakeGrantsFront(Gone(before, t).(inUse := inUse - 1));
        ReleaseSlot();
      } else {
        waiters := RemoveFirst(waiters, t);
      }
      return false;
    }

    method Exit(t: TaskId)
      requires Inv(State()) && Enabled(State(), Leave(t))
      modifies this
      ensures State() == Next(old(State()), Leave(t)) && Inv(State())
    {
      StepKeepsInv(State(), Leave(t));
      stage := stage - {t};
      ReleaseSlot();
    }

    /** A cap outside 1..3 is refused and changes nothing. */
    method SetMaxConcurrent(cap: int, onLoop: bool) returns (ok: bool)
      requires Inv(State())
      modifies this
      ensures State() == Next(old(State()), SetCap(cap, onLoop)) && Inv(State())
      ensures ok <==> 1 <= cap <= 3
      ensures max == if ok then cap else old(max)
    {
      StepKeepsInv(State(), SetCap(cap, onLoop));
      ok := WriteCap(cap);
      if !ok || !loopKnown {
        return;
      }
      if onLoop {
        WakeGrantsFront(State());
        WakeWaiters();
      } else {
        ScheduleWake();
      }
    }

    /** The first half of that call, which another thread may run alone. */
    method WriteCap(cap: int) returns (ok: bool)
      modifies this
      ensures ok <==> 1 <= cap <= 3
      ensures State() == if ok then old(State()).(max := cap) else old(State())
    {
      ok := CapAllowed(cap);
      if ok {
        max := cap;
      }
    }

    /** The last step of that call on another thread: the loop is asked for a wake-up. */
    method ScheduleWake()
      modifies this
      ensures State() == old(State()).(deferred := old(deferred) + 1)
    {
      deferred := deferred + 1;
    }

    /** The loop runs a wake-up that another thread scheduled. */
    method RunScheduledWake()
      requires Inv(State()) && deferred > 0
      modifies this
      ensures State() == Next(old(State()), RunDeferred) && Inv(State())
    {
      StepKeepsInv(State(), RunDeferred);
      deferred := deferred - 1;
      WakeWaiters();
    }
  }
}
