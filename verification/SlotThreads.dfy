/** Cap changes from another thread, step by step
    (src/application/gateway/generation_semaphore.py, lines 106-118 and 135-143).

    A settings route runs in a worker thread: it writes the cap, reads which event loop the
    object has seen, and asks that loop for a wake-up.  Each of these may fall between the
    test of an acquire on the loop and its joining the queue.  The lemmas say exactly when a
    wake-up gets lost that way, and that it cannot once the loop is known. */
module SlotThreads {
  import opened Texts
  import opened GenerationSlots

  /** The slots; the acquire that has to queue and has not joined yet; the threads that wrote
      the cap and have not read the loop; and those that read it and have not scheduled. */
  datatype Shared = Shared(slots: Slots, joining: Option<TaskId>, written: nat, scheduling: nat)

  datatype Step = OnLoop(e: Event) | Look(t: TaskId) | Join | WriteCap(cap: int) | ReadLoop | Schedule

  /** The loop runs nothing else while an acquire is between its test and its joining. */
  predicate CanDo(f: Shared, step: Step) {
    match step
    case OnLoop(e) => f.joining.None? && Enabled(f.slots, e) && !e.Acquire? && !(e.SetCap? && !e.onLoop)
    case Look(t) => f.joining.None? && t !in f.slots.stage
    case Join => f.joining.Some?
    case WriteCap(cap) => CapAllowed(cap)
    case ReadLoop => f.written > 0
    case Schedule => f.scheduling > 0
  }

  function Do(f: Shared, step: Step): Shared
    requires CanDo(f, step)
  {
    match step
    case OnLoop(e) => f.(slots := Next(f.slots, e))
    case Look(t) =>
      if FastPath(f.slots) then f.(slots := Next(f.slots, Acquire(t))) else f.(joining := Some(t))
    case Join => f.(slots := Joined(f.slots, f.joining.value), joining := None)
    case WriteCap(cap) => f.(slots := f.slots.(max := cap), written := f.written + 1)
    case ReadLoop =>
      f.(written := f.written - 1, scheduling := f.scheduling + if f.slots.loopKnown then 1 else 0)
    case Schedule => f.(slots := f.slots.(deferred := f.slots.deferred + 1), scheduling := f.scheduling - 1)
  }

  // ---------------------------------------------------------------- the coarse steps are sequences of these

  /** Without a thread in between, an acquire is its test and its joining. */
  lemma AcquireIsTwoSteps(f: Shared, t: TaskId)
    requires CanDo(f, Look(t))
    ensures var looked := Do(f, Look(t));
      f.(slots := Next(f.slots, Acquire(t))) == if FastPath(f.slots) then looked else Do(looked, Join)
  {
  }

  /** Without an acquire in between, a cap change from a thread is its three steps. */
  lemma SetCapIsThreeSteps(f: Shared, cap: int)
    requires CapAllowed(cap)
    ensures var read := Do(Do(f, WriteCap(cap)), ReadLoop);
      f.(slots := Next(f.slots, SetCap(cap, false))) == if f.slots.loopKnown then Do(read, Schedule) else read
  {
  }

  // ---------------------------------------------------------------- what each step keeps

  /** Somebody waits or is about to. */
  predicate Wanted(f: Shared) {
    LiveOf(f.slots) != [] || f.joining.Some?
  }

  /** All slots are in use, or a wake-up is on its way. */
  predicate Covered(f: Shared) {
    f.slots.inUse >= f.slots.max || f.slots.deferred > 0 || f.scheduling > 0 || f.written > 0
  }

  predicate Kept(f: Shared) {
    && Sound(f.slots)
    && (f.joining.Some? ==> f.joining.value !in f.slots.stage)
    && (Wanted(f) ==> Covered(f))
  }

  /** The thread reads the loop before it is known, just when the first acquire that ever has
      to queue, for the slot that the new cap frees, is about to join. */
  predicate Misses(f: Shared, step: Step) {
    && step == ReadLoop && !f.slots.loopKnown && f.joining.Some?
    && f.slots.inUse < f.slots.max && f.slots.deferred == 0 && f.scheduling == 0 && f.written == 1
  }

  lemma {:induction false} LoopStepKeeps(f: Shared, e: Event)
    requires Kept(f) && CanDo(f, OnLoop(e))
    ensures Kept(Do(f, OnLoop(e)))
  {
    StepIsSound(f.slots, e);
  }

  lemma {:induction false} LookKeeps(f: Shared, t: TaskId)
    requires Kept(f) && CanDo(f, Look(t))
    ensures Kept(Do(f, Look(t)))
  {
    if FastPath(f.slots) {
      AcquireIsSound(f.slots, t);
      AcquireKeepsQueue(f.slots, t);
    }
  }

  lemma {:induction false} JoinKeeps(f: Shared)
    requires Kept(f) && CanDo(f, Join)
    ensures Kept(Do(f, Join))
  {
    JoinsQueue(f.slots, f.joining.value);
  }

  lemma {:induction false} ReadLoopKeepsIff(f: Shared)
    requires Kept(f) && CanDo(f, ReadLoop)
    ensures Kept(Do(f, ReadLoop)) <==> !Misses(f, ReadLoop)
  {
    if !f.slots.loopKnown {
      assert f.slots.waiters == [] && LiveOf(f.slots) == [];
    }
  }

  lemma {:induction false} SameQueue(s: Slots, n: Slots)
    requires Sound(s) && CapAllowed(n.max)
    requires n.inUse == s.inUse && n.waiters == s.waiters && n.stage == s.stage && n.loopKnown == s.loopKnown
    ensures Sound(n) && LiveOf(n) == LiveOf(s)
  {
  }

  /** Every step keeps the accounting and the cover for whoever waits, if and only if it is not
      that one reading of the loop. */
  lemma {:induction false} StepKeepsIff(f: Shared, step: Step)
    requires Kept(f) && CanDo(f, step)
    ensures Kept(Do(f, step)) <==> !Misses(f, step)
  {
    match step
    case OnLoop(e) => LoopStepKeeps(f, e);
    case Look(t) => LookKeeps(f, t);
    case Join => JoinKeeps(f);
    case WriteCap(cap) => SameQueue(f.slots, Do(f, step).slots);
    case ReadLoop => ReadLoopKeepsIff(f);
    case Schedule => SameQueue(f.slots, Do(f, step).slots);
  }

  /** No step raises the slots in use above the cap that is then in force. */
  lemma {:induction false} StepNeverOvershoots(f: Shared, step: Step)
    requires Kept(f) && CanDo(f, step)
    ensures var n := Do(f, step).slots; n.inUse > f.slots.inUse ==> n.inUse <= n.max
  {
    if step.OnLoop? {
      NoOvershoot(f.slots, step.e);
    }
  }

  // ---------------------------------------------------------------- whole runs

  predicate CanRun(f: Shared, steps: seq<Step>)
    decreases |steps|
  {
    steps == [] || (CanDo(f, steps[0]) && CanRun(Do(f, steps[0]), steps[1..]))
  }

  function Ran(f: Shared, steps: seq<Step>): Shared
    requires CanRun(f, steps)
    decreases |steps|
  {
    if steps == [] then f else Ran(Do(f, steps[0]), steps[1..])
  }

  lemma {:induction false} WakeKeepsLoop(s: Slots)
    requires Sound(s)
    ensures Wake(s).loopKnown == s.loopKnown
  {
    WakeGrantsFront(s);
  }

  lemma {:induction false} LoopStaysKnown(f: Shared, step: Step)
    requires Kept(f) && CanDo(f, step) && f.slots.loopKnown
    ensures Do(f, step).slots.loopKnown
  {
    if step.OnLoop? {
      NextKeepsLoop(f.slots, step.e);
    }
  }

  lemma {:induction false} NextKeepsLoop(s: Slots, e: Event)
    requires Sound(s) && Enabled(s, e) && s.loopKnown
    ensures Next(s, e).loopKnown
  {
    match e
    case Acquire(t) =>
    case Cancel(t) =>
    case Resume(t) =>
      if s.stage[t] == GrantCancelled {
        GoneOccupier(s, t);
        WakeKeepsLoop(Gone(s, t).(inUse := s.inUse - 1));
      }
    case Leave(t) =>
      GoneOccupier(s, t);
      WakeKeepsLoop(Gone(s, t).(inUse := s.inUse - 1));
    case SetCap(cap, onLoop) =>
      if CapAllowed(cap) {
        WakeKeepsLoop(s.(max := cap));
      }
    case RunDeferred => WakeKeepsLoop(s.(deferred := s.deferred - 1));
  }

  /** Once the object has seen its loop, no interleaving with threads that change the cap
      loses a wake-up. */
  lemma {:induction false} KnownLoopNeverMisses(f: Shared, steps: seq<Step>)
    requires Kept(f) && f.slots.loopKnown && CanRun(f, steps)
    ensures Kept(Ran(f, steps)) && Ran(f, steps).slots.loopKnown
    decreases |steps|
  {
    if steps != [] {
      StepKeepsIff(f, steps[0]);
      LoopStaysKnown(f, steps[0]);
      KnownLoopNeverMisses(Do(f, steps[0]), steps[1..]);
    }
  }

  /** No step of the run is that reading of the loop. */
  predicate MissesNothing(f: Shared, steps: seq<Step>)
    requires CanRun(f, steps)
    decreases |steps|
  {
    steps == [] || (!Misses(f, steps[0]) && MissesNothing(Do(f, steps[0]), steps[1..]))
  }

  function New(cap: int): Shared {
    Shared(Initial(cap), None, 0, 0)
  }

  /** From a new object: accounting and cover hold after every run without that reading. */
  lemma {:induction false} RunKeeps(f: Shared, steps: seq<Step>)
    requires Kept(f) && CanRun(f, steps) && MissesNothing(f, steps)
    ensures Kept(Ran(f, steps))
    decreases |steps|
  {
    if steps != [] {
      StepKeepsIff(f, steps[0]);
      RunKeeps(Do(f, steps[0]), steps[1..]);
    }
  }

  lemma {:induction false} NewIsKept(cap: int)
    requires CapAllowed(cap)
    ensures Kept(New(cap))
  {
    InitialInv(cap);
  }

  // ---------------------------------------------------------------- the wake-up that is lost

  /** After a miss the acquire joins, and waits beside a free slot with nothing on its way. */
  lemma {:induction false} MissedWakeIsLost(f: Shared)
    requires Kept(f) && CanDo(f, ReadLoop) && Misses(f, ReadLoop)
    ensures var n := Do(Do(f, ReadLoop), Join);
      && Sound(n.slots) && LiveOf(n.slots) == [f.joining.value]
      && n.slots.inUse < n.slots.max && !Covered(n) && !NoLostWakeUp(n.slots)
  {
    assert f.slots.waiters == [] && LiveOf(f.slots) == [];
    JoinsQueue(f.slots, f.joining.value);
  }

  /** ... until the next wake-up, which any release or later cap change brings. */
  lemma {:induction false} NextWakeRepairs(s: Slots)
    requires Sound(s) && LiveOf(s) != [] && s.inUse < s.max
    ensures var a := LiveOf(s)[0]; a in Wake(s).stage && Wake(s).stage[a] == Granted
    ensures NoLostWakeUp(Wake(s))
  {
    WakeGrantsFront(s);
    WakeIsSound(s);
    LiveMembers(s.waiters, s.stage, LiveOf(s)[0]);
    assert LiveOf(s)[0] in LiveOf(s)[..Grantable(s)];
  }

  /** One such run: a new object, one holder, a second acquire, and a cap raised to two. */
  lemma {:induction false} FirstCapChangeCanBeMissed(holder: TaskId, second: TaskId)
    requires holder != second
    ensures var steps := [Look(holder), Look(second), WriteCap(2), ReadLoop, Join];
      && CanRun(New(1), steps)
      && LiveOf(Ran(New(1), steps).slots) == [second] && Ran(New(1), steps).slots.inUse == 1
      && !NoLostWakeUp(Ran(New(1), steps).slots) && !Covered(Ran(New(1), steps))
  {
    var f0 := New(1);
    NewIsKept(1);
    var f1 := Do(f0, Look(holder));
    LookKeeps(f0, holder);
    var f2 := Do(f1, Look(second));
    LookKeeps(f1, second);
    var f3 := Do(f2, WriteCap(2));
    StepKeepsIff(f2, WriteCap(2));
    MissedWakeIsLost(f3);
    FiveSteps(f0, Look(holder), Look(second), WriteCap(2), ReadLoop, Join);
  }

  lemma FiveSteps(f: Shared, a: Step, b: Step, c: Step, d: Step, e: Step)
    requires CanDo(f, a) && CanDo(Do(f, a), b) && CanDo(Do(Do(f, a), b), c) && CanDo(Do(Do(Do(f, a), b), c), d)
    requires CanDo(Do(Do(Do(Do(f, a), b), c), d), e)
    ensures CanRun(f, [a, b, c, d, e])
    ensures Ran(f, [a, b, c, d, e]) == Do(Do(Do(Do(Do(f, a), b), c), d), e)
  {
    OneStep(Do(Do(Do(Do(f, a), b), c), d), e, []);
    OneStep(Do(Do(Do(f, a), b), c), d, [e]);
    OneStep(Do(Do(f, a), b), c, [d, e]);
    OneStep(Do(f, a), b, [c, d, e]);
    OneStep(f, a, [b, c, d, e]);
    assert [e] + [] == [e] && [d] + [e] == [d, e] && [c] + [d, e] == [c, d, e];
    assert [b] + [c, d, e] == [b, c, d, e] && [a] + [b, c, d, e] == [a, b, c, d, e];
  }

  lemma OneStep(f: Shared, step: Step, more: seq<Step>)
    requires CanDo(f, step) && CanRun(Do(f, step), more)
    ensures CanRun(f, [step] + more) && Ran(f, [step] + more) == Ran(Do(f, step), more)
  {
    assert ([step] + more)[1..] == more;
  }
}
