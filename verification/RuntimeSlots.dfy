/**
 Worker slots: how many fiber functions run at once, and why the detector's slot-exhaustion
 test (internal/runtime/deadlock.go) is sound.
 */
module RuntimeSlots {
  import opened Fibers
  import opened Registries
  import opened Sequences
  import opened Runtime
  import opened RuntimeInvariant
  import opened RuntimeTheorems

  /** Fibers of a run that are inside their function. */
  function InFlight(s: State, run: int): set<FiberID> {
    set id | id in s.fibers && s.fibers[id].task.Some? && s.fibers[id].task.value.run == run
             && s.fibers[id].task.value.pc.Executing?
  }

  /** In every reachable state at most numWorkers fiber functions of any one run are in flight. */
  lemma AtMostNumWorkersInFlight(numWorkers: int, maxFibers: nat, main: FiberID, actions: seq<Action>, run: int)
    ensures var s := After(Init(numWorkers, maxFibers, main), actions);
      |InFlight(s, run)| <= (if numWorkers <= 0 then 1 else if numWorkers > 64 then 64 else numWorkers)
  {
    var s := After(Init(numWorkers, maxFibers, main), actions);
    Reachable(numWorkers, maxFibers, main, actions);
    SettingsStay(Init(numWorkers, maxFibers, main), actions);
    assert InFlight(s, run) <= Live(s, run);
    SubsetSize(InFlight(s, run), Live(s, run));
  }

  // ---------------------------------------------------------------- exhausted slots

  /** What a scan of the fiber map finds blocked. */
  function BlockedScan(s: State): set<FiberID> {
    set id | id in s.fibers && s.fibers[id].registered && s.fibers[id].fiber.state == Blocked
  }

  /** What a scan of the fiber map finds running. */
  function RunningScan(s: State): set<FiberID> {
    set id | id in s.fibers && s.fibers[id].registered && s.fibers[id].fiber.state == FiberState.Running
  }

  /** No fiber is left from a run whose Stop timed out. */
  ghost predicate NoStaleFibers(s: State) { forall run: int :: run < |s.runs| - 1 ==> Live(s, run) == {} }

  predicate HeldUp(r: Rec, run: int) {
    r.task.Some? && r.task.value.run == run && r.task.value.pc.Executing? && r.fiber.state == Blocked
  }

  /** Every slot of the current run is held by a blocked fiber, and no other fiber is in flight. */
  ghost predicate Frozen(s: State, holders: set<FiberID>) {
    && |holders| == s.numWorkers
    && (forall id :: id in holders ==> id in s.fibers && HeldUp(s.fibers[id], |s.runs| - 1))
    && (forall id :: id in s.fibers && s.fibers[id].task.Some? ==> id in holders || s.fibers[id].task.value.pc.Exited?)
  }

  lemma SameWhenNoLarger(a: set<FiberID>, b: set<FiberID>)
    requires a <= b && |b| <= |a|
    ensures a == b
  {
    assert b == a + (b - a);
  }

  lemma BlockedHoldSlots(s: State)
    requires Inv(s) && |s.runs| > 0 && NoStaleFibers(s)
    ensures BlockedScan(s) <= Live(s, |s.runs| - 1)
    ensures forall id :: id in BlockedScan(s) ==> HeldUp(s.fibers[id], |s.runs| - 1)
  {
    forall id | id in BlockedScan(s)
      ensures HeldUp(s.fibers[id], |s.runs| - 1)
    {
      assert RecOk(s.fibers[id], HoldOf(s.loop, id), PhaseOf(s));
      var run := s.fibers[id].task.value.run;
      assert id in Live(s, run);
    }
  }

  lemma ScanFreezes(s: State)
    requires Inv(s) && |s.runs| > 0 && NoStaleFibers(s)
    requires |BlockedScan(s)| >= s.numWorkers
    ensures BlockedScan(s) == Live(s, |s.runs| - 1)
    ensures Frozen(s, BlockedScan(s))
  {
    var cur := |s.runs| - 1;
    BlockedHoldSlots(s);
    SameWhenNoLarger(BlockedScan(s), Live(s, cur));
    forall id | id in s.fibers && s.fibers[id].task.Some? && !s.fibers[id].task.value.pc.Exited?
      ensures id in BlockedScan(s)
    {
      assert RecOk(s.fibers[id], HoldOf(s.loop, id), PhaseOf(s));
      assert id in Live(s, s.fibers[id].task.value.run);
    }
  }

  /** The holders are all of the current run, and nobody else is in flight. */
  lemma FrozenHasNoStale(s: State, holders: set<FiberID>)
    requires Frozen(s, holders)
    ensures NoStaleFibers(s)
  {
    forall run: int | run < |s.runs| - 1 ensures Live(s, run) == {} {
      forall id | id in s.fibers ensures id !in Live(s, run) {}
    }
  }

  /**
   The detector's slot-exhaustion test is exact about the slots: if a scan of a running runtime
   finds at least numWorkers blocked fibers, then these hold all the slots and no other fiber is
   in flight, if and only if no fiber is left over from a timed-out Stop; and then none runs.
   */
  lemma SlotExhaustionIsReal(numWorkers: int, maxFibers: nat, main: FiberID, actions: seq<Action>)
    ensures var s := After(Init(numWorkers, maxFibers, main), actions);
      IsRunning(s) && |BlockedScan(s)| >= s.numWorkers ==>
        && (Frozen(s, BlockedScan(s)) <==> NoStaleFibers(s))
        && (NoStaleFibers(s) ==> BlockedScan(s) == Live(s, |s.runs| - 1) && RunningScan(s) == {})
  {
    var s := After(Init(numWorkers, maxFibers, main), actions);
    Reachable(numWorkers, maxFibers, main, actions);
    if IsRunning(s) && |BlockedScan(s)| >= s.numWorkers {
      if Frozen(s, BlockedScan(s)) { FrozenHasNoStale(s, BlockedScan(s)); }
      if NoStaleFibers(s) {
        ScanFreezes(s);
        FrozenLoop(s, BlockedScan(s));
        NothingRuns(s);
      }
    }
  }

  /** With all slots held, the loop is not about to dispatch. */
  lemma FrozenLoop(s: State, holders: set<FiberID>)
    requires Inv(s) && Frozen(s, holders)
    ensures !s.loop.Choosing? && !s.loop.Popped? && !s.loop.Dispatching?
    ensures s.loop.Filling? ==> s.loop.active == s.numWorkers
  {
    var cur := |s.runs| - 1;
    assert holders <= Live(s, cur);
    SubsetSize(holders, Live(s, cur));
  }

  lemma NothingRuns(s: State)
    requires Inv(s) && Frozen(s, BlockedScan(s)) && !s.loop.Dispatching?
    ensures RunningScan(s) == {}
  {
    forall id | id in s.fibers ensures id !in RunningScan(s) {
      assert RecOk(s.fibers[id], HoldOf(s.loop, id), PhaseOf(s));
      assert id in BlockedScan(s) ==> s.fibers[id].fiber.state == Blocked;
    }
  }

  // ---------------------------------------------------------------- no progress until outside help

  /** Anything but a wake-up from outside the runtime, or a new run. */
  predicate Inside(a: Action) { !(a.TaskUnblock? && a.waker.None?) && !a.StartStep? }

  /** The goroutine does not move. */
  predicate Same(r: Rec, r': Rec) {
    r'.task == r.task && (r.task.Some? && r.task.value.pc.Executing? ==> r'.fiber == r.fiber)
  }

  predicate Still(r: Rec) {
    r.task.Some? ==> r.task.value.pc.Exited? || (r.task.value.pc.Executing? && r.fiber.state == Blocked)
  }

  lemma StillEffects(s: State, r: Rec, h: Hold)
    requires Still(r) && PlaceOk(r, h)
    ensures Same(r, SpawnEffect(s, r).rec) && Same(r, TaskEffect(r).rec)
  {
  }

  predicate StillIn(s: State, id: FiberID) {
    && id in s.fibers && Still(s.fibers[id])
    && !s.loop.Popped? && !s.loop.Dispatching? && !s.loop.Choosing?
  }

  lemma StillOwn(s: State, a: Action, id: FiberID)
    requires a.SpawnStep? || a.TaskStep? || a.StopSubtract?
    requires StillIn(s, id) && PlaceOk(s.fibers[id], HoldOf(s.loop, id))
    ensures var s' := Do(s, a); id in s'.fibers && Same(s.fibers[id], s'.fibers[id])
  {
    StillEffects(s, s.fibers[id], HoldOf(s.loop, id));
    hide SpawnEffect;
    hide TaskEffect;
  }

  lemma StillTask(s: State, a: Action, id: FiberID)
    requires InsideTask(a) && StillIn(s, id)
    requires a.TaskUnblock? ==> a.waker.Some? && !MayWake(s, a.waker)
    ensures var s' := Do(s, a); id in s'.fibers && Same(s.fibers[id], s'.fibers[id])
  {
    if a.id == id {
      assert Do(s, a) == s;
    }
  }

  lemma StillStop(s: State, id: FiberID)
    requires StillIn(s, id)
    ensures var s' := StopNext(s); id in s'.fibers && Same(s.fibers[id], s'.fibers[id])
  {
    match s.life {
      case StopScheduler =>
      case StopCleared =>
      case _ => assert StopNext(s).fibers == s.fibers;
    }
  }

  lemma StillLoop(s: State, id: FiberID)
    requires StillIn(s, id)
    ensures var s' := LoopNext(s); id in s'.fibers && Same(s.fibers[id], s'.fibers[id])
  {
    assert LoopNext(s).fibers == s.fibers;
  }

  lemma StillRest(s: State, a: Action, id: FiberID)
    requires StillIn(s, id) && (a.LoopPop? || a.LoopTick? || a.LoopReceive? || a.LoopCancelled? || a.ResetStep?)
    ensures var s' := Do(s, a); id in s'.fibers && Same(s.fibers[id], s'.fibers[id])
  {
  }

  /** No step from inside moves a goroutine that is blocked or gone. */
  lemma StillStep(s: State, a: Action, id: FiberID)
    requires Inside(a) && StillIn(s, id) && PlaceOk(s.fibers[id], HoldOf(s.loop, id))
    requires a.TaskUnblock? ==> !MayWake(s, a.waker)
    ensures var s' := Do(s, a); id in s'.fibers && Same(s.fibers[id], s'.fibers[id])
  {
    hide LoopNext;
    hide StopNext;
    hide ResetNext;
    hide Still;
    hide PlaceOk;
    if InsideTask(a) {
      StillTask(s, a, id);
    } else if a.SpawnStep? || a.TaskStep? || a.StopSubtract? {
      StillOwn(s, a, id);
    } else if a.StopStep? {
      StillStop(s, id);
    } else if a.LoopStep? {
      StillLoop(s, id);
    } else if !a.CancelRun? && !a.StopTimeout? {
      StillRest(s, a, id);
    }
  }

  /** Only Start adds runs, and only Spawn adds fibers. */
  predicate SameExtent(s: State, s': State) { |s'.runs| == |s.runs| && s'.fibers.Keys == s.fibers.Keys }

  lemma LoopExtent(s: State)
    ensures SameExtent(s, LoopNext(s))
  {
    match s.loop {
      case Popped(a, id) => assert id in s.fibers ==> s.fibers[id := s.fibers[id]].Keys == s.fibers.Keys;
      case Dispatching(a, id) => assert id in s.fibers ==> s.fibers[id := s.fibers[id]].Keys == s.fibers.Keys;
      case _ => assert LoopNext(s).fibers == s.fibers;
    }
  }

  lemma StopExtent(s: State)
    ensures SameExtent(s, StopNext(s))
  {
  }

  lemma ResetExtent(s: State)
    ensures SameExtent(s, ResetNext(s))
  {
  }

  lemma TaskExtent(s: State, a: Action)
    requires InsideTask(a)
    ensures SameExtent(s, Do(s, a))
  {
  }

  lemma StepExtent(s: State, a: Action)
    requires !a.StartStep?
    ensures |Do(s, a).runs| == |s.runs|
    ensures !a.SpawnStep? ==> Do(s, a).fibers.Keys == s.fibers.Keys
  {
    hide LoopNext;
    hide StopNext;
    hide ResetNext;
    hide SpawnEffect;
    hide TaskEffect;
    match a {
      case LoopStep => LoopExtent(s);
      case StopStep => StopExtent(s);
      case ResetStep => ResetExtent(s);
      case _ => if InsideTask(a) { TaskExtent(s, a); }
    }
  }

  /** A new fiber has not been started. */
  lemma NewFibers(s: State, a: Action, id: FiberID)
    requires !a.StartStep? && id !in s.fibers && id in Do(s, a).fibers
    ensures Do(s, a).fibers[id].task.None?
  {
    StepExtent(s, a);
    assert a.SpawnStep?;
    hide SpawnEffect;
  }

  lemma NobodyInsideWakes(s: State, holders: set<FiberID>, a: Action)
    requires Frozen(s, holders) && Inside(a) && a.TaskUnblock?
    ensures !MayWake(s, a.waker)
  {
  }

  ghost predicate Unmoved(s: State, s': State) {
    && (forall id :: id in s.fibers ==> id in s'.fibers && Same(s.fibers[id], s'.fibers[id]))
    && (forall id :: id in s'.fibers && id !in s.fibers ==> s'.fibers[id].task.None?)
  }

  lemma FrozenCarries(s: State, s': State, holders: set<FiberID>)
    requires Frozen(s, holders) && Unmoved(s, s') && |s'.runs| == |s.runs| && s'.numWorkers == s.numWorkers
    ensures Frozen(s', holders)
  {
  }

  lemma FrozenUnmoved(s: State, holders: set<FiberID>, a: Action)
    requires Inv(s) && Frozen(s, holders) && Inside(a)
    ensures Unmoved(s, Do(s, a))
  {
    var s' := Do(s, a);
    FrozenLoop(s, holders);
    if a.TaskUnblock? { NobodyInsideWakes(s, holders, a); }
    hide Do;
    hide Counts;
    hide Slots;
    hide Lifecycle;
    hide FiberOk;
    hide LedgerOk;
    hide PhaseOk;
    hide PlaceOk;
    forall id | id in s.fibers ensures id in s'.fibers && Same(s.fibers[id], s'.fibers[id]) {
      assert RecOk(s.fibers[id], HoldOf(s.loop, id), PhaseOf(s));
      StillStep(s, a, id);
    }
    forall id | id in s'.fibers && id !in s.fibers ensures s'.fibers[id].task.None? {
      NewFibers(s, a, id);
    }
  }

  lemma FrozenStep(s: State, holders: set<FiberID>, a: Action)
    requires Inv(s) && Frozen(s, holders) && Inside(a)
    ensures Frozen(Do(s, a), holders) && Unmoved(s, Do(s, a))
  {
    hide Do;
    hide Inv;
    FrozenUnmoved(s, holders, a);
    StepExtent(s, a);
    SettingsStayStep(s, a);
    FrozenCarries(s, Do(s, a), holders);
  }

  /**
   Once every slot is held by a blocked fiber, no dispatch and no fiber step happens, for as
   long as nobody outside the runtime wakes a fiber: whatever Spawn, Stop, the loop and the
   goroutines do, every goroutine stays where it is.
   */
  lemma {:induction false} StuckUntilOutsideHelp(s: State, holders: set<FiberID>, later: seq<Action>)
    requires Inv(s) && Frozen(s, holders)
    requires forall i :: 0 <= i < |later| ==> Inside(later[i])
    ensures Frozen(After(s, later), holders) && Unmoved(s, After(s, later))
    decreases |later|
  {
    if later != [] {
      hide Inv;
      hide Do;
      hide HeldUp;
      var s' := Do(s, later[0]);
      StepKeepsInv(s, later[0]);
      FrozenStep(s, holders, later[0]);
      StuckUntilOutsideHelp(s', holders, later[1..]);
    }
  }
}
