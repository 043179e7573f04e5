/**
 When the fiber functions of a runtime rest for good: exactly when no fiber runs, is being
 started, is held by the execution loop, or is queued while the loop can still get to it.
 */
module RuntimeRest {
  import opened Fibers
  import opened Registries
  import opened Sequences
  import opened Runtime
  import opened RuntimeInvariant
  import opened RuntimeTheorems
  import opened RuntimeSlots

  // ---- What can still move ----

  /** Started and not yet in its function, or running in it. */
  predicate Moves(r: Rec) { r.task.Some? && (r.task.value.pc.Launched? || InFunction(r, FiberState.Running)) }

  /** Past its function, with the result still to be sent to the loop of `run`. */
  predicate Leaving(r: Rec, run: int) {
    r.task.Some? && r.task.value.run == run
    && (r.task.value.pc.Ended? || r.task.value.pc.Marked? || r.task.value.pc.Removed? || r.task.value.pc.Reporting?)
  }

  /** The loop has a free slot, or a result that frees one is there or on its way. */
  ghost predicate SlotComes(s: State)
    requires s.loop.Selecting? || s.loop.Filling?
  {
    || s.loop.active < s.numWorkers
    || Results(s) > 0
    || exists id :: id in s.fibers && Leaving(s.fibers[id], |s.runs| - 1)
  }

  /** The loop can get to take a fiber off the queue. */
  ghost predicate CanPop(s: State) {
    s.loop.Choosing? || ((s.loop.Selecting? || s.loop.Filling?) && !s.schedulerStopped && SlotComes(s))
  }

  /** The fiber can get to move without help from outside. */
  ghost predicate Stirs(s: State, id: FiberID)
    requires id in s.fibers
  {
    Moves(s.fibers[id]) || !HoldOf(s.loop, id).Loose? || (s.fibers[id].queued && CanPop(s))
  }

  ghost predicate NothingStirs(s: State) { forall id :: id in s.fibers ==> !Stirs(s, id) }

  // ---- Rest ----

  /** Anything but a Spawn, a wake-up from outside the runtime, or a new run. */
  predicate Within(a: Action) { Inside(a) && !a.SpawnStep? }

  ghost predicate AllWithin(actions: seq<Action>) { forall i :: 0 <= i < |actions| ==> Within(actions[i]) }

  /** Inside its function. */
  predicate AtWork(r: Rec) { r.task.Some? && r.task.value.pc.Executing? }

  /** No fiber enters or leaves its function, and none moves in it. */
  ghost predicate FunctionsRest(s: State, s': State) {
    && (forall id :: id in s.fibers && AtWork(s.fibers[id]) ==>
          id in s'.fibers && s'.fibers[id].task == s.fibers[id].task && s'.fibers[id].fiber == s.fibers[id].fiber)
    && (forall id :: id in s'.fibers && AtWork(s'.fibers[id]) ==> id in s.fibers && AtWork(s.fibers[id]))
  }

  /** Whatever happens without a Spawn, a wake-up from outside or a new run. */
  ghost predicate RestsForever(s: State) {
    forall later: seq<Action> :: AllWithin(later) ==> FunctionsRest(s, After(s, later))
  }

  lemma RestsAlone(s: State)
    ensures FunctionsRest(s, s)
  {
  }

  lemma RestsTwice(s: State, t: State, u: State)
    requires FunctionsRest(s, t)
    ensures FunctionsRest(t, u) <==> FunctionsRest(s, u)
  {
  }

  // ---- One record at rest ----

  /** A step leaves the record at rest and gives it nothing new to do. */
  ghost predicate Calm(r: Rec, r': Rec) {
    && !Moves(r') && (AtWork(r) <==> AtWork(r')) && (AtWork(r) ==> r'.task == r.task && r'.fiber == r.fiber)
    && (r'.queued ==> r.queued)
    && (forall run: int :: Leaving(r', run) ==> Leaving(r, run))
  }

  lemma SameIsCalm(r: Rec)
    requires !Moves(r)
    ensures Calm(r, r)
  {
  }

  lemma TaskCalm(r: Rec, h: Hold)
    requires !Moves(r) && FiberOk(r, h)
    ensures Calm(r, TaskEffect(r).rec)
  {
  }

  /** What Stop and Reset do to one record. */
  lemma LifeCalm(r: Rec)
    requires !Moves(r)
    ensures Calm(r, r.(queued := false)) && Calm(r, Claim(r)) && Calm(r, Lower(r.(reaping := false)).rec)
    ensures Calm(r, r.(registered := false, committed := false))
  {
  }

  lemma ExitCalm(r: Rec)
    requires r.task.Some? && r.task.value.pc.Reporting?
    ensures Calm(r, At(r, Exited(r.task.value.pc.present)))
  {
  }

  // ---- One step at rest ----

  /** Nobody runs, so nobody returns, blocks or wakes another. */
  lemma NobodyActs(s: State, a: Action)
    requires NothingStirs(s) && Within(a) && (a.TaskReturn? || a.TaskBlock? || a.TaskUnblock?)
    ensures Do(s, a) == s
  {
    assert a.id in s.fibers ==> !Stirs(s, a.id);
    if a.TaskUnblock? { assert a.waker.value in s.fibers ==> !Stirs(s, a.waker.value); }
    hide Stirs;
  }

  lemma TaskStepCalm(s: State, a: Action, id: FiberID)
    requires NothingStirs(s) && (a.TaskStep? || a.TaskReport? || a.TaskAbandon?)
    requires id in s.fibers && FiberOk(s.fibers[id], HoldOf(s.loop, id))
    ensures var s' := Do(s, a); id in s'.fibers && Calm(s.fibers[id], s'.fibers[id])
  {
    assert !Stirs(s, id);
    var r := s.fibers[id];
    SameIsCalm(r);
    TaskCalm(r, HoldOf(s.loop, id));
    if r.task.Some? && r.task.value.pc.Reporting? { ExitCalm(r); }
    hide Calm; hide TaskEffect; hide NothingStirs; hide Stirs; hide FiberOk;
  }

  lemma LoopCalm(s: State, a: Action)
    requires NothingStirs(s) && (a.LoopTick? || a.LoopReceive? || a.LoopCancelled? || a.LoopPop? || a.LoopStep?)
    requires s.loop.Popped? || s.loop.Dispatching? ==> s.loop.id in s.fibers
    ensures var s' := Do(s, a); s'.fibers == s.fibers && !s'.loop.Popped? && !s'.loop.Dispatching?
  {
    NothingHeld(s);
    if a.LoopPop? {
      assert a.id in s.fibers && s.fibers[a.id].queued ==> !Stirs(s, a.id);
      hide Moves;
    } else {
      hide NothingStirs; hide Results;
    }
  }

  lemma NothingHeld(s: State)
    requires NothingStirs(s) && (s.loop.Popped? || s.loop.Dispatching? ==> s.loop.id in s.fibers)
    ensures !s.loop.Popped? && !s.loop.Dispatching?
  {
    assert s.loop.Popped? || s.loop.Dispatching? ==> !Stirs(s, s.loop.id);
  }

  lemma StopCalm(s: State, id: FiberID)
    requires id in s.fibers && !Moves(s.fibers[id])
    ensures var s' := StopNext(s); id in s'.fibers && Calm(s.fibers[id], s'.fibers[id]) && s'.loop == s.loop
  {
    hide Live; hide Calm; hide Claim; hide Moves;
    SameIsCalm(s.fibers[id]);
    LifeCalm(s.fibers[id]);
    match s.life {
      case StopScheduler =>
      case StopCleared =>
      case _ => assert StopNext(s).fibers == s.fibers && StopNext(s).loop == s.loop;
    }
  }

  lemma OtherLifeCalm(s: State, a: Action, id: FiberID)
    requires id in s.fibers && !Moves(s.fibers[id])
    requires a.ResetStep? || a.StopSubtract? || a.CancelRun? || a.StopTimeout?
    ensures var s' := Do(s, a); id in s'.fibers && Calm(s.fibers[id], s'.fibers[id]) && s'.loop == s.loop
  {
    hide NonMain; hide Calm; hide Moves;
    SameIsCalm(s.fibers[id]);
    LifeCalm(s.fibers[id]);
  }

  lemma StepCalm(s: State, a: Action, id: FiberID)
    requires Inv(s) && NothingStirs(s) && Within(a) && id in s.fibers
    ensures var s' := Do(s, a); id in s'.fibers && Calm(s.fibers[id], s'.fibers[id])
    ensures !Do(s, a).loop.Popped? && !Do(s, a).loop.Dispatching?
  {
    assert RecOk(s.fibers[id], HoldOf(s.loop, id), PhaseOf(s)) && !Stirs(s, id);
    assert s.loop.Popped? || s.loop.Dispatching? ==> s.loop.id in s.fibers;
    assert !Moves(s.fibers[id]);
    NothingHeld(s);
    SameIsCalm(s.fibers[id]);
    hide Inv; hide Calm; hide LoopNext; hide StopNext; hide ResetNext; hide TaskEffect; hide Stirs; hide Moves;
    hide PlaceOk; hide LedgerOk; hide PhaseOk; hide FiberOk; hide NothingStirs;
    if a.TaskReturn? || a.TaskBlock? || a.TaskUnblock? {
      NobodyActs(s, a);
    } else if a.TaskStep? || a.TaskReport? || a.TaskAbandon? {
      TaskStepCalm(s, a, id);
    } else if a.StopStep? {
      StopCalm(s, id);
    } else if a.ResetStep? || a.StopSubtract? || a.CancelRun? || a.StopTimeout? {
      OtherLifeCalm(s, a, id);
    } else {
      LoopCalm(s, a);
    }
  }

  // ---- The loop at rest ----

  /** Steps of goroutines send only results that were on their way. */
  lemma ReportsWereComing(s: State, a: Action)
    requires Lifecycle(s) && (a.TaskStep? || a.TaskReport? || a.TaskAbandon?)
    ensures var s' := Do(s, a);
      && s'.loop == s.loop && s'.schedulerStopped == s.schedulerStopped && s'.numWorkers == s.numWorkers
      && |s'.runs| == |s.runs| && s'.fibers.Keys == s.fibers.Keys
      && (Results(s') > 0 ==> Results(s) > 0 || (a.id in s.fibers && Leaving(s.fibers[a.id], |s.runs| - 1)))
  {
    hide TaskEffect; hide Lifecycle;
  }

  lemma TaskPops(s: State, a: Action)
    requires Inv(s) && NothingStirs(s) && (a.TaskStep? || a.TaskReport? || a.TaskAbandon?)
    ensures CanPop(Do(s, a)) ==> CanPop(s)
  {
    var s' := Do(s, a);
    assert Lifecycle(s);
    ReportsWereComing(s, a);
    forall id | id in s.fibers ensures id in s'.fibers && Calm(s.fibers[id], s'.fibers[id]) {
      assert RecOk(s.fibers[id], HoldOf(s.loop, id), PhaseOf(s));
      TaskStepCalm(s, a, id);
    }
    hide Do; hide Inv; hide Lifecycle; hide Leaving; hide NothingStirs; hide Moves;
    if CanPop(s') && !s.loop.Choosing? && !(s.loop.active < s.numWorkers) && !(Results(s') > 0) {
      var id :| id in s'.fibers && Leaving(s'.fibers[id], |s'.runs| - 1);
      assert id in s'.fibers.Keys;
      assert Calm(s.fibers[id], s'.fibers[id]);
    }
  }

  lemma LoopPops(s: State, a: Action)
    requires a.LoopTick? || a.LoopReceive? || a.LoopCancelled? || a.LoopStep?
    requires !s.loop.Popped? && !s.loop.Dispatching?
    ensures CanPop(Do(s, a)) ==> CanPop(s)
  {
    assert Do(s, a).fibers == s.fibers && |Do(s, a).runs| == |s.runs|;
    hide Leaving;
  }

  lemma CancelLeavesRuns(s: State)
    ensures var s' := CancelCurrent(s); |s'.runs| == |s.runs| && Results(s') == Results(s)
  {
  }

  lemma StopLeavesRest(s: State)
    requires !s.life.StopEntered?
    ensures var s' := StopNext(s); s'.runs == s.runs && s'.numWorkers == s.numWorkers && s'.loop == s.loop
    ensures s.schedulerStopped && !StopNext(s).schedulerStopped ==> s.loop.LoopExited?
  {
    hide Live; hide Claim; hide CancelCurrent;
  }

  lemma StopLeavesRuns(s: State)
    ensures var s' := StopNext(s);
      && |s'.runs| == |s.runs| && Results(s') == Results(s) && s'.numWorkers == s.numWorkers && s'.loop == s.loop
      && (s.schedulerStopped && !s'.schedulerStopped ==> s.loop.LoopExited?)
  {
    CancelLeavesRuns(s);
    hide Live; hide Claim;
    if !s.life.StopEntered? { StopLeavesRest(s); }
  }

  lemma LifeLeavesRuns(s: State, a: Action)
    requires Lifecycle(s) && (a.ResetStep? || a.StopSubtract? || a.CancelRun? || a.StopTimeout?)
    ensures var s' := Do(s, a); |s'.runs| == |s.runs| && Results(s') == Results(s) && s'.numWorkers == s.numWorkers
    ensures var s' := Do(s, a);
      s'.loop == s.loop && (s.schedulerStopped && !s'.schedulerStopped ==> s.loop.LoopExited? || s.loop.NoLoop?)
  {
    hide NonMain;
  }

  lemma LifePops(s: State, a: Action)
    requires Inv(s) && NothingStirs(s)
    requires a.StopStep? || a.ResetStep? || a.StopSubtract? || a.CancelRun? || a.StopTimeout?
    ensures CanPop(Do(s, a)) ==> CanPop(s)
  {
    var s' := Do(s, a);
    assert Lifecycle(s);
    if a.StopStep? { StopLeavesRuns(s); } else { LifeLeavesRuns(s, a); }
    NoNewFibers(s, a);
    forall id | id in s.fibers ensures id in s'.fibers && Calm(s.fibers[id], s'.fibers[id]) {
      StepCalm(s, a, id);
    }
    hide Do; hide Inv; hide Lifecycle; hide Leaving; hide NothingStirs; hide Moves; hide Results;
    if CanPop(s') && !s.loop.Choosing? && !(s.loop.active < s.numWorkers) && !(Results(s') > 0) {
      var id :| id in s'.fibers && Leaving(s'.fibers[id], |s'.runs| - 1);
      assert id in s'.fibers.Keys;
      assert Calm(s.fibers[id], s'.fibers[id]);
    }
  }

  lemma NoNewFibers(s: State, a: Action)
    requires Within(a)
    ensures Do(s, a).fibers.Keys == s.fibers.Keys
  {
    StepExtent(s, a);
    hide Do;
  }

  lemma StepPops(s: State, a: Action)
    requires Inv(s) && NothingStirs(s) && Within(a)
    ensures CanPop(Do(s, a)) ==> CanPop(s)
  {
    assert s.loop.Popped? || s.loop.Dispatching? ==> s.loop.id in s.fibers;
    NothingHeld(s);
    hide Inv; hide NothingStirs; hide CanPop;
    if a.TaskReturn? || a.TaskBlock? || a.TaskUnblock? {
      NobodyActs(s, a);
    } else if a.TaskStep? || a.TaskReport? || a.TaskAbandon? {
      TaskPops(s, a);
    } else if a.LoopTick? || a.LoopReceive? || a.LoopCancelled? || a.LoopStep? {
      LoopPops(s, a);
    } else if a.LoopPop? {
      NothingToPop(s, a.id);
    } else {
      LifePops(s, a);
    }
  }

  lemma NothingToPop(s: State, id: FiberID)
    requires NothingStirs(s)
    ensures Do(s, LoopPop(id)) == s
  {
    assert id in s.fibers ==> !Stirs(s, id);
    hide Moves;
  }

  // ---- At rest for good ----

  lemma RestStep(s: State, a: Action)
    requires Inv(s) && NothingStirs(s) && Within(a)
    ensures NothingStirs(Do(s, a)) && FunctionsRest(s, Do(s, a))
  {
    var s' := Do(s, a);
    NoNewFibers(s, a);
    StepPops(s, a);
    forall id | id in s.fibers
      ensures Calm(s.fibers[id], s'.fibers[id]) && !s'.loop.Popped? && !s'.loop.Dispatching?
    {
      StepCalm(s, a, id);
    }
    hide Do; hide Inv; hide CanPop; hide AtWork; hide Moves; hide Leaving;
    assert forall id :: id in s'.fibers <==> id in s.fibers by {
      assert forall id :: id in s'.fibers.Keys <==> id in s.fibers.Keys;
    }
    forall id | id in s'.fibers ensures !Stirs(s', id) {
      assert Calm(s.fibers[id], s'.fibers[id]) && !Stirs(s, id);
    }
  }

  /** When nothing stirs, no fiber enters, leaves or moves in its function until help comes. */
  lemma {:induction false} RestUntilOutsideHelp(s: State, later: seq<Action>)
    requires Inv(s) && NothingStirs(s) && AllWithin(later)
    ensures NothingStirs(After(s, later)) && FunctionsRest(s, After(s, later))
    decreases |later|
  {
    hide Inv; hide Do; hide NothingStirs; hide Within; hide FunctionsRest;
    if later == [] {
      RestsAlone(s);
    } else {
      StepKeepsInv(s, later[0]);
      RestStep(s, later[0]);
      RestUntilOutsideHelp(Do(s, later[0]), later[1..]);
      RestsTwice(s, Do(s, later[0]), After(s, later));
    }
  }

  // ---- What stirs does move ----

  ghost predicate Sound(s: State) { Inv(s) && s.numWorkers <= RESULT_CAPACITY }

  lemma SoundStep(s: State, a: Action)
    requires Sound(s)
    ensures Sound(Do(s, a))
  {
    StepKeepsInv(s, a);
    SettingsStayStep(s, a);
    hide Inv; hide Do;
  }

  lemma {:induction false} WithinPrefix(a: Action, later: seq<Action>, s: State)
    requires Within(a) && AllWithin(later)
    ensures AllWithin([a] + later) && After(s, [a] + later) == After(Do(s, a), later)
  {
    assert ([a] + later)[1..] == later;
    hide Do; hide Within;
  }

  /** A step after which functions have moved, or can still move. */
  lemma NoRestBy(s: State, a: Action)
    requires Within(a) && (!FunctionsRest(s, Do(s, a)) || !RestsForever(Do(s, a)))
    ensures !RestsForever(s)
  {
    var t := Do(s, a);
    hide Do; hide Within; hide FunctionsRest;
    WithinPrefix(a, [], s);
    assert After(t, []) == t;
    if FunctionsRest(s, t) {
      var later :| AllWithin(later) && !FunctionsRest(t, After(t, later));
      WithinPrefix(a, later, s);
      RestsTwice(s, t, After(t, later));
    }
  }

  lemma EntersFunction(r: Rec, h: Hold)
    requires r.task.Some? && r.task.value.pc.Launched? && FiberOk(r, h)
    ensures !AtWork(r) && AtWork(TaskEffect(r).rec)
  {
  }

  lemma NotAtRest(s: State, s': State, id: FiberID)
    requires id in s.fibers && id in s'.fibers && (AtWork(s.fibers[id]) <==> !AtWork(s'.fibers[id]))
    ensures !FunctionsRest(s, s')
  {
  }

  lemma MovesMoves(s: State, id: FiberID)
    requires Inv(s) && id in s.fibers && Moves(s.fibers[id])
    ensures !RestsForever(s)
  {
    var r := s.fibers[id];
    assert RecOk(r, HoldOf(s.loop, id), PhaseOf(s));
    hide Inv; hide RestsForever; hide TaskEffect; hide FunctionsRest;
    if r.task.value.pc.Launched? {
      EntersFunction(r, HoldOf(s.loop, id));
      NotAtRest(s, Do(s, TaskStep(id)), id);
      NoRestBy(s, TaskStep(id));
    } else {
      NotAtRest(s, Do(s, TaskReturn(id)), id);
      NoRestBy(s, TaskReturn(id));
    }
  }

  lemma DispatchingMoves(s: State, id: FiberID)
    requires Sound(s) && id in s.fibers && s.loop.Dispatching? && s.loop.id == id
    ensures !RestsForever(s)
  {
    assert LoopAlive(s) && |s.runs| > 0;
    SoundStep(s, LoopStep);
    assert Moves(Do(s, LoopStep).fibers[id]);
    hide Inv; hide RestsForever; hide Do;
    MovesMoves(Do(s, LoopStep), id);
    NoRestBy(s, LoopStep);
  }

  lemma PoppedMoves(s: State, id: FiberID)
    requires Sound(s) && id in s.fibers && s.loop.Popped? && s.loop.id == id
    ensures !RestsForever(s)
  {
    assert RecOk(s.fibers[id], HoldOf(s.loop, id), PhaseOf(s));
    SoundStep(s, LoopStep);
    assert s.fibers[id].fiber.state == Ready;
    hide Inv; hide RestsForever; hide PlaceOk; hide LedgerOk; hide PhaseOk; hide FiberOk; hide Sound;
    var t := Do(s, LoopStep);
    assert t.loop.Dispatching? && t.loop.id == id && id in t.fibers;
    hide Do;
    DispatchingMoves(t, id);
    NoRestBy(s, LoopStep);
  }

  lemma ChoosingMoves(s: State, id: FiberID)
    requires Sound(s) && id in s.fibers && s.fibers[id].queued && s.loop.Choosing?
    ensures !RestsForever(s)
  {
    SoundStep(s, LoopPop(id));
    hide Sound; hide RestsForever;
    PoppedMoves(Do(s, LoopPop(id)), id);
    NoRestBy(s, LoopPop(id));
  }

  /** With a free slot the loop gets from the ticker to the queue. */
  lemma FreeSlotMoves(s: State, id: FiberID)
    requires Sound(s) && id in s.fibers && s.fibers[id].queued && !s.schedulerStopped
    requires (s.loop.Selecting? || s.loop.Filling?) && s.loop.active < s.numWorkers
    ensures !RestsForever(s)
    decreases s.loop.Selecting?
  {
    var a := if s.loop.Selecting? then LoopTick else LoopStep;
    SoundStep(s, a);
    hide Sound; hide RestsForever;
    if s.loop.Selecting? { FreeSlotMoves(Do(s, a), id); } else { ChoosingMoves(Do(s, a), id); }
    NoRestBy(s, a);
  }

  /** A result that is there frees a slot. */
  lemma ResultMoves(s: State, id: FiberID)
    requires Sound(s) && id in s.fibers && s.fibers[id].queued && !s.schedulerStopped
    requires s.loop.Selecting? && Results(s) > 0
    ensures !RestsForever(s)
  {
    assert s.loop.active <= s.numWorkers && 0 < s.numWorkers by { assert LoopAlive(s) && Slots(s); }
    SoundStep(s, LoopReceive);
    hide Sound; hide RestsForever;
    FreeSlotMoves(Do(s, LoopReceive), id);
    NoRestBy(s, LoopReceive);
  }

  /** The channel has room for the result of every live goroutine. */
  lemma RoomForResult(s: State, j: FiberID)
    requires Sound(s) && LoopAlive(s) && j in s.fibers && Leaving(s.fibers[j], |s.runs| - 1)
    ensures |s.runs| > 0 && Results(s) < RESULT_CAPACITY
  {
    assert j in Live(s, |s.runs| - 1);
    SubsetSize({j}, Live(s, |s.runs| - 1));
  }

  lemma OnlyStartedLeave(s: State, j: FiberID, id: FiberID)
    requires Inv(s) && j in s.fibers && id in s.fibers && s.fibers[j].task.Some? && s.fibers[id].queued
    ensures j != id
  {
    assert RecOk(s.fibers[id], HoldOf(s.loop, id), PhaseOf(s));
  }

  function StepsLeft(pc: TaskPC): nat {
    if pc.Ended? then 3 else if pc.Marked? then 2 else if pc.Removed? then 1 else 0
  }

  lemma LeavingGoesOn(r: Rec, run: int)
    requires Leaving(r, run) && !r.task.value.pc.Reporting?
    ensures var r' := TaskEffect(r).rec; Leaving(r', run) && StepsLeft(r'.task.value.pc) < StepsLeft(r.task.value.pc)
  {
  }

  lemma ReportArrives(s: State, j: FiberID, id: FiberID)
    requires j in s.fibers && id in s.fibers && j != id && |s.runs| > 0 && Results(s) < RESULT_CAPACITY
    requires Leaving(s.fibers[j], |s.runs| - 1) && s.fibers[j].task.value.pc.Reporting?
    ensures var t := Do(s, TaskReport(j));
      && t.loop == s.loop && t.schedulerStopped == s.schedulerStopped && Results(t) > 0
      && id in t.fibers && t.fibers[id] == s.fibers[id]
  {
  }

  lemma LeavesOthers(s: State, j: FiberID, id: FiberID)
    requires j in s.fibers && id in s.fibers && j != id
    ensures var t := Do(s, TaskStep(j));
      && t.loop == s.loop && t.schedulerStopped == s.schedulerStopped && t.runs == s.runs
      && id in t.fibers && t.fibers[id] == s.fibers[id] && j in t.fibers && t.fibers[j] == TaskEffect(s.fibers[j]).rec
  {
    hide TaskEffect;
  }

  /** A goroutine past its function gets to report, which frees a slot. */
  lemma {:induction false} LeavingMoves(s: State, j: FiberID, id: FiberID)
    requires Sound(s) && id in s.fibers && s.fibers[id].queued && !s.schedulerStopped
    requires s.loop.Selecting? && j in s.fibers && Leaving(s.fibers[j], |s.runs| - 1)
    ensures !RestsForever(s)
    decreases StepsLeft(s.fibers[j].task.value.pc)
  {
    OnlyStartedLeave(s, j, id);
    RoomForResult(s, j);
    hide Inv; hide RestsForever; hide TaskEffect; hide Sound; hide Do; hide Results;
    if s.fibers[j].task.value.pc.Reporting? {
      SoundStep(s, TaskReport(j));
      ReportArrives(s, j, id);
      ResultMoves(Do(s, TaskReport(j)), id);
      NoRestBy(s, TaskReport(j));
    } else {
      SoundStep(s, TaskStep(j));
      LeavesOthers(s, j, id);
      LeavingGoesOn(s.fibers[j], |s.runs| - 1);
      LeavingMoves(Do(s, TaskStep(j)), j, id);
      NoRestBy(s, TaskStep(j));
    }
  }

  /** Back at the select, a slot that comes is used. */
  lemma SelectingMoves(s: State, id: FiberID)
    requires Sound(s) && id in s.fibers && s.fibers[id].queued && !s.schedulerStopped
    requires s.loop.Selecting? && SlotComes(s)
    ensures !RestsForever(s)
  {
    hide Sound; hide RestsForever; hide Leaving;
    if s.loop.active < s.numWorkers {
      FreeSlotMoves(s, id);
    } else if Results(s) > 0 {
      ResultMoves(s, id);
    } else {
      var j :| j in s.fibers && Leaving(s.fibers[j], |s.runs| - 1);
      LeavingMoves(s, j, id);
    }
  }

  lemma QueuedMoves(s: State, id: FiberID)
    requires Sound(s) && id in s.fibers && s.fibers[id].queued && CanPop(s)
    ensures !RestsForever(s)
  {
    hide Sound; hide RestsForever; hide Leaving;
    if s.loop.Choosing? {
      ChoosingMoves(s, id);
    } else if s.loop.Selecting? {
      SelectingMoves(s, id);
    } else if s.loop.active < s.numWorkers {
      FreeSlotMoves(s, id);
    } else {
      SoundStep(s, LoopStep);
      var t := Do(s, LoopStep);
      assert t.loop == Selecting(s.loop.active) && t.fibers == s.fibers && t.runs == s.runs;
      assert SlotComes(t);
      SelectingMoves(t, id);
      NoRestBy(s, LoopStep);
    }
  }

  lemma StirsMoves(s: State, id: FiberID)
    requires Sound(s) && id in s.fibers && Stirs(s, id)
    ensures !RestsForever(s)
  {
    hide RestsForever; hide CanPop; hide Inv; hide Moves;
    if Moves(s.fibers[id]) {
      MovesMoves(s, id);
    } else if s.loop.Popped? && s.loop.id == id {
      PoppedMoves(s, id);
    } else if s.loop.Dispatching? && s.loop.id == id {
      DispatchingMoves(s, id);
    } else {
      QueuedMoves(s, id);
    }
  }

  lemma RestsIff(s: State)
    requires Sound(s)
    ensures RestsForever(s) <==> NothingStirs(s)
  {
    hide Inv; hide Stirs; hide FunctionsRest;
    if NothingStirs(s) {
      forall later: seq<Action> | AllWithin(later) ensures FunctionsRest(s, After(s, later)) {
        RestUntilOutsideHelp(s, later);
      }
    } else {
      var id :| id in s.fibers && Stirs(s, id);
      hide RestsForever;
      StirsMoves(s, id);
    }
  }

  lemma ReachableIsSound(numWorkers: int, maxFibers: nat, main: FiberID, actions: seq<Action>)
    ensures Sound(After(Init(numWorkers, maxFibers, main), actions))
  {
    Reachable(numWorkers, maxFibers, main, actions);
    SettingsStay(Init(numWorkers, maxFibers, main), actions);
    hide Inv; hide After;
  }

  /**
   In every reachable state: no fiber enters, leaves or moves in its function in any continuation
   without a Spawn, a wake-up from outside or a new run, if and only if no fiber runs, is being
   started, is held by the loop, or is queued while the loop can still get to it.
   */
  lemma RestsIffNothingStirs(numWorkers: int, maxFibers: nat, main: FiberID, actions: seq<Action>)
    ensures var s := After(Init(numWorkers, maxFibers, main), actions); RestsForever(s) <==> NothingStirs(s)
  {
    ReachableIsSound(numWorkers, maxFibers, main, actions);
    RestsIff(After(Init(numWorkers, maxFibers, main), actions));
  }
}
