/**
 What Stop's join and the loop's bookkeeping guarantee (internal/runtime/runtime.go): without a
 Stop that timed out no goroutine of a run outlives it, and while a run is up its loop is, with
 every slot accounted for.
 */
module RuntimeJoin {
  import opened Fibers
  import opened Registries
  import opened Sequences
  import opened Runtime
  import opened RuntimeInvariant
  import opened RuntimeTheorems
  import opened RuntimeSlots

  // ---- Which goroutines are live ----

  predicate LiveAs(s: State, id: FiberID, run: int) { id in s.fibers && LiveIn(s.fibers[id], run) }

  /** The step ends the goroutine of `id`: by sending its result, or by giving up on a cancelled run. */
  predicate Exits(s: State, a: Action, id: FiberID) {
    && (a == TaskReport(id) || a == TaskAbandon(id))
    && id in s.fibers && s.fibers[id].task.Some? && s.fibers[id].task.value.pc.Reporting?
    && var run := s.fibers[id].task.value.run;
       if a.TaskReport? then run < |s.runs| && s.runs[run].results < RESULT_CAPACITY else RunCancelled(s, run)
  }

  /** The loop starts the goroutine of `id`. */
  predicate Launches(s: State, a: Action, id: FiberID) {
    a.LoopStep? && s.loop.Dispatching? && s.loop.id == id && id in s.fibers && |s.runs| > 0
  }

  lemma PutKeepsLive(s: State, x: FiberID, e: Effect, id: FiberID, run: int)
    requires LiveIn(e.rec, run) <==> LiveAs(s, x, run)
    ensures LiveAs(Put(s, x, e), id, run) <==> LiveAs(s, id, run)
  {
  }

  lemma SpawnLive(s: State, x: FiberID, id: FiberID, run: int)
    ensures LiveAs(Do(s, SpawnStep(x)), id, run) <==> LiveAs(s, id, run)
  {
    if x in s.fibers {
      SpawnLeaves(s, s.fibers[x]);
      hide SpawnEffect;
      PutKeepsLive(s, x, SpawnEffect(s, s.fibers[x]), id, run);
    } else {
      PutKeepsLive(s, x, Keep(NewCall()), id, run);
    }
    hide SpawnEffect;
  }

  lemma TaskStepLive(s: State, x: FiberID, id: FiberID, run: int)
    ensures LiveAs(Do(s, TaskStep(x)), id, run) <==> LiveAs(s, id, run)
  {
    if x in s.fibers {
      TaskLeaves(s.fibers[x]);
      hide TaskEffect;
      PutKeepsLive(s, x, TaskEffect(s.fibers[x]), id, run);
    }
    hide TaskEffect;
  }

  lemma FunctionLive(s: State, a: Action, id: FiberID, run: int)
    requires a.TaskReturn? || a.TaskBlock? || a.TaskUnblock?
    ensures LiveAs(Do(s, a), id, run) <==> LiveAs(s, id, run)
  {
    hide MayWake;
  }

  /** A goroutine that ends is no longer live, and no other is touched. */
  lemma ExitIsNotLive(s: State, a: Action, id: FiberID, run: int)
    requires a.TaskReport? || a.TaskAbandon?
    ensures LiveAs(Do(s, a), id, run) <==> LiveAs(s, id, run) && !Exits(s, a, id)
  {
  }

  lemma LoopLive(s: State, id: FiberID, run: int)
    ensures LiveAs(LoopNext(s), id, run) <==>
      if Launches(s, LoopStep, id) then run == |s.runs| - 1 else LiveAs(s, id, run)
  {
    if s.loop.Popped? || s.loop.Dispatching? {
      hide Results;
    } else {
      assert LoopNext(s).fibers == s.fibers;
      hide LoopNext;
    }
  }

  lemma StopLive(s: State, id: FiberID, run: int)
    ensures LiveAs(StopNext(s), id, run) <==> LiveAs(s, id, run)
  {
    hide Live;
    match s.life
    case StopScheduler =>
    case StopCleared =>
    case _ => assert StopNext(s).fibers == s.fibers;
  }

  lemma SameFibersLive(s: State, s': State, id: FiberID, run: int)
    requires s'.fibers == s.fibers
    ensures LiveAs(s', id, run) <==> LiveAs(s, id, run)
  {
  }

  lemma ResetLive(s: State, id: FiberID, run: int)
    ensures LiveAs(ResetNext(s), id, run) <==> LiveAs(s, id, run)
  {
    hide NonMain; hide IsRunning;
  }

  lemma OtherLive(s: State, a: Action, id: FiberID, run: int)
    requires a.LoopTick? || a.LoopReceive? || a.LoopCancelled? || a.CancelRun? || a.StopTimeout? || a.StartStep?
    ensures LiveAs(Do(s, a), id, run) <==> LiveAs(s, id, run)
  {
    if a.StartStep? {
      assert StartNext(s, a.main).fibers == s.fibers;
      hide StartNext;
    } else {
      assert Do(s, a).fibers == s.fibers;
    }
    hide LiveAs;
    SameFibersLive(s, Do(s, a), id, run);
  }

  lemma OneFlagLive(s: State, a: Action, id: FiberID, run: int)
    requires a.LoopPop? || a.StopSubtract?
    ensures LiveAs(Do(s, a), id, run) <==> LiveAs(s, id, run)
  {
  }

  /** Only the loop starts goroutines, and only a report or its abandonment ends them. */
  lemma StepLive(s: State, a: Action, id: FiberID, run: int)
    ensures LiveAs(Do(s, a), id, run) <==>
      if Launches(s, a, id) then run == |s.runs| - 1 else LiveAs(s, id, run) && !Exits(s, a, id)
  {
    hide LiveAs; hide LoopNext; hide StopNext; hide StartNext; hide ResetNext; hide TaskEffect; hide SpawnEffect;
    match a
    case SpawnStep(x) => SpawnLive(s, x, id, run);
    case TaskStep(x) => TaskStepLive(s, x, id, run);
    case LoopStep => LoopLive(s, id, run);
    case StopStep => StopLive(s, id, run);
    case ResetStep => ResetLive(s, id, run);
    case _ =>
      if a.TaskReport? || a.TaskAbandon? {
        ExitIsNotLive(s, a, id, run);
      } else if InsideTask(a) {
        FunctionLive(s, a, id, run);
      } else if a.LoopPop? || a.StopSubtract? {
        OneFlagLive(s, a, id, run);
      } else {
        OtherLive(s, a, id, run);
      }
  }

  lemma LiveIsLiveAs(s: State, id: FiberID, run: int)
    ensures id in Live(s, run) <==> LiveAs(s, id, run)
  {
  }

  lemma MemberAfter(s: State, a: Action, id: FiberID, run: int)
    ensures id in Live(Do(s, a), run) <==>
      if Launches(s, a, id) then run == |s.runs| - 1 else id in Live(s, run) && !Exits(s, a, id)
  {
    hide Do; hide Live; hide LiveAs; hide Launches; hide Exits;
    StepLive(s, a, id, run);
    LiveIsLiveAs(s, id, run);
    LiveIsLiveAs(Do(s, a), id, run);
  }

  /** The live goroutines of a run after a step. */
  lemma StepLiveSet(s: State, a: Action, run: int)
    ensures var live := Live(s, run);
      var live' := Live(Do(s, a), run);
      if exists id :: Launches(s, a, id) then
        live' == if run == |s.runs| - 1 then live + {s.loop.id} else live - {s.loop.id}
      else if exists id :: Exits(s, a, id) then live' == live - {a.id}
      else live' == live
  {
    hide Do; hide Live;
    forall id: FiberID
      ensures id in Live(Do(s, a), run) <==>
        if Launches(s, a, id) then run == |s.runs| - 1 else id in Live(s, run) && !Exits(s, a, id)
    {
      MemberAfter(s, a, id, run);
    }
  }

  // ---- Stop joins ----

  /** No goroutine of an earlier run is live, and on a stopped runtime none at all. */
  ghost predicate Joined(s: State) {
    && (forall run: int :: run < |s.runs| - 1 ==> Live(s, run) == {})
    && (s.stopped ==> Live(s, |s.runs| - 1) == {})
  }

  lemma StopEnds(s: State)
    ensures StopNext(s).stopped && !s.stopped ==> Live(s, |s.runs| - 1) == {}
  {
    hide Live; hide Claim;
  }

  /** A runtime becomes stopped by a Stop that has joined, or by one that times out. */
  lemma StoppedStep(s: State, a: Action)
    requires !a.StopTimeout? && !s.stopped && Do(s, a).stopped
    ensures a.StopStep? && Live(s, |s.runs| - 1) == {}
  {
    StopEnds(s);
    hide StopNext; hide Live; hide SpawnEffect; hide TaskEffect;
    LoopKeepsStopped(s);
    hide LoopNext;
  }

  lemma LoopKeepsStopped(s: State)
    ensures LoopNext(s).stopped == s.stopped
  {
  }

  /** Only the last step of Start begins a run, and then a runtime that was stopped is not. */
  lemma RunsStep(s: State, a: Action)
    ensures var s' := Do(s, a);
      if a.StartStep? && s.life.StartRegistered? then s'.runs == s.runs + [Run(false, 0)] && !s'.stopped
      else |s'.runs| == |s.runs|
  {
    if a.StartStep? {
      hide Live;
    } else {
      StepExtent(s, a);
      hide Do;
    }
  }

  lemma NoSuchRun(s: State, run: int)
    requires Inv(s) && |s.runs| <= run
    ensures Live(s, run) == {}
  {
    forall id | id in s.fibers ensures !LiveIn(s.fibers[id], run) {
      assert RecOk(s.fibers[id], HoldOf(s.loop, id), PhaseOf(s));
    }
  }

  lemma NothingLaunchesWhenStopped(s: State, a: Action, id: FiberID)
    requires Inv(s) && s.stopped
    ensures !Launches(s, a, id)
  {
    assert Lifecycle(s);
  }

  /** Where nothing is live and nothing starts, nothing is live afterwards. */
  lemma StaysEmpty(s: State, a: Action, run: int)
    requires Live(s, run) == {} && (run == |s.runs| - 1 ==> !exists id :: Launches(s, a, id))
    ensures Live(Do(s, a), run) == {}
  {
    hide Do; hide Live; hide Launches; hide Exits;
    StepLiveSet(s, a, run);
  }

  lemma NoneLaunches(s: State, a: Action)
    requires Inv(s) && s.stopped
    ensures !exists id :: Launches(s, a, id)
  {
    forall id: FiberID ensures !Launches(s, a, id) { NothingLaunchesWhenStopped(s, a, id); }
  }

  lemma JoinedStep(s: State, a: Action)
    requires Inv(s) && Joined(s) && !a.StopTimeout?
    ensures Joined(Do(s, a))
  {
    var s' := Do(s, a);
    assert s.life.StartRegistered? ==> s.stopped by { assert Lifecycle(s); }
    hide Do; hide Inv; hide Live; hide Launches;
    RunsStep(s, a);
    if s.stopped { NoneLaunches(s, a); }
    forall run: int | run < |s'.runs| - 1 ensures Live(s', run) == {} { StaysEmpty(s, a, run); }
    if s'.stopped {
      if !s.stopped { StoppedStep(s, a); }
      assert !exists id :: Launches(s, a, id) by { if !s.stopped { StopLaunchesNone(s, a); } }
      StaysEmpty(s, a, |s.runs| - 1);
    }
  }

  lemma StopLaunchesNone(s: State, a: Action)
    requires a.StopStep?
    ensures !exists id :: Launches(s, a, id)
  {
  }

  lemma {:induction false} RunJoins(s: State, actions: seq<Action>)
    requires Inv(s) && Joined(s) && forall i :: 0 <= i < |actions| ==> !actions[i].StopTimeout?
    ensures Inv(After(s, actions)) && Joined(After(s, actions))
    decreases |actions|
  {
    hide Inv; hide Joined; hide Do;
    if actions != [] {
      StepKeepsInv(s, actions[0]);
      JoinedStep(s, actions[0]);
      RunJoins(Do(s, actions[0]), actions[1..]);
    }
  }

  /**
   Over every run in which no Stop times out: no goroutine of an earlier run is live, and while the
   runtime is stopped no goroutine of any run is, so Stop returns only when all have ended.
   */
  lemma StopJoinsUnlessTimedOut(numWorkers: int, maxFibers: nat, main: FiberID, actions: seq<Action>)
    requires forall i :: 0 <= i < |actions| ==> !actions[i].StopTimeout?
    ensures var s := After(Init(numWorkers, maxFibers, main), actions);
      NoStaleFibers(s) && (s.stopped ==> forall run: int :: Live(s, run) == {})
  {
    var s0 := Init(numWorkers, maxFibers, main);
    InitIsInv(numWorkers, maxFibers, main);
    RunJoins(s0, actions);
    var s := After(s0, actions);
    hide After;
    if s.stopped {
      forall run: int ensures Live(s, run) == {} {
        if run >= |s.runs| { NoSuchRun(s, run); }
      }
    }
  }

  /** A Stop that has come to its join ends with its next step if and only if no goroutine of its run is live. */
  lemma JoinEndsIff(s: State)
    requires s.life.StopJoining?
    ensures Live(s, |s.runs| - 1) == {} ==> StopNext(s) == s.(life := Idle, stopped := true)
    ensures Live(s, |s.runs| - 1) != {} ==> StopNext(s) == s
  {
    hide Live;
  }

  // ---- While a run is up ----

  /** The current run has not been cancelled. */
  predicate RunUp(s: State) { |s.runs| > 0 && !s.runs[|s.runs| - 1].cancelled }

  /** The loop is at work, and every slot it counts is a live goroutine's or that of a result to come. */
  ghost predicate LoopUp(s: State) {
    RunUp(s) ==>
      LoopAlive(s) && !s.loop.Draining? && s.loop.active == Results(s) + |Live(s, |s.runs| - 1)|
  }

  /** What the loop counts beyond the results that are there. */
  function Expected(s: State): int
    requires LoopAlive(s)
  {
    s.loop.active - Results(s)
  }

  /** The step keeps what the loop still expects. */
  predicate ExpectsSame(s: State, s': State)
    requires LoopAlive(s)
  {
    LoopAlive(s') && !s'.loop.Draining? && Expected(s') == Expected(s)
  }

  lemma SameLoopExpects(s: State, s': State)
    requires LoopAlive(s) && !s.loop.Draining? && s'.loop == s.loop && Results(s') == Results(s)
    ensures ExpectsSame(s, s')
  {
  }

  lemma LoopStepExpects(s: State)
    requires Inv(s) && LoopAlive(s) && !s.loop.Draining? && !s.loop.Dispatching?
    ensures ExpectsSame(s, LoopNext(s))
  {
    assert s.loop.Popped? ==> s.loop.id in s.fibers;
    hide Inv;
  }

  lemma LoopActionExpects(s: State, a: Action)
    requires Inv(s) && LoopAlive(s) && !s.loop.Draining? && RunUp(s)
    requires a.LoopTick? || a.LoopReceive? || a.LoopCancelled? || a.LoopPop?
    ensures ExpectsSame(s, Do(s, a))
  {
    assert Slots(s);
    hide Inv; hide Live; hide Slots;
    SlotsCover(s);
  }

  lemma SlotsCover(s: State)
    requires Slots(s) && LoopAlive(s)
    ensures s.loop.active >= Results(s)
  {
  }

  /** A goroutine's report is a result for the loop of its run. */
  lemma ReportArrivesAt(s: State, id: FiberID)
    requires Exits(s, TaskReport(id), id) && |s.runs| > 0
    ensures var s' := Do(s, TaskReport(id));
      s'.loop == s.loop && |s'.runs| == |s.runs|
      && Results(s') == Results(s) + if s.fibers[id].task.value.run == |s.runs| - 1 then 1 else 0
  {
  }

  /** The step ends some goroutine by a report. */
  predicate Reports(s: State, a: Action) { a.TaskReport? && Exits(s, a, a.id) }

  lemma TaskKeepsRuns(s: State, a: Action)
    requires (a.TaskStep? || InsideTask(a) || a.SpawnStep?) && !Reports(s, a)
    ensures Do(s, a).loop == s.loop && Do(s, a).runs == s.runs
  {
    if a.TaskStep? || a.SpawnStep? {
      hide SpawnEffect; hide TaskEffect; hide Reports;
    } else if a.TaskReport? {
    } else {
      hide Reports;
    }
  }

  lemma LifeExpects(s: State, a: Action)
    requires a.StopStep? || a.ResetStep? || a.CancelRun? || a.StopSubtract? || a.StopTimeout?
    ensures Do(s, a).loop == s.loop && |Do(s, a).runs| == |s.runs| && Results(Do(s, a)) == Results(s)
    ensures RunUp(Do(s, a)) ==> RunUp(s)
  {
    if a.StopStep? { StopKeepsLoop(s); }
    hide StopNext; hide NonMain;
  }

  lemma StopKeepsLoop(s: State)
    ensures StopNext(s).loop == s.loop && |StopNext(s).runs| == |s.runs| && Results(StopNext(s)) == Results(s)
    ensures RunUp(StopNext(s)) ==> RunUp(s)
  {
    if s.life.StopEntered? {
      hide Live; hide Claim;
    } else {
      StopKeepsRuns(s);
      hide StopNext;
    }
  }

  lemma StopKeepsRuns(s: State)
    requires !s.life.StopEntered?
    ensures StopNext(s).runs == s.runs && StopNext(s).loop == s.loop
  {
    hide Live; hide Claim; hide CancelCurrent;
  }

  /** Cancelled runs stay cancelled, and nothing but a new run comes up. */
  lemma LoopKeepsUp(s: State, a: Action)
    requires a.LoopTick? || a.LoopReceive? || a.LoopCancelled? || a.LoopPop? || a.LoopStep?
    ensures |Do(s, a).runs| == |s.runs| && (RunUp(Do(s, a)) ==> RunUp(s))
  {
    if a.LoopStep? { LoopStepKeepsUp(s); }
    hide LoopNext;
  }

  lemma LoopStepKeepsUp(s: State)
    ensures |LoopNext(s).runs| == |s.runs| && (RunUp(LoopNext(s)) ==> RunUp(s))
  {
    if !s.loop.Draining? {
      assert LoopNext(s).runs == s.runs;
      hide LoopNext;
    }
  }

  lemma ReportKeepsUp(s: State, id: FiberID)
    requires Exits(s, TaskReport(id), id)
    ensures RunUp(Do(s, TaskReport(id))) ==> RunUp(s)
  {
  }

  lemma StartKeepsUp(s: State, main: FiberID)
    requires !s.life.StartRegistered?
    ensures StartNext(s, main).runs == s.runs && StartNext(s, main).loop == s.loop
  {
  }

  /** A step by which neither a goroutine starts nor a result is sent. */
  lemma QuietStepUp(s: State, a: Action)
    requires Inv(s) && LoopUp(s) && RunUp(Do(s, a)) && !(a.StartStep? && s.life.StartRegistered?)
    requires !(a.LoopStep? && s.loop.Dispatching?) && !Reports(s, a)
    ensures RunUp(s) && LoopAlive(s) && ExpectsSame(s, Do(s, a)) && |Do(s, a).runs| == |s.runs|
  {
    hide Inv; hide LoopNext; hide StopNext; hide StartNext; hide ResetNext; hide TaskEffect; hide SpawnEffect;
    hide ExpectsSame; hide Live;
    if a.TaskStep? || InsideTask(a) || a.SpawnStep? {
      TaskKeepsRuns(s, a);
      SameLoopExpects(s, Do(s, a));
    } else if a.LoopTick? || a.LoopReceive? || a.LoopCancelled? || a.LoopPop? || a.LoopStep? {
      LoopKeepsUp(s, a);
      if a.LoopStep? { LoopStepExpects(s); } else { LoopActionExpects(s, a); }
    } else if a.StartStep? {
      StartKeepsUp(s, a.main);
      SameLoopExpects(s, Do(s, a));
    } else {
      LifeExpects(s, a);
      SameLoopExpects(s, Do(s, a));
    }
  }

  /** Giving up on a cancelled run ends no goroutine of the one that is up. */
  lemma AbandonedElsewhere(s: State, a: Action)
    requires RunUp(s) && !Reports(s, a) && !(a.LoopStep? && s.loop.Dispatching?)
    ensures Live(Do(s, a), |s.runs| - 1) == Live(s, |s.runs| - 1)
  {
    var cur := |s.runs| - 1;
    StepLiveSet(s, a, cur);
    hide Do;
    if id :| Exits(s, a, id) { assert id == a.id && id !in Live(s, cur); }
  }

  lemma LaunchCounts(s: State)
    requires Inv(s) && s.loop.Dispatching?
    ensures |Live(Do(s, LoopStep), |s.runs| - 1)| == |Live(s, |s.runs| - 1)| + 1
  {
    var id, cur := s.loop.id, |s.runs| - 1;
    assert id in s.fibers && RecOk(s.fibers[id], HoldOf(s.loop, id), PhaseOf(s)) && |s.runs| > 0;
    assert id !in Live(s, cur);
    hide Inv; hide RecOk; hide Do;
    assert Launches(s, LoopStep, id);
    StepLiveSet(s, LoopStep, cur);
    hide Live;
    assert |Live(s, cur) + {id}| == |Live(s, cur)| + 1;
  }

  lemma LaunchMovesLoop(s: State)
    requires Inv(s) && s.loop.Dispatching?
    ensures var s' := LoopNext(s); s'.loop == Filling(s.loop.active + 1) && s'.runs == s.runs
  {
    assert s.loop.id in s.fibers && |s.runs| > 0;
    hide Inv;
  }

  lemma LaunchUp(s: State)
    requires Inv(s) && LoopUp(s) && s.loop.Dispatching?
    ensures LoopUp(Do(s, LoopStep))
  {
    hide Inv; hide Live; hide LoopNext;
    LaunchCounts(s);
    LaunchMovesLoop(s);
  }

  lemma ExitCounts(s: State, id: FiberID, cur: int)
    requires Exits(s, TaskReport(id), id)
    ensures |Live(Do(s, TaskReport(id)), cur)|
      == |Live(s, cur)| - if s.fibers[id].task.value.run == cur then 1 else 0
  {
    assert id in Live(s, cur) <==> s.fibers[id].task.value.run == cur;
    hide Do;
    StepLiveSet(s, TaskReport(id), cur);
    hide Live;
  }

  lemma ReportUp(s: State, id: FiberID)
    requires LoopUp(s) && Exits(s, TaskReport(id), id)
    ensures LoopUp(Do(s, TaskReport(id)))
  {
    hide Do; hide Live;
    if RunUp(Do(s, TaskReport(id))) {
      ReportKeepsUp(s, id);
      ReportArrivesAt(s, id);
      ExitCounts(s, id, |s.runs| - 1);
    }
    hide Exits;
  }

  lemma NewRunUp(s: State, main: FiberID)
    requires Inv(s) && s.life.StartRegistered?
    ensures LoopUp(Do(s, StartStep(main)))
  {
    var a := StartStep(main);
    NoSuchRun(s, |s.runs|);
    StepLiveSet(s, a, |s.runs|);
    RunsStep(s, a);
    assert Do(s, a).loop == Selecting(0);
    hide Inv; hide Do; hide Live;
  }

  lemma LoopUpStep(s: State, a: Action)
    requires Inv(s) && LoopUp(s)
    ensures LoopUp(Do(s, a))
  {
    hide Inv; hide Do; hide Live; hide Exits;
    if RunUp(Do(s, a)) {
      if a.StartStep? && s.life.StartRegistered? {
        NewRunUp(s, a.main);
      } else if a.LoopStep? && s.loop.Dispatching? {
        LaunchUp(s);
      } else if Reports(s, a) {
        ReportUp(s, a.id);
      } else {
        QuietStepUp(s, a);
        AbandonedElsewhere(s, a);
      }
    }
  }

  lemma {:induction false} RunLoopUp(s: State, actions: seq<Action>)
    requires Inv(s) && LoopUp(s)
    ensures LoopUp(After(s, actions))
    decreases |actions|
  {
    hide Inv; hide LoopUp; hide Do;
    if actions != [] {
      StepKeepsInv(s, actions[0]);
      LoopUpStep(s, actions[0]);
      RunLoopUp(Do(s, actions[0]), actions[1..]);
    }
  }

  /**
   Over every run: as long as the current run is not cancelled its loop is at work and not draining,
   and every slot that it counts belongs to a live goroutine or to a result not yet received, so no
   slot is lost.
   */
  lemma NoSlotIsLost(numWorkers: int, maxFibers: nat, main: FiberID, actions: seq<Action>)
    ensures var s := After(Init(numWorkers, maxFibers, main), actions);
      RunUp(s) ==>
        LoopAlive(s) && !s.loop.Draining? && s.loop.active == Results(s) + |Live(s, |s.runs| - 1)|
  {
    InitIsInv(numWorkers, maxFibers, main);
    RunLoopUp(Init(numWorkers, maxFibers, main), actions);
    hide After; hide Live;
  }
}
