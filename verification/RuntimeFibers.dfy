/**
 The fibers of the transition system are those of Fiber.dfy: along every run each fiber sees a
 sequence of the calls that the fiber object carries out, and its function is entered at most once.
 */
module RuntimeFibers {
  import opened Fibers
  import opened Registries
  import opened Sequences
  import opened Runtime
  import opened RuntimeInvariant
  import opened RuntimeTheorems
  import opened RuntimeRest

  /** The fiber, new while its Spawn call has not begun. */
  function FiberOf(s: State, id: FiberID): Fiber { if id in s.fibers then s.fibers[id].fiber else NewFiber() }

  predicate Working(s: State, id: FiberID) { id in s.fibers && AtWork(s.fibers[id]) }

  /** The call that the step makes on the fiber, if any. */
  function CallsOf(s: State, a: Action, id: FiberID): seq<FiberOp> {
    if id !in s.fibers then []
    else
      var r := s.fibers[id];
      if a == TaskStep(id) && r.task.Some? && r.task.value.pc.Launched? then [Enter]
      else if a == TaskReturn(id) && InFunction(r, FiberState.Running) then [Leave]
      else if a == TaskBlock(id) && InFunction(r, FiberState.Running) then [Park]
      else if a.TaskUnblock? && a.id == id && InFunction(r, Blocked) && MayWake(s, a.waker) then [Wake]
      else if a.LoopStep? && s.loop.Popped? && s.loop.id == id && r.fiber.state == Ready then [FiberOp.Schedule]
      else []
  }

  function AllCallsOf(s: State, actions: seq<Action>, id: FiberID): seq<FiberOp>
    decreases |actions|
  {
    if actions == [] then [] else CallsOf(s, actions[0], id) + AllCallsOf(Do(s, actions[0]), actions[1..], id)
  }

  /** How often the fiber enters its function along the run. */
  function Entries(s: State, actions: seq<Action>, id: FiberID): nat
    decreases |actions|
  {
    if actions == [] then 0
    else
      var s' := Do(s, actions[0]);
      (if !Working(s, id) && Working(s', id) then 1 else 0) + Entries(s', actions[1..], id)
  }

  /** What the step `a` does to the fiber is what its call does, and only Enter enters the function. */
  ghost predicate Carried(s: State, s': State, calls: seq<FiberOp>, id: FiberID) {
    && FiberOf(s', id) == Replay(FiberOf(s, id), calls)
    && Executions(FiberOf(s, id), calls) == if !Working(s, id) && Working(s', id) then 1 else 0
  }

  /** The fiber and its goroutine are left alone. */
  predicate LeftAlone(s: State, s': State, id: FiberID) {
    FiberOf(s', id) == FiberOf(s, id) && (Working(s', id) ==> Working(s, id))
  }

  lemma AloneIsCarried(s: State, s': State, id: FiberID)
    requires LeftAlone(s, s', id)
    ensures Carried(s, s', [], id)
  {
  }

  lemma OneCall(f: Fiber, op: FiberOp)
    ensures Replay(f, [op]) == Call(f, op)
    ensures Executions(f, [op]) == if op == Enter && EnterRun(f).1 then 1 else 0
  {
    assert [op][1..] == [];
  }

  /** Replacing one record by one with the same fiber and no other goroutine. */
  lemma PutAlone(s: State, x: FiberID, e: Effect, id: FiberID)
    requires x in s.fibers && e.rec.fiber == s.fibers[x].fiber && (AtWork(e.rec) ==> AtWork(s.fibers[x]))
    ensures LeftAlone(s, Put(s, x, e), id)
  {
  }

  lemma SpawnAlone(s: State, x: FiberID, id: FiberID)
    requires Inv(s)
    ensures LeftAlone(s, Do(s, SpawnStep(x)), id)
  {
    if x in s.fibers {
      var r := s.fibers[x];
      assert RecOk(r, HoldOf(s.loop, x), PhaseOf(s));
      hide SpawnEffect; hide Inv; hide LeftAlone;
      SpawnLeaves(s, r);
      SpawnKeepsFiber(s, r, HoldOf(s.loop, x));
      PutAlone(s, x, SpawnEffect(s, r), id);
    }
    hide SpawnEffect; hide Inv;
  }

  lemma SpawnKeepsFiber(s: State, r: Rec, h: Hold)
    requires PlaceOk(r, h) && FiberOk(r, h)
    ensures SpawnEffect(s, r).rec.fiber == r.fiber
  {
    hide MuHeld; hide IsRunning; hide RunCancelled;
  }

  lemma TaskEffectCarried(r: Rec, h: Hold)
    requires r.task.Some? && FiberOk(r, h)
    ensures var r' := TaskEffect(r).rec;
      if r.task.value.pc.Launched? then r'.fiber == EnterRun(r.fiber).0 && EnterRun(r.fiber).1 && AtWork(r')
      else r'.fiber == r.fiber && (AtWork(r') ==> AtWork(r))
  {
  }

  lemma TaskStepCarried(s: State, id: FiberID)
    requires Inv(s) && id in s.fibers
    ensures Carried(s, Do(s, TaskStep(id)), CallsOf(s, TaskStep(id), id), id)
  {
    var r := s.fibers[id];
    assert RecOk(r, HoldOf(s.loop, id), PhaseOf(s));
    if r.task.Some? { TaskEffectCarried(r, HoldOf(s.loop, id)); } else { assert TaskEffect(r) == Keep(r); }
    hide Inv; hide PlaceOk; hide LedgerOk; hide PhaseOk; hide FiberOk; hide TaskEffect; hide Replay; hide Executions;
    if r.task.Some? && r.task.value.pc.Launched? {
      OneCall(r.fiber, Enter);
    } else {
      hide Carried;
      PutAlone(s, id, TaskEffect(r), id);
      AloneIsCarried(s, Do(s, TaskStep(id)), id);
    }
  }

  /** The calls that a fiber function makes, and its return. */
  lemma FunctionCarried(s: State, a: Action, id: FiberID)
    requires Inv(s) && (a.TaskReturn? || a.TaskBlock? || a.TaskUnblock?) && a.id == id && id in s.fibers
    ensures Carried(s, Do(s, a), CallsOf(s, a, id), id)
  {
    var r := s.fibers[id];
    assert RecOk(r, HoldOf(s.loop, id), PhaseOf(s));
    hide Inv; hide PlaceOk; hide LedgerOk; hide PhaseOk; hide Replay; hide Executions;
    if CallsOf(s, a, id) == [] {
      hide Carried;
      assert Do(s, a) == s;
      AloneIsCarried(s, s, id);
    } else {
      OneCall(r.fiber, CallsOf(s, a, id)[0]);
    }
  }

  lemma ReportCarried(s: State, a: Action, id: FiberID)
    requires (a.TaskReport? || a.TaskAbandon?) && a.id == id && id in s.fibers
    ensures Carried(s, Do(s, a), CallsOf(s, a, id), id)
  {
    assert LeftAlone(s, Do(s, a), id);
    hide Carried; hide Do;
    AloneIsCarried(s, Do(s, a), id);
  }

  lemma OtherTaskAlone(s: State, a: Action, id: FiberID)
    requires (a.TaskStep? || InsideTask(a)) && a.id != id
    ensures LeftAlone(s, Do(s, a), id)
  {
    hide TaskEffect; hide At; hide InFunction; hide MayWake; hide RunCancelled; hide AtWork;
    hide LeaveRun; hide Block; hide Unblock;
  }

  lemma LoopCarried(s: State, id: FiberID)
    ensures Carried(s, LoopNext(s), CallsOf(s, LoopStep, id), id)
  {
    if CallsOf(s, LoopStep, id) == [] {
      hide Carried;
      LoopWithoutCall(s, id);
      AloneIsCarried(s, LoopNext(s), id);
    } else {
      OneCall(s.fibers[id].fiber, FiberOp.Schedule);
      hide Replay; hide Executions;
    }
  }

  lemma LoopWithoutCall(s: State, id: FiberID)
    requires CallsOf(s, LoopStep, id) == []
    ensures LeftAlone(s, LoopNext(s), id)
  {
    if s.loop.Popped? || s.loop.Dispatching? {
      hide Results;
    } else {
      assert LoopNext(s).fibers == s.fibers;
      hide LoopNext;
    }
  }

  lemma StopAlone(s: State, id: FiberID)
    ensures LeftAlone(s, StopNext(s), id)
  {
    hide Live;
    match s.life
    case StopScheduler =>
    case StopCleared =>
    case _ => assert StopNext(s).fibers == s.fibers;
  }

  lemma SameFibersAlone(s: State, s': State, id: FiberID)
    requires s'.fibers == s.fibers
    ensures LeftAlone(s, s', id)
  {
  }

  lemma StartAlone(s: State, main: FiberID, id: FiberID)
    ensures LeftAlone(s, StartNext(s, main), id)
  {
    assert StartNext(s, main).fibers == s.fibers;
    hide StartNext; hide LeftAlone;
    SameFibersAlone(s, StartNext(s, main), id);
  }

  lemma ResetAlone(s: State, id: FiberID)
    ensures LeftAlone(s, ResetNext(s), id)
  {
    hide NonMain; hide IsRunning;
  }

  lemma RestAlone(s: State, a: Action, id: FiberID)
    requires a.LoopTick? || a.LoopReceive? || a.LoopCancelled? || a.CancelRun? || a.StopTimeout?
    ensures LeftAlone(s, Do(s, a), id)
  {
    assert Do(s, a).fibers == s.fibers;
    hide Do; hide LeftAlone;
    SameFibersAlone(s, Do(s, a), id);
  }

  lemma OneFlagAlone(s: State, a: Action, id: FiberID)
    requires a.LoopPop? || a.StopSubtract?
    ensures LeftAlone(s, Do(s, a), id)
  {
  }

  lemma StepIsCarried(s: State, a: Action, id: FiberID)
    requires Inv(s)
    ensures Carried(s, Do(s, a), CallsOf(s, a, id), id)
  {
    hide Inv; hide Carried; hide LeftAlone; hide LoopNext; hide StopNext; hide StartNext; hide ResetNext;
    hide TaskEffect; hide SpawnEffect;
    if (a.TaskStep? || InsideTask(a)) && a.id == id && id in s.fibers {
      if a.TaskStep? {
        TaskStepCarried(s, id);
      } else if a.TaskReport? || a.TaskAbandon? {
        ReportCarried(s, a, id);
      } else {
        FunctionCarried(s, a, id);
      }
    } else if a.LoopStep? {
      LoopCarried(s, id);
    } else {
      if a.SpawnStep? {
        SpawnAlone(s, a.id, id);
      } else if a.TaskStep? || InsideTask(a) {
        if a.id == id { NoSuchFiber(s, a); } else { OtherTaskAlone(s, a, id); }
      } else if a.StopStep? {
        StopAlone(s, id);
      } else if a.StartStep? {
        StartAlone(s, a.main, id);
      } else if a.ResetStep? {
        ResetAlone(s, id);
      } else if a.LoopPop? || a.StopSubtract? {
        OneFlagAlone(s, a, id);
      } else {
        RestAlone(s, a, id);
      }
      AloneIsCarried(s, Do(s, a), id);
    }
  }

  lemma NoSuchFiber(s: State, a: Action)
    requires (a.TaskStep? || InsideTask(a)) && a.id !in s.fibers
    ensures LeftAlone(s, Do(s, a), a.id)
  {
  }

  lemma {:induction false} ReplayConcat(f: Fiber, a: seq<FiberOp>, b: seq<FiberOp>)
    requires |a| <= 1
    ensures Replay(f, a + b) == Replay(Replay(f, a), b)
    ensures Executions(f, a + b) == Executions(f, a) + Executions(Replay(f, a), b)
  {
    if a == [] {
      assert a + b == b;
    } else {
      assert (a + b)[1..] == b && a[1..] == [];
    }
  }

  lemma {:induction false} RunIsCarried(s: State, actions: seq<Action>, id: FiberID)
    requires Inv(s)
    ensures FiberOf(After(s, actions), id) == Replay(FiberOf(s, id), AllCallsOf(s, actions, id))
    ensures Entries(s, actions, id) == Executions(FiberOf(s, id), AllCallsOf(s, actions, id))
    decreases |actions|
  {
    hide Inv; hide Do; hide FiberOf; hide Working; hide Replay; hide Executions;
    if actions == [] {
      NoCalls(FiberOf(s, id));
    } else {
      var s' := Do(s, actions[0]);
      var first, rest := CallsOf(s, actions[0], id), AllCallsOf(s', actions[1..], id);
      StepIsCarried(s, actions[0], id);
      StepKeepsInv(s, actions[0]);
      RunIsCarried(s', actions[1..], id);
      ReplayConcat(FiberOf(s, id), first, rest);
    }
  }

  lemma NoCalls(f: Fiber)
    ensures Replay(f, []) == f && Executions(f, []) == 0
  {
  }

  /**
   Over every run of the runtime: a fiber is what the calls made on it have left of a new one, in
   their order, and its function is entered at most once, whatever is rolled back, stopped,
   restarted or reset meanwhile.
   */
  lemma EnteredAtMostOnce(numWorkers: int, maxFibers: nat, main: FiberID, actions: seq<Action>, id: FiberID)
    ensures var s0 := Init(numWorkers, maxFibers, main);
      && FiberOf(After(s0, actions), id) == Replay(NewFiber(), AllCallsOf(s0, actions, id))
      && Entries(s0, actions, id) <= 1
  {
    var s0 := Init(numWorkers, maxFibers, main);
    InitIsInv(numWorkers, maxFibers, main);
    RunIsCarried(s0, actions, id);
    RunsAtMostOnce(NewFiber(), AllCallsOf(s0, actions, id));
    hide Replay; hide Executions; hide Inv;
  }
}
