/**
 Start and the scheduler's own flags (internal/runtime/runtime.go, internal/scheduler/scheduler.go):
 when the scheduler runs and when it refuses, and what a Start brings up.
 */
module RuntimeStart {
  import opened Fibers
  import opened Registries
  import opened Sequences
  import opened Runtime
  import opened RuntimeInvariant
  import opened RuntimeTheorems
  import opened RuntimeSlots

  /**
   The scheduler runs from Start's call of it to Stop's, and refuses fibers just from Stop's call of
   it until Stop has cleared it.
   */
  predicate SchedulerOk(s: State) {
    && (s.schedulerStopped <==> s.life.StopScheduler?)
    && (s.schedulerRunning <==>
          || (!s.stopped && (s.life.Idle? || s.life.StopEntered? || s.life.StopCancelled?))
          || s.life.StartScheduler? || s.life.StartRegistered?)
  }

  /** The step changes nothing that the flags depend on. */
  predicate SameFlags(s: State, s': State) {
    && s'.schedulerStopped == s.schedulerStopped && s'.schedulerRunning == s.schedulerRunning
    && s'.life == s.life && s'.stopped == s.stopped
  }

  lemma LoopKeepsFlags(s: State)
    ensures SameFlags(s, LoopNext(s))
  {
  }

  lemma OtherKeepsFlags(s: State, a: Action)
    requires !a.StopStep? && !a.StartStep? && !a.ResetStep? && !a.StopTimeout?
    ensures SameFlags(s, Do(s, a))
  {
    if a.LoopStep? { LoopKeepsFlags(s); }
    hide LoopNext; hide SpawnEffect; hide TaskEffect; hide InFunction; hide MayWake;
  }

  lemma StopFlags(s: State)
    requires Lifecycle(s) && SchedulerOk(s)
    ensures SchedulerOk(StopNext(s))
  {
    hide Live; hide Claim;
  }

  lemma StartFlags(s: State, main: FiberID)
    requires Lifecycle(s) && SchedulerOk(s)
    ensures SchedulerOk(StartNext(s, main))
  {
  }

  lemma ResetFlags(s: State)
    requires Lifecycle(s) && SchedulerOk(s)
    ensures SchedulerOk(ResetNext(s))
  {
    hide NonMain;
  }

  lemma FlagsStep(s: State, a: Action)
    requires Inv(s) && SchedulerOk(s)
    ensures SchedulerOk(Do(s, a))
  {
    assert Lifecycle(s);
    hide Inv; hide Lifecycle; hide StopNext; hide StartNext; hide ResetNext;
    match a
    case StopStep => StopFlags(s);
    case StartStep(main) => StartFlags(s, main);
    case ResetStep => ResetFlags(s);
    case StopTimeout =>
    case _ =>
      OtherKeepsFlags(s, a);
      hide Do;
  }

  lemma {:induction false} RunFlags(s: State, actions: seq<Action>)
    requires Inv(s) && SchedulerOk(s)
    ensures SchedulerOk(After(s, actions))
    decreases |actions|
  {
    hide Inv; hide SchedulerOk; hide Do;
    if actions != [] {
      StepKeepsInv(s, actions[0]);
      FlagsStep(s, actions[0]);
      RunFlags(Do(s, actions[0]), actions[1..]);
    }
  }

  /** Over every run the scheduler's flags follow the lifecycle. */
  lemma SchedulerFollowsLifecycle(numWorkers: int, maxFibers: nat, main: FiberID, actions: seq<Action>)
    ensures SchedulerOk(After(Init(numWorkers, maxFibers, main), actions))
  {
    InitIsInv(numWorkers, maxFibers, main);
    RunFlags(Init(numWorkers, maxFibers, main), actions);
  }

  /** What a Start brings up: a new run with its loop, an open gate, a main fiber and a running scheduler. */
  function Started(s: State, main: FiberID): State {
    s.(runs := s.runs + [Run(false, 0)], stopped := false, draining := false,
       main := if s.main.Some? then s.main else Some(main),
       schedulerRunning := true, schedulerStopped := false, loop := Selecting(0), life := Idle)
  }

  function StartSteps(main: FiberID): seq<Action> {
    [StartStep(main), StartStep(main), StartStep(main), StartStep(main)]
  }

  lemma FourSteps(s: State, a: Action, s1: State, s2: State, s3: State, s4: State)
    requires Do(s, a) == s1 && Do(s1, a) == s2 && Do(s2, a) == s3 && Do(s3, a) == s4
    ensures After(s, [a, a, a, a]) == s4
  {
    hide Do;
    assert [a, a, a, a][1..] == [a, a, a] && [a, a, a][1..] == [a, a] && [a, a][1..] == [a] && [a][1..] == [];
    assert After(s3, [a]) == After(s4, []);
    assert After(s2, [a, a]) == After(s3, [a]);
    assert After(s1, [a, a, a]) == After(s2, [a, a]);
  }

  /**
   In every state of every run with no lifecycle call in progress: Start brings a stopped runtime up,
   also after a Reset, for any main fiber that is new; and changes nothing on one that runs.
   */
  lemma StartBringsUp(numWorkers: int, maxFibers: nat, main: FiberID, actions: seq<Action>, newMain: FiberID)
    requires var s := After(Init(numWorkers, maxFibers, main), actions);
      s.life.Idle? && (s.main.None? ==> newMain !in s.fibers)
    ensures var s := After(Init(numWorkers, maxFibers, main), actions);
      After(s, StartSteps(newMain)) == if IsRunning(s) then s else Started(s, newMain)
  {
    var s := After(Init(numWorkers, maxFibers, main), actions);
    Reachable(numWorkers, maxFibers, main, actions);
    SchedulerFollowsLifecycle(numWorkers, maxFibers, main, actions);
    assert Lifecycle(s);
    hide Inv; hide After;
    var a := StartStep(newMain);
    if IsRunning(s) {
      FourSteps(s, a, s, s, s, s);
    } else {
      var s1 := s.(life := StartLocked);
      var s2 := s1.(life := StartScheduler, schedulerRunning := true, schedulerStopped := false);
      var s3 := s2.(draining := false, life := StartRegistered, main := if s.main.Some? then s.main else Some(newMain));
      FourSteps(s, a, s1, s2, s3, Started(s, newMain));
    }
  }

  /** What a Reset leaves: no main fiber, an open gate, and no fiber registered, committed or queued. */
  ghost predicate Fresh(s: State, s': State) {
    && s'.main.None? && !s'.draining && s'.life.Idle? && s'.stopped == s.stopped && s'.runs == s.runs
    && s'.fibers.Keys == s.fibers.Keys && s'.count == s.count
    && (forall id :: id in s'.fibers ==>
          !s'.fibers[id].registered && !s'.fibers[id].committed && !s'.fibers[id].queued)
  }

  /**
   In every state of every run with no lifecycle call in progress: Reset of a stopped runtime on which
   nothing but the main fiber is registered leaves it fresh, whatever calls were still queued.
   */
  lemma ResetClears(numWorkers: int, maxFibers: nat, main: FiberID, actions: seq<Action>)
    requires var s := After(Init(numWorkers, maxFibers, main), actions);
      s.life.Idle? && !IsRunning(s) && NonMain(s) == {}
    ensures var s := After(Init(numWorkers, maxFibers, main), actions); Fresh(s, After(s, [ResetStep, ResetStep]))
  {
    var s := After(Init(numWorkers, maxFibers, main), actions);
    hide After;
    var s1 := ResetRegistry(s);
    var s2 := ClearScheduler(s1).(life := Idle);
    assert Do(s, ResetStep) == s1 && Do(s1, ResetStep) == s2;
    TwoSteps(s, ResetStep, s1, s2);
    hide Do; hide NonMain;
  }

  lemma TwoSteps(s: State, a: Action, s1: State, s2: State)
    requires Do(s, a) == s1 && Do(s1, a) == s2
    ensures After(s, [a, a]) == s2
  {
    hide Do;
    assert [a, a][1..] == [a] && [a][1..] == [];
    assert After(s1, [a]) == After(s2, []);
  }
}
