/**
 Concrete runs of the protocol, from a new runtime on, in which the counter leaks and in which
 an admitted fiber is never dispatched.
 */
module RuntimeWitness {
  import opened Fibers
  import opened Registries
  import opened Sequences
  import opened Runtime
  import opened RuntimeInvariant
  import opened RuntimeAdmission

  /** Some run leads from `s` to `t`. */
  ghost predicate Reaches(s: State, t: State) { exists actions :: After(s, actions) == t }

  lemma {:induction false} AfterPush(s: State, actions: seq<Action>, a: Action)
    ensures After(s, actions + [a]) == Do(After(s, actions), a)
    decreases |actions|
  {
    hide Do;
    if actions == [] {
      assert actions + [a] == [a] && [a][1..] == [];
    } else {
      AfterPush(Do(s, actions[0]), actions[1..], a);
      assert (actions + [a])[1..] == actions[1..] + [a];
    }
  }

  lemma ReachesSelf(s: State)
    ensures Reaches(s, s)
  {
    assert After(s, []) == s;
  }

  lemma Step(s: State, t: State, a: Action, t': State)
    requires Reaches(s, t) && Do(t, a) == t'
    ensures Reaches(s, t')
  {
    var actions :| After(s, actions) == t;
    AfterPush(s, actions, a);
  }

  /** One worker, main fiber 1: the first run, with the Spawn call of fiber 2 as `fibers` says. */
  function Up(cap: nat, count: int, fibers: map<FiberID, Rec>, loop: Loop): State {
    State(1, cap, [Run(false, 0)], false, false, Some(1), count, true, false, fibers, loop, Idle)
  }

  /** The record of fiber 2 while its Spawn call is at `pc`. */
  function Call2(pc: SpawnPC, registered: bool, queued: bool, counted: bool): Rec {
    Rec(pc, registered, false, queued, None, false, NewFiber(), counted, 0)
  }

  lemma FirstStart(cap: nat)
    ensures Reaches(Init(1, cap, 1), Up(cap, 0, map[], Selecting(0)))
  {
    hide Reaches;
    var s := Init(1, cap, 1);
    ReachesSelf(s);
    var s1 := s.(life := StartLocked);
    Step(s, s, StartStep(1), s1);
    var s2 := s1.(life := StartScheduler, schedulerRunning := true);
    Step(s, s1, StartStep(1), s2);
    var s3 := s2.(life := StartRegistered);
    Step(s, s2, StartStep(1), s3);
    Step(s, s3, StartStep(1), Up(cap, 0, map[], Selecting(0)));
  }

  lemma SpawnTo(cap: nat, s: State, count: int, r: Rec, count': int, r': Rec)
    requires Reaches(s, Up(cap, count, map[2 := r], Selecting(0)))
    requires SpawnEffect(Up(cap, count, map[2 := r], Selecting(0)), r) == Effect(r', count' - count)
    ensures Reaches(s, Up(cap, count', map[2 := r'], Selecting(0)))
  {
    hide Reaches; hide SpawnEffect;
    var t := Up(cap, count, map[2 := r], Selecting(0));
    assert t.fibers[2 := r'] == map[2 := r'];
    Step(s, t, SpawnStep(2), Up(cap, count', map[2 := r'], Selecting(0)));
  }

  lemma SpawnCounted(cap: nat)
    requires cap == 0 || cap == 1
    ensures Reaches(Init(1, cap, 1), Up(cap, 1, map[2 := Call2(Counted, false, false, true)], Selecting(0)))
  {
    hide Reaches;
    var s := Init(1, cap, 1);
    FirstStart(cap);
    Step(s, Up(cap, 0, map[], Selecting(0)), SpawnStep(2), Up(cap, 0, map[2 := NewCall()], Selecting(0)));
    hide Do;
    SpawnTo(cap, s, 0, NewCall(), 0, Call2(Checked, false, false, false));
    SpawnTo(cap, s, 0, Call2(Checked, false, false, false), 1, Call2(Counted, false, false, true));
  }

  lemma SpawnScheduled(cap: nat)
    requires cap == 0 || cap == 1
    ensures Reaches(Init(1, cap, 1), Up(cap, 1, map[2 := Call2(Scheduled, true, true, true)], Selecting(0)))
  {
    hide Reaches; hide Do;
    var s := Init(1, cap, 1);
    SpawnCounted(cap);
    SpawnTo(cap, s, 1, Call2(Counted, false, false, true), 1, Call2(Inserted, true, false, true));
    SpawnTo(cap, s, 1, Call2(Inserted, true, false, true), 1, Call2(ScheduleOpen, true, false, true));
    SpawnTo(cap, s, 1, Call2(ScheduleOpen, true, false, true), 1, Call2(Scheduled, true, true, true));
  }

  /** Fiber 2 is queued and its call has seen a run that is not stopping. */
  lemma SpawnRechecked(cap: nat)
    requires cap == 0 || cap == 1
    ensures Reaches(Init(1, cap, 1), Up(cap, 1, map[2 := Call2(Rechecked(false), true, true, true)], Selecting(0)))
  {
    hide Reaches; hide Do;
    var s := Init(1, cap, 1);
    SpawnScheduled(cap);
    SpawnTo(cap, s, 1, Call2(Scheduled, true, true, true), 1, Call2(GotContext(0), true, true, true));
    SpawnTo(cap, s, 1, Call2(GotContext(0), true, true, true), 1, Call2(Rechecked(false), true, true, true));
  }

  // ---- A Stop that times out ----

  /** Fiber 2 once admitted. */
  function Admitted2(queued: bool, task: Option<Task>, fiber: Fiber): Rec {
    Rec(Returned(Admitted), true, true, queued, task, false, fiber, true, 0)
  }

  /** Fiber 2, still inside its function. */
  function Straggler(): Rec { Admitted2(false, Some(Task(0, Executing)), Fiber(FiberState.Running, true, false)) }

  lemma FiberTwoPopped()
    ensures Reaches(Init(1, 0, 1), Up(0, 1, map[2 := Admitted2(false, None, NewFiber())], Popped(0, 2)))
  {
    hide Reaches;
    var s, q := Init(1, 0, 1), Admitted2(true, None, NewFiber());
    SpawnRechecked(0);
    SpawnTo(0, s, 1, Call2(Rechecked(false), true, true, true), 1, q);
    Step(s, Up(0, 1, map[2 := q], Selecting(0)), LoopTick, Up(0, 1, map[2 := q], Filling(0)));
    Step(s, Up(0, 1, map[2 := q], Filling(0)), LoopStep, Up(0, 1, map[2 := q], Choosing(0)));
    Become(s, q, Admitted2(false, None, NewFiber()), Choosing(0), Popped(0, 2), LoopPop(2));
  }

  /** The run in which fiber 2 is inside its function. */
  lemma FiberTwoRuns()
    ensures Reaches(Init(1, 0, 1), Up(0, 1, map[2 := Straggler()], Selecting(1)))
  {
    hide Reaches;
    var s, marked := Init(1, 0, 1), Fiber(FiberState.Running, false, false);
    var held, launched := Admitted2(false, None, marked), Admitted2(false, Some(Task(0, Launched)), marked);
    FiberTwoPopped();
    Become(s, Admitted2(false, None, NewFiber()), held, Popped(0, 2), Dispatching(0, 2), LoopStep);
    Become(s, held, launched, Dispatching(0, 2), Filling(1), LoopStep);
    Step(s, Up(0, 1, map[2 := launched], Filling(1)), LoopStep, Up(0, 1, map[2 := launched], Selecting(1)));
    Become(s, launched, Straggler(), Selecting(1), Selecting(1), TaskStep(2));
  }

  lemma Become(s: State, r: Rec, r': Rec, loop: Loop, loop': Loop, a: Action)
    requires Reaches(s, Up(0, 1, map[2 := r], loop))
    requires Do(Up(0, 1, map[2 := r], loop), a) == Up(0, 1, map[2 := r][2 := r'], loop')
    ensures Reaches(s, Up(0, 1, map[2 := r'], loop'))
  {
    hide Reaches; hide Do;
    assert map[2 := r][2 := r'] == map[2 := r'];
    Step(s, Up(0, 1, map[2 := r], loop), a, Up(0, 1, map[2 := r'], loop'));
  }

  /** The first run while Stop is at `life`. */
  function Stopping(cap: nat, r: Rec, stopped: bool, draining: bool, schedulerStopped: bool, loop: Loop, life: Life)
    : State
  {
    State(1, cap, [Run(true, 0)], stopped, draining, Some(1), 1, false, schedulerStopped, map[2 := r], loop, life)
  }

  /** Stop until it has stopped the scheduler. */
  lemma StopToScheduler(cap: nat, s: State, r: Rec, a: nat)
    requires Reaches(s, Up(cap, 1, map[2 := r], Selecting(a)))
    ensures Reaches(s, Stopping(cap, r, false, false, true, Selecting(a), StopScheduler))
  {
    hide Reaches;
    var up := Up(cap, 1, map[2 := r], Selecting(a));
    var s1 := up.(life := StopEntered);
    Step(s, up, StopStep, s1);
    var s2 := s1.(runs := [Run(true, 0)], life := StopCancelled);
    assert s1.runs[0 := Run(true, 0)] == [Run(true, 0)];
    Step(s, s1, StopStep, s2);
    Step(s, s2, StopStep, Stopping(cap, r, false, false, true, Selecting(a), StopScheduler));
  }

  /** Until it has cleared the scheduler; `r'` is fiber 2 off the queue. */
  lemma StopToClear(cap: nat, s: State, r: Rec, r': Rec, a: nat)
    requires Reaches(s, Stopping(cap, r, false, false, true, Selecting(a), StopScheduler))
    requires r' == r.(queued := false)
    ensures Reaches(s, Stopping(cap, r', false, false, false, LoopExited, StopCleared))
  {
    hide Reaches;
    var s3 := Stopping(cap, r, false, false, true, Selecting(a), StopScheduler);
    var s4, s5 := s3.(loop := Draining(a)), s3.(loop := LoopExited);
    Step(s, s3, LoopCancelled, s4);
    Step(s, s4, LoopStep, s5);
    assert ClearScheduler(s5).fibers == map[2 := r'];
    Step(s, s5, StopStep, Stopping(cap, r', false, false, false, LoopExited, StopCleared));
  }

  /** Until it has reaped, nothing here being pending. */
  lemma StopToReap(cap: nat, s: State, r: Rec, r': Rec, a: nat)
    requires Reaches(s, Up(cap, 1, map[2 := r], Selecting(a)))
    requires r' == r.(queued := false) && !Pending(r') && !r.reaping
    ensures Reaches(s, Stopping(cap, r', false, true, false, LoopExited, StopJoining))
  {
    hide Reaches;
    StopToScheduler(cap, s, r, a);
    StopToClear(cap, s, r, r', a);
    var s6 := Stopping(cap, r', false, false, false, LoopExited, StopCleared);
    var s7 := Stopping(cap, r', false, true, false, LoopExited, StopReaping);
    assert (map id | id in s6.fibers :: Claim(s6.fibers[id])) == map[2 := r'];
    Step(s, s6, StopStep, s7);
    Step(s, s7, StopStep, Stopping(cap, r', false, true, false, LoopExited, StopJoining));
  }

  /** A stopped runtime, main fiber 1 and one worker, after a Stop that timed out on fiber 2. */
  function AfterTimedOutStop(): State { Stopping(0, Straggler(), true, true, false, LoopExited, Idle) }

  lemma TimedOutStopIsReached()
    ensures Reaches(Init(1, 0, 1), AfterTimedOutStop())
  {
    hide Reaches;
    FiberTwoRuns();
    StopToReap(0, Init(1, 0, 1), Straggler(), Straggler(), 1);
    Step(Init(1, 0, 1), Stopping(0, Straggler(), false, true, false, LoopExited, StopJoining), StopTimeout,
         AfterTimedOutStop());
  }

  lemma StragglerOnCounter()
    ensures OnCounter(Straggler()) && !OnCounter(Straggler().(registered := false, committed := false))
  {
  }

  /**
   After a Stop that timed out, a Reset leaves the counter at 1 with nothing left to lower it:
   one run from a new runtime that gets there.
   */
  lemma ResetAfterTimeoutLeaks()
    ensures var s := AfterTimedOutStop();
      && Reaches(Init(1, 0, 1), s) && !IsRunning(s)
      && ResetRegistry(s).count == 1 && OnCounterSet(ResetRegistry(s)) == {}
  {
    TimedOutStopIsReached();
    StragglerOnCounter();
    hide Reaches; hide Straggler; hide OnCounter;
  }

  // ---- An admitted fiber that nobody dispatches ----

  /** The second run, with one registered fiber 2 as `fibers` says. */
  function UpAgain(cap: nat, fibers: map<FiberID, Rec>): State {
    State(1, cap, [Run(true, 0), Run(false, 0)], false, false, Some(1), 1, true, false, fibers, Selecting(0), Idle)
  }

  /** Fiber 2 off the queue, its call about to commit. */
  function Late(): Rec { Call2(Rechecked(false), true, false, true) }

  /** A full Stop and a new Start while the call of fiber 2 is about to commit. */
  lemma RestartedMeanwhile()
    ensures Reaches(Init(1, 1, 1), UpAgain(1, map[2 := Late()]))
  {
    hide Reaches;
    var s := Init(1, 1, 1);
    SpawnRechecked(1);
    StopToReap(1, s, Call2(Rechecked(false), true, true, true), Late(), 0);
    var t := Stopping(1, Late(), false, true, false, LoopExited, StopJoining);
    assert Live(t, 0) == {};
    Step(s, t, StopStep, t.(stopped := true, life := Idle));
    StartAgain(1, s, Late());
  }

  lemma StartAgain(cap: nat, s: State, r: Rec)
    requires Reaches(s, Stopping(cap, r, true, true, false, LoopExited, Idle))
    ensures Reaches(s, UpAgain(cap, map[2 := r]))
  {
    hide Reaches;
    var t0 := Stopping(cap, r, true, true, false, LoopExited, Idle);
    var t1 := t0.(life := StartLocked);
    Step(s, t0, StartStep(1), t1);
    var t2 := t1.(life := StartScheduler, schedulerRunning := true);
    Step(s, t1, StartStep(1), t2);
    var t3 := t2.(draining := false, life := StartRegistered);
    Step(s, t2, StartStep(1), t3);
    assert t3.runs + [Run(false, 0)] == [Run(true, 0), Run(false, 0)];
    Step(s, t3, StartStep(1), UpAgain(cap, map[2 := r]));
  }

  /** Fiber 2 admitted, registered and nowhere to be dispatched from. */
  function StrandedState(): State { UpAgain(1, map[2 := Admitted2(false, None, NewFiber())]) }

  /**
   Spawn can return without error for a fiber that is never dispatched: it is scheduled in one
   run, a Stop empties the queue without reaping it, and a Start reopens the gate before it commits.
   */
  lemma SpawnCanStrand()
    ensures var s := StrandedState();
      && Reaches(Init(1, 1, 1), s) && IsRunning(s) && IsAdmitted(s.fibers[2].pc) && s.fibers[2].registered
      && !RuntimeAdmission.Served(s, 2) && Forgotten(s, 2)
  {
    hide Reaches;
    RestartedMeanwhile();
    var up := UpAgain(1, map[2 := Late()]);
    assert up.fibers[2 := Admitted2(false, None, NewFiber())] == map[2 := Admitted2(false, None, NewFiber())];
    Step(Init(1, 1, 1), up, SpawnStep(2), StrandedState());
  }

  /** The second run with fibers 2 and 3; `more` is what fiber 3 has on the counter. */
  function Both(cap: nat, two: Rec, three: Rec, more: int): State {
    UpAgain(cap, map[2 := two, 3 := three]).(count := 1 + more)
  }

  /** The record of fiber 3 while its Spawn call is at `pc`. */
  function Call3(pc: SpawnPC, registered: bool, queued: bool, counted: bool, subtracted: nat): Rec {
    Rec(pc, registered, false, queued, None, false, NewFiber(), counted, subtracted)
  }

  /** A step of the Spawn call of fiber 3. */
  lemma Step3(cap: nat, s: State, two: Rec, r: Rec, more: int, r': Rec, more': int)
    requires Reaches(s, Both(cap, two, r, more)) && SpawnEffect(Both(cap, two, r, more), r) == Effect(r', more' - more)
    ensures Reaches(s, Both(cap, two, r', more'))
  {
    hide Reaches; hide SpawnEffect;
    var t := Both(cap, two, r, more);
    assert t.fibers[3 := r'] == map[2 := two, 3 := r'];
    Step(s, t, SpawnStep(3), Both(cap, two, r', more'));
  }

  /** The Spawn call of fiber 3 up to the check that a runtime is there. */
  lemma SpawnThree(cap: nat, s: State, two: Rec)
    requires Reaches(s, UpAgain(cap, map[2 := two]))
    ensures Reaches(s, Both(cap, two, Call3(Checked, false, false, false, 0), 0))
  {
    hide Reaches;
    assert map[2 := two][3 := NewCall()] == map[2 := two, 3 := NewCall()];
    Step(s, UpAgain(cap, map[2 := two]), SpawnStep(3), Both(cap, two, NewCall(), 0));
    Step3(cap, s, two, NewCall(), 0, Call3(Checked, false, false, false, 0), 0);
  }

  /** With a cap of one the next Spawn is then refused although nothing runs or is queued. */
  lemma StrandedUsesUpTheCap()
    ensures var two := Admitted2(false, None, NewFiber());
      Reaches(Init(1, 1, 1), Both(1, two, Call3(Returned(CapReached), false, false, true, 1), 0))
  {
    hide Reaches;
    SpawnCanStrand();
    var s, two := Init(1, 1, 1), Admitted2(false, None, NewFiber());
    SpawnThree(1, s, two);
    Step3(1, s, two, Call3(Checked, false, false, false, 0), 0, Call3(OverCap, false, false, true, 0), 1);
    Step3(1, s, two, Call3(OverCap, false, false, true, 0), 1, Call3(Returned(CapReached), false, false, true, 1), 0);
  }
}
