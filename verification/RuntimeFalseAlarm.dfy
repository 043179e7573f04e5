/**
 Two runs from a new runtime that end where the detector's no-progress test
 (internal/runtime/deadlock.go) is met although fibers can still move: by a fiber that runs on
 after its Spawn was rolled back, and by a blocked fiber left over from a Stop that timed out.
 */
module RuntimeFalseAlarm {
  import opened Fibers
  import opened Registries
  import opened Sequences
  import opened Runtime
  import opened RuntimeInvariant
  import opened RuntimeTheorems
  import opened RuntimeSlots
  import opened RuntimeRest
  import opened RuntimeProgress
  import opened RuntimeWitness
  import Detector

  /** Two workers, main fiber 1, the first run. */
  function Duo(cancelled: bool, count: int, fibers: map<FiberID, Rec>, loop: Loop): State {
    State(2, 0, [Run(cancelled, 0)], false, false, Some(1), count, true, false, fibers, loop, Idle)
  }

  lemma DuoStarts()
    ensures Reaches(Init(2, 0, 1), Duo(false, 0, map[], Selecting(0)))
  {
    hide Reaches;
    var s := Init(2, 0, 1);
    ReachesSelf(s);
    var s1 := s.(life := StartLocked);
    Step(s, s, StartStep(1), s1);
    var s2 := s1.(life := StartScheduler, schedulerRunning := true);
    Step(s, s1, StartStep(1), s2);
    var s3 := s2.(life := StartRegistered);
    Step(s, s2, StartStep(1), s3);
    Step(s, s3, StartStep(1), Duo(false, 0, map[], Selecting(0)));
  }

  /** A step that changes the record of fiber 2, alone in the runtime. */
  lemma Go2(s: State, count: int, r: Rec, loop: Loop, a: Action, count': int, r': Rec, loop': Loop)
    requires Reaches(s, Duo(false, count, map[2 := r], loop))
    requires Do(Duo(false, count, map[2 := r], loop), a) == Duo(false, count', map[2 := r][2 := r'], loop')
    ensures Reaches(s, Duo(false, count', map[2 := r'], loop'))
  {
    hide Reaches; hide Do;
    assert map[2 := r][2 := r'] == map[2 := r'];
    Step(s, Duo(false, count, map[2 := r], loop), a, Duo(false, count', map[2 := r'], loop'));
  }

  /** A step of the Spawn call of fiber 2. */
  lemma Spawn2(s: State, count: int, r: Rec, count': int, r': Rec)
    requires Reaches(s, Duo(false, count, map[2 := r], Selecting(0)))
    requires SpawnEffect(Duo(false, count, map[2 := r], Selecting(0)), r) == Effect(r', count' - count)
    ensures Reaches(s, Duo(false, count', map[2 := r'], Selecting(0)))
  {
    hide Reaches; hide SpawnEffect;
    Go2(s, count, r, Selecting(0), SpawnStep(2), count', r', Selecting(0));
  }

  lemma DuoScheduled(s: State)
    requires s == Init(2, 0, 1)
    ensures Reaches(s, Duo(false, 1, map[2 := Call2(Scheduled, true, true, true)], Selecting(0)))
  {
    hide Reaches;
    DuoStarts();
    Step(s, Duo(false, 0, map[], Selecting(0)), SpawnStep(2), Duo(false, 0, map[2 := NewCall()], Selecting(0)));
    hide Do;
    Spawn2(s, 0, NewCall(), 0, Call2(Checked, false, false, false));
    Spawn2(s, 0, Call2(Checked, false, false, false), 1, Call2(Counted, false, false, true));
    Spawn2(s, 1, Call2(Counted, false, false, true), 1, Call2(Inserted, true, false, true));
    Spawn2(s, 1, Call2(Inserted, true, false, true), 1, Call2(ScheduleOpen, true, false, true));
    Spawn2(s, 1, Call2(ScheduleOpen, true, false, true), 1, Call2(Scheduled, true, true, true));
  }

  lemma DuoPopped(s: State)
    requires s == Init(2, 0, 1)
    ensures Reaches(s, Duo(false, 1, map[2 := Admitted2(false, None, NewFiber())], Loop.Popped(0, 2)))
  {
    hide Reaches;
    var q, off := Admitted2(true, None, NewFiber()), Admitted2(false, None, NewFiber());
    DuoScheduled(s);
    Spawn2(s, 1, Call2(Scheduled, true, true, true), 1, Call2(GotContext(0), true, true, true));
    Spawn2(s, 1, Call2(GotContext(0), true, true, true), 1, Call2(Rechecked(false), true, true, true));
    Spawn2(s, 1, Call2(Rechecked(false), true, true, true), 1, q);
    Step(s, Duo(false, 1, map[2 := q], Selecting(0)), LoopTick, Duo(false, 1, map[2 := q], Filling(0)));
    Step(s, Duo(false, 1, map[2 := q], Filling(0)), LoopStep, Duo(false, 1, map[2 := q], Choosing(0)));
    Go2(s, 1, q, Choosing(0), LoopPop(2), 1, off, Loop.Popped(0, 2));
  }

  /** Fiber 2, blocked in its function in the first run. */
  function Waiter(): Rec { Admitted2(false, Some(Task(0, Executing)), Fiber(Blocked, true, false)) }

  lemma DuoBlocked(s: State)
    requires s == Init(2, 0, 1)
    ensures Reaches(s, Duo(false, 1, map[2 := Waiter()], Filling(1)))
  {
    hide Reaches;
    var marked := Fiber(FiberState.Running, false, false);
    var off, held, launched := Admitted2(false, None, NewFiber()), Admitted2(false, None, marked),
      Admitted2(false, Some(Task(0, Launched)), marked);
    DuoPopped(s);
    Go2(s, 1, off, Loop.Popped(0, 2), LoopStep, 1, held, Dispatching(0, 2));
    Go2(s, 1, held, Dispatching(0, 2), LoopStep, 1, launched, Filling(1));
    Go2(s, 1, launched, Filling(1), TaskStep(2), 1, Straggler(), Filling(1));
    Go2(s, 1, Straggler(), Filling(1), TaskBlock(2), 1, Waiter(), Filling(1));
  }

  // ---- A fiber of a rolled-back Spawn ----

  /** With fiber 2 blocked, and fiber 3 as `r` says. */
  function Trio(cancelled: bool, count: int, r: Rec, loop: Loop): State {
    Duo(cancelled, count, map[2 := Waiter(), 3 := r], loop)
  }

  /** A step that changes the record of fiber 3. */
  lemma Go3(s: State, cancelled: bool, count: int, r: Rec, loop: Loop, a: Action, count': int, r': Rec, loop': Loop)
    requires Reaches(s, Trio(cancelled, count, r, loop))
    requires Do(Trio(cancelled, count, r, loop), a)
      == Duo(cancelled, count', map[2 := Waiter(), 3 := r][3 := r'], loop')
    ensures Reaches(s, Trio(cancelled, count', r', loop'))
  {
    hide Reaches; hide Do; hide Waiter;
    assert map[2 := Waiter(), 3 := r][3 := r'] == map[2 := Waiter(), 3 := r'];
    Step(s, Trio(cancelled, count, r, loop), a, Trio(cancelled, count', r', loop'));
  }

  /** A step of the Spawn call of fiber 3. */
  lemma Spawn3(s: State, cancelled: bool, count: int, r: Rec, loop: Loop, count': int, r': Rec)
    requires Reaches(s, Trio(cancelled, count, r, loop))
    requires SpawnEffect(Trio(cancelled, count, r, loop), r) == Effect(r', count' - count)
    ensures Reaches(s, Trio(cancelled, count', r', loop))
  {
    hide Reaches; hide SpawnEffect; hide Waiter;
    Go3(s, cancelled, count, r, loop, SpawnStep(3), count', r', loop);
  }

  lemma ThreeScheduled(s: State)
    requires s == Init(2, 0, 1)
    ensures Reaches(s, Trio(false, 2, Call3(Scheduled, true, true, true, 0), Filling(1)))
  {
    hide Reaches; hide Waiter;
    DuoBlocked(s);
    assert map[2 := Waiter()][3 := NewCall()] == map[2 := Waiter(), 3 := NewCall()];
    Step(s, Duo(false, 1, map[2 := Waiter()], Filling(1)), SpawnStep(3), Trio(false, 1, NewCall(), Filling(1)));
    hide Do;
    Spawn3(s, false, 1, NewCall(), Filling(1), 1, Call3(Checked, false, false, false, 0));
    Spawn3(s, false, 1, Call3(Checked, false, false, false, 0), Filling(1), 2, Call3(Counted, false, false, true, 0));
    Spawn3(s, false, 2, Call3(Counted, false, false, true, 0), Filling(1), 2, Call3(Inserted, true, false, true, 0));
    Spawn3(s, false, 2, Call3(Inserted, true, false, true, 0), Filling(1),
           2, Call3(ScheduleOpen, true, false, true, 0));
    Spawn3(s, false, 2, Call3(ScheduleOpen, true, false, true, 0), Filling(1),
           2, Call3(Scheduled, true, true, true, 0));
  }

  /** Fiber 3 dispatched before its Spawn call has committed. */
  function Started3(pc: SpawnPC, registered: bool, task: Option<Task>, fiber: Fiber, subtracted: nat): Rec {
    Rec(pc, registered, false, false, task, false, fiber, true, subtracted)
  }

  /** Fiber 3 inside its function. */
  function InWork(pc: SpawnPC, registered: bool, subtracted: nat): Rec {
    Started3(pc, registered, Some(Task(0, Executing)), Fiber(FiberState.Running, true, false), subtracted)
  }

  lemma ThreeRuns(s: State)
    requires s == Init(2, 0, 1)
    ensures Reaches(s, Trio(false, 2, InWork(Scheduled, true, 0), Filling(2)))
  {
    hide Reaches; hide Waiter;
    var q, marked := Call3(Scheduled, true, true, true, 0), Fiber(FiberState.Running, false, false);
    var off, held := Call3(Scheduled, true, false, true, 0), Started3(Scheduled, true, None, marked, 0);
    var launched := Started3(Scheduled, true, Some(Task(0, Launched)), marked, 0);
    ThreeScheduled(s);
    Step(s, Trio(false, 2, q, Filling(1)), LoopStep, Trio(false, 2, q, Choosing(1)));
    Go3(s, false, 2, q, Choosing(1), LoopPop(3), 2, off, Loop.Popped(1, 3));
    Go3(s, false, 2, off, Loop.Popped(1, 3), LoopStep, 2, held, Dispatching(1, 3));
    Go3(s, false, 2, held, Dispatching(1, 3), LoopStep, 2, launched, Filling(2));
    Go3(s, false, 2, launched, Filling(2), TaskStep(3), 2, InWork(Scheduled, true, 0), Filling(2));
  }

  /** The Spawn of fiber 3 has returned its error, and fiber 3 runs. */
  function Unseen(): Rec { InWork(Returned(StoppedDuringSpawn(true)), false, 1) }

  lemma ThreeRolledBack(s: State)
    requires s == Init(2, 0, 1)
    ensures Reaches(s, Trio(true, 1, Unseen(), Filling(2)))
  {
    hide Reaches; hide Waiter;
    ThreeRuns(s);
    var t := Trio(false, 2, InWork(Scheduled, true, 0), Filling(2));
    assert t.runs[0 := Run(true, 0)] == [Run(true, 0)];
    Step(s, t, CancelRun, Trio(true, 2, InWork(Scheduled, true, 0), Filling(2)));
    hide Do;
    Spawn3(s, true, 2, InWork(Scheduled, true, 0), Filling(2), 2, InWork(GotContext(0), true, 0));
    Spawn3(s, true, 2, InWork(GotContext(0), true, 0), Filling(2), 2, InWork(Rechecked(true), true, 0));
    Spawn3(s, true, 2, InWork(Rechecked(true), true, 0), Filling(2), 2, InWork(RolledBack(true), false, 0));
    Spawn3(s, true, 2, InWork(RolledBack(true), false, 0), Filling(2), 2, InWork(Unscheduled(true), false, 0));
    Spawn3(s, true, 2, InWork(Unscheduled(true), false, 0), Filling(2), 1, Unseen());
  }

  function Unnoticed(): State { Trio(true, 1, Unseen(), Filling(2)) }

  lemma UnnoticedScan()
    ensures ScanOf(Unnoticed()) == Detector.Scan(1, 0, 0) && NoStaleFibers(Unnoticed())
  {
    var s := Unnoticed();
    assert InState(s, Blocked) == {2};
    assert InState(s, Ready) == {};
    assert InState(s, FiberState.Running) == {};
    assert forall run: int :: run < 0 ==> Live(s, run) == {};
  }

  /**
   A run of two workers.  Fiber 2 blocks; fiber 3 is dispatched before its Spawn commits, the run
   is cancelled, and the Spawn rolls back with an error while fiber 3 runs on.  The scan sees one
   blocked fiber and nothing else, so the test is met; yet fiber 3 can return, and can wake fiber 2.
   */
  lemma RolledBackFiberIsMissed()
    ensures var s := Unnoticed();
      && Reaches(Init(2, 0, 1), s) && IsRunning(s) && NoStaleFibers(s)
      && Detector.NoProgress(ScanOf(s), s.numWorkers)
      && !RestsForever(s) && !NothingHidden(s)
      && Within(TaskUnblock(2, Some(3)))
      && InFunction(Do(s, TaskUnblock(2, Some(3))).fibers[2], FiberState.Running)
  {
    var s := Unnoticed();
    ThreeRolledBack(Init(2, 0, 1));
    UnnoticedScan();
    hide Reaches; hide RestsForever; hide ScanOf; hide NoStaleFibers;
    NotAtRest(s, Do(s, TaskReturn(3)), 3);
    NoRestBy(s, TaskReturn(3));
    assert Stirs(s, 3);
  }

  // ---- A fiber left over from a timed-out Stop ----

  lemma ReachesSound(numWorkers: int, maxFibers: nat, main: FiberID, s: State)
    requires Reaches(Init(numWorkers, maxFibers, main), s)
    ensures Sound(s)
  {
    var actions :| After(Init(numWorkers, maxFibers, main), actions) == s;
    ReachableIsSound(numWorkers, maxFibers, main, actions);
  }

  /** One worker, the second run: fiber 2 blocked since the first, fiber 3 queued. */
  function LeftOver(): State { Both(0, Waiter(), Call3(Scheduled, true, true, true, 0), 1) }

  lemma LeftOverIsReached()
    ensures Reaches(Init(1, 0, 1), LeftOver())
  {
    hide Reaches;
    var s, t := Init(1, 0, 1), AfterTimedOutStop();
    TimedOutStopIsReached();
    assert map[2 := Straggler()][2 := Waiter()] == map[2 := Waiter()];
    Step(s, t, TaskBlock(2), Stopping(0, Waiter(), true, true, false, LoopExited, Idle));
    hide Do; hide Waiter;
    StartAgain(0, s, Waiter());
    SpawnThree(0, s, Waiter());
    Step3(0, s, Waiter(), Call3(Checked, false, false, false, 0), 0, Call3(Counted, false, false, true, 0), 1);
    Step3(0, s, Waiter(), Call3(Counted, false, false, true, 0), 1, Call3(Inserted, true, false, true, 0), 1);
    Step3(0, s, Waiter(), Call3(Inserted, true, false, true, 0), 1, Call3(ScheduleOpen, true, false, true, 0), 1);
    Step3(0, s, Waiter(), Call3(ScheduleOpen, true, false, true, 0), 1, Call3(Scheduled, true, true, true, 0), 1);
  }

  lemma LeftOverScan()
    ensures ScanOf(LeftOver()) == Detector.Scan(1, 1, 0) && !NoStaleFibers(LeftOver())
  {
    var s := LeftOver();
    assert InState(s, Blocked) == {2};
    assert InState(s, Ready) == {3};
    assert InState(s, FiberState.Running) == {};
    assert 2 in Live(s, 0);
  }

  /**
   A run of one worker.  Stop times out on fiber 2, which then blocks; after the next Start fiber 3
   is queued.  The scan sees as many blocked fibers as there are workers, so the test is met; yet
   the slot is free, and the loop can dispatch fiber 3.
   */
  lemma LeftOverFiberIsMiscounted()
    ensures var s := LeftOver();
      && Reaches(Init(1, 0, 1), s) && IsRunning(s) && NothingHidden(s)
      && Detector.NoProgress(ScanOf(s), s.numWorkers) && !RestsForever(s)
  {
    var s := LeftOver();
    LeftOverIsReached();
    LeftOverScan();
    ReachesSound(1, 0, 1, s);
    hide Reaches; hide RestsForever; hide ScanOf; hide Sound; hide NoStaleFibers;
    QueuedMoves(s, 3);
  }
}
