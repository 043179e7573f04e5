/**
 The admission, dispatch and shutdown protocol of internal/runtime/runtime.go as a
 transition system.

 There is one step per lock region or atomic operation.  Every Spawn call, every dispatched
 fiber, the execution loop and the one lifecycle call in progress (Start, Stop and Reset
 exclude each other) have a program counter; their local variables are its arguments.  An
 action names who moves; an action that is not enabled leaves the state as it is, so every
 sequence of actions is a run, and every interleaving is such a sequence.

 A Spawn call is identified by the identifier of the fiber it creates, and one record per
 identifier says whether the fiber is in the fiber map, in the admitted set, in the
 scheduler and so on; `RegistryOf` reads the maps of the source back off the records.
 Next may return any queued fiber, which covers the four scheduling policies.
 */
module Runtime {
  import opened Fibers
  import opened Registries
  import opened Sequences

  const RESULT_CAPACITY: nat := 1024

  datatype SpawnResult =
    | NotStarted
    | CapReached
    | ScheduleError
    | StoppedDuringSpawn(subtracted: bool)   // whether this call took the fiber off the counter
    | Admitted

  datatype SpawnPC =
    | Entered
    | Checked                        // the runtime was seen running
    | Counted                        // counter raised, within the cap
    | OverCap                        // counter raised beyond the cap, to be undone
    | Inserted                       // in the fiber map
    | ScheduleOpen                   // Schedule saw a scheduler that is not stopped
    | ScheduleRefused                // Schedule saw a stopped scheduler
    | RefusalRemoved                 // taken out of the fiber map again
    | Scheduled                      // in the scheduler queue
    | GotContext(run: nat)           // holds the run context read under rt.mu
    | Rechecked(stopping: bool)
    | RolledBack(present: bool)      // taken out of the fiber map by the rollback
    | Unscheduled(present: bool)     // and out of the scheduler
    | Returned(result: SpawnResult)

  datatype TaskPC =
    | Launched                       // goroutine started, Run not entered
    | Executing                      // inside the fiber function
    | Ended                          // Run returned
    | Marked                         // scheduler.MarkCompleted done
    | Removed(present: bool)         // registry region of complete done
    | Reporting(present: bool)       // counter settled, result not yet sent
    | Exited(present: bool)

  datatype Task = Task(run: nat, pc: TaskPC)

  /** What the runtime's maps, the scheduler and the goroutines say about one fiber. */
  datatype Rec = Rec(
    pc: SpawnPC,
    registered: bool,            // in rt.fibers
    committed: bool,             // in rt.admitted
    queued: bool,                // in the scheduler
    task: Option<Task>,          // the goroutine that runs it
    reaping: bool,               // reaped by Stop, counter not yet lowered
    fiber: Fiber,
    counted: bool,               // history: the counter was raised for it
    subtracted: nat)             // history: how often the counter was lowered for it

  datatype Loop =
    | NoLoop
    | Selecting(active: nat)
    | Filling(active: nat)                        // inside the ticker case
    | Choosing(active: nat)                       // Next saw a scheduler that is not stopped
    | Popped(active: nat, id: FiberID)
    | Dispatching(active: nat, id: FiberID)       // marked scheduled, goroutine not started
    | Draining(active: nat)
    | LoopExited

  datatype Life =
    | Idle
    | StopEntered
    | StopCancelled
    | StopScheduler
    | StopCleared
    | StopReaping
    | StopJoining
    | StartLocked                                 // holds rt.mu
    | StartScheduler
    | StartRegistered
    | ResetRegistered

  datatype Run = Run(cancelled: bool, results: nat)

  datatype State = State(
    numWorkers: nat,
    maxFibers: nat,                    // 0 means no cap
    runs: seq<Run>,                    // one per Start; the epoch is its length
    stopped: bool,                     // rt.stopped is closed
    draining: bool,
    main: Option<FiberID>,             // the main fiber, in rt.fibers whenever there is one
    count: int,                        // activeFiberCount
    schedulerRunning: bool,
    schedulerStopped: bool,
    fibers: map<FiberID, Rec>,
    loop: Loop,
    life: Life)

  datatype Action =
    | SpawnStep(id: FiberID)
    | LoopTick
    | LoopReceive
    | LoopCancelled
    | LoopStep
    | LoopPop(id: FiberID)
    | TaskStep(id: FiberID)
    | TaskReturn(id: FiberID)
    | TaskBlock(id: FiberID)
    | TaskUnblock(id: FiberID, waker: Option<FiberID>)   // by another fiber, or from outside
    | TaskReport(id: FiberID)
    | TaskAbandon(id: FiberID)
    | CancelRun                                          // the caller's own context is done
    | StopStep
    | StopSubtract(id: FiberID)
    | StopTimeout
    | StartStep(main: FiberID)
    | ResetStep

  /** NewRuntime: the worker count is clamped to [1, 64]. */
  function Init(numWorkers: int, maxFibers: nat, main: FiberID): State {
    State(if numWorkers <= 0 then 1 else if numWorkers > 64 then 64 else numWorkers, maxFibers, [], true,
          false, Some(main), 0, false, false, map[], NoLoop, Idle)
  }

  // ---------------------------------------------------------------- shared notions

  predicate IsRunning(s: State) { |s.runs| > 0 && !s.stopped }

  /** Start holds rt.mu for writing, so nobody reads what it guards. */
  predicate MuHeld(s: State) { s.life.StartLocked? || s.life.StartScheduler? || s.life.StartRegistered? }

  predicate RunCancelled(s: State, r: int) { 0 <= r < |s.runs| && s.runs[r].cancelled }

  /** The registered fibers other than the main one. */
  function NonMain(s: State): set<FiberID> { set id | id in s.fibers && s.fibers[id].registered }

  /** The fibers whose admission is committed. */
  function Committeds(s: State): set<FiberID> { set id | id in s.fibers && s.fibers[id].committed }

  /** The state guarded by fibersMu. */
  function RegistryOf(s: State): Registry {
    Registry(NonMain(s) + (if s.main.Some? then {s.main.value} else {}), Committeds(s), s.draining)
  }

  predicate LiveIn(r: Rec, run: int) { r.task.Some? && r.task.value.run == run && !r.task.value.pc.Exited? }

  /** Dispatched fibers of a run whose goroutine has not exited. */
  function Live(s: State, run: int): set<FiberID> { set id | id in s.fibers && LiveIn(s.fibers[id], run) }

  // ---------------------------------------------------------------- steps that concern one fiber

  /** A new record, and what the step does to activeFiberCount. */
  datatype Effect = Effect(rec: Rec, delta: int)

  function Keep(r: Rec): Effect { Effect(r, 0) }

  function Raise(r: Rec): Effect { Effect(r.(counted := true), 1) }

  function Lower(r: Rec): Effect { Effect(r.(subtracted := r.subtracted + 1), -1) }

  function Put(s: State, id: FiberID, e: Effect): State {
    s.(fibers := s.fibers[id := e.rec], count := s.count + e.delta)
  }

  function NewCall(): Rec { Rec(Entered, false, false, false, None, false, NewFiber(), false, 0) }

  /** The next step of a Spawn call. */
  function SpawnEffect(s: State, r: Rec): Effect {
    match r.pc
    case Entered => Keep(if MuHeld(s) then r else r.(pc := if IsRunning(s) then Checked else Returned(NotStarted)))
    case Checked =>
      var over := s.maxFibers > 0 && s.count + 1 > s.maxFibers;
      Raise(r.(pc := if over then OverCap else Counted))
    case OverCap => Lower(r.(pc := Returned(CapReached)))
    case Counted => Keep(r.(pc := Inserted, registered := true, fiber := NewFiber()))
    case Inserted => Keep(r.(pc := if s.schedulerStopped then ScheduleRefused else ScheduleOpen))
    case ScheduleOpen => Keep(r.(pc := Scheduled, queued := true))
    case ScheduleRefused => Keep(r.(pc := RefusalRemoved, registered := false))
    case RefusalRemoved => Lower(r.(pc := Returned(ScheduleError)))
    case Scheduled =>
      Keep(if MuHeld(s) then r
           else r.(pc := if |s.runs| == 0 then Rechecked(false) else GotContext(|s.runs| - 1)))
    case GotContext(run) => Keep(r.(pc := Rechecked(RunCancelled(s, run))))
    case Rechecked(stopping) =>
      Keep(if stopping || s.draining then r.(pc := RolledBack(r.registered), registered := false, committed := false)
           else r.(pc := Returned(Admitted), committed := true))
    case RolledBack(present) => Keep(r.(pc := Unscheduled(present), queued := false))
    case Unscheduled(present) =>
      var done := r.(pc := Returned(StoppedDuringSpawn(present)));
      if present then Lower(done) else Keep(done)
    case Returned(_) => Keep(r)
  }

  function At(r: Rec, pc: TaskPC): Rec
    requires r.task.Some?
  {
    r.(task := Some(r.task.value.(pc := pc)))
  }

  /** The next step of a fiber's goroutine, outside the fiber function. */
  function TaskEffect(r: Rec): Effect {
    if r.task.None? then Keep(r)
    else
      match r.task.value.pc
      case Launched =>
        var (f, execute) := EnterRun(r.fiber);
        Keep(At(r, if execute then Executing else Ended).(fiber := f))
      case Ended => Keep(At(r, Marked).(queued := false))
      case Marked => Keep(At(r, Removed(r.registered)).(registered := false, committed := false))
      case Removed(present) => if present then Lower(At(r, Reporting(present))) else Keep(At(r, Reporting(present)))
      case _ => Keep(r)
  }

  predicate InFunction(r: Rec, state: FiberState) {
    r.task.Some? && r.task.value.pc.Executing? && r.fiber.state == state
  }

  /** Who may wake a fiber: anybody outside the runtime, or a fiber that is itself running. */
  predicate MayWake(s: State, waker: Option<FiberID>) {
    waker.None? || (waker.value in s.fibers && InFunction(s.fibers[waker.value], FiberState.Running))
  }

  // ---------------------------------------------------------------- the execution loop

  function Results(s: State): nat { if |s.runs| == 0 then 0 else s.runs[|s.runs| - 1].results }

  function WithResults(s: State, r: nat, results: nat): State
    requires r < |s.runs|
  {
    s.(runs := s.runs[r := s.runs[r].(results := results)])
  }

  function Less1(n: nat): nat { if n > 0 then n - 1 else 0 }

  function LoopNext(s: State): State {
    match s.loop
    case Filling(a) =>
      s.(loop := if a < s.numWorkers && !s.schedulerStopped then Choosing(a) else Selecting(a))
    case Choosing(a) =>
      if exists id :: id in s.fibers && s.fibers[id].queued then s else s.(loop := Selecting(a))
    case Popped(a, id) =>
      if id in s.fibers && s.fibers[id].fiber.state == Ready then
        var r := s.fibers[id];
        Put(s, id, Keep(r.(fiber := MarkScheduled(r.fiber)))).(loop := Dispatching(a, id))
      else s.(loop := Filling(a))
    case Dispatching(a, id) =>
      if id !in s.fibers || |s.runs| == 0 then s
      else
        var r := s.fibers[id];
        Put(s, id, Keep(r.(task := Some(Task(|s.runs| - 1, Launched))))).(loop := Filling(a + 1))
    case Draining(a) =>
      if Results(s) > 0 then WithResults(s, |s.runs| - 1, Results(s) - 1).(loop := Draining(Less1(a)))
      else s.(loop := LoopExited)
    case _ => s
  }

  // ---------------------------------------------------------------- Stop, Start, Reset

  function CancelCurrent(s: State): State {
    if |s.runs| == 0 then s
    else
      var r := |s.runs| - 1;
      s.(runs := s.runs[r := s.runs[r].(cancelled := true)])
  }

  /** scheduler.Clear: the queue is emptied and the stopped flag lifted. */
  function ClearScheduler(s: State): State {
    s.(fibers := map id | id in s.fibers :: s.fibers[id].(queued := false), schedulerStopped := false)
  }

  /** A fiber that reapPending claims: registered, committed and never dispatched. */
  predicate Pending(r: Rec) { r.registered && r.committed && r.fiber.state == Ready }

  function Claim(r: Rec): Rec {
    if Pending(r) then r.(registered := false, committed := false, reaping := true) else r
  }

  function StopNext(s: State): State {
    match s.life
    case Idle => if IsRunning(s) then s.(life := StopEntered) else s
    case StopEntered => CancelCurrent(s).(life := StopCancelled)
    case StopCancelled =>
      if s.schedulerRunning then s.(life := StopScheduler, schedulerRunning := false, schedulerStopped := true)
      else s.(life := StopScheduler)
    case StopScheduler => if s.loop.LoopExited? then ClearScheduler(s).(life := StopCleared) else s
    case StopCleared =>
      s.(draining := true, fibers := map id | id in s.fibers :: Claim(s.fibers[id]), life := StopReaping)
    case StopReaping =>
      if exists id :: id in s.fibers && s.fibers[id].reaping then s else s.(life := StopJoining)
    case StopJoining => if Live(s, |s.runs| - 1) == {} then s.(life := Idle, stopped := true) else s
    case _ => s
  }

  function StartNext(s: State, main: FiberID): State {
    match s.life
    case Idle => if IsRunning(s) then s else s.(life := StartLocked)
    case StartLocked =>
      if s.schedulerRunning then s.(life := Idle)
      else s.(life := StartScheduler, schedulerRunning := true, schedulerStopped := false)
    case StartScheduler =>
      if s.main.Some? then s.(draining := false, life := StartRegistered)
      else if main in s.fibers then s
      else s.(main := Some(main), draining := false, life := StartRegistered)
    case StartRegistered =>
      s.(runs := s.runs + [Run(false, 0)], stopped := false, loop := Selecting(0), life := Idle)
    case _ => s
  }

  /** The lock region of Reset, whatever the state it is called in. */
  function ResetRegistry(s: State): State {
    s.(main := None, draining := false, life := ResetRegistered,
       fibers := map id | id in s.fibers :: s.fibers[id].(registered := false, committed := false))
  }

  /** Reset, called when no fiber but the main one is registered. */
  function ResetNext(s: State): State {
    match s.life
    case Idle => if IsRunning(s) || NonMain(s) != {} then s else ResetRegistry(s)
    case ResetRegistered => ClearScheduler(s).(life := Idle)
    case _ => s
  }

  // ---------------------------------------------------------------- runs

  function Do(s: State, a: Action): State {
    match a
    case SpawnStep(id) =>
      if id in s.fibers then Put(s, id, SpawnEffect(s, s.fibers[id]))
      else if Some(id) == s.main then s
      else Put(s, id, Keep(NewCall()))
    case LoopTick => if s.loop.Selecting? then s.(loop := Filling(s.loop.active)) else s
    case LoopReceive =>
      if s.loop.Selecting? && Results(s) > 0 then
        WithResults(s, |s.runs| - 1, Results(s) - 1).(loop := Selecting(Less1(s.loop.active)))
      else s
    case LoopCancelled =>
      if s.loop.Selecting? && RunCancelled(s, |s.runs| - 1) then s.(loop := Draining(s.loop.active)) else s
    case LoopStep => LoopNext(s)
    case LoopPop(id) =>
      if s.loop.Choosing? && id in s.fibers && s.fibers[id].queued then
        Put(s, id, Keep(s.fibers[id].(queued := false))).(loop := Popped(s.loop.active, id))
      else s
    case TaskStep(id) => if id in s.fibers then Put(s, id, TaskEffect(s.fibers[id])) else s
    case TaskReturn(id) =>
      if id in s.fibers && InFunction(s.fibers[id], FiberState.Running) then
        Put(s, id, Keep(At(s.fibers[id], Ended).(fiber := LeaveRun(s.fibers[id].fiber))))
      else s
    case TaskBlock(id) =>
      if id in s.fibers && InFunction(s.fibers[id], FiberState.Running) then
        Put(s, id, Keep(s.fibers[id].(fiber := Block(s.fibers[id].fiber))))
      else s
    case TaskUnblock(id, waker) =>
      if id in s.fibers && InFunction(s.fibers[id], Blocked) && MayWake(s, waker) then
        Put(s, id, Keep(s.fibers[id].(fiber := Unblock(s.fibers[id].fiber))))
      else s
    case TaskReport(id) =>
      if id in s.fibers && s.fibers[id].task.Some? && s.fibers[id].task.value.pc.Reporting? then
        var t := s.fibers[id].task.value;
        if t.run < |s.runs| && s.runs[t.run].results < RESULT_CAPACITY then
          WithResults(Put(s, id, Keep(At(s.fibers[id], Exited(t.pc.present)))), t.run, s.runs[t.run].results + 1)
        else s
      else s
    case TaskAbandon(id) =>
      if id in s.fibers && s.fibers[id].task.Some? && s.fibers[id].task.value.pc.Reporting?
         && RunCancelled(s, s.fibers[id].task.value.run) then
        Put(s, id, Keep(At(s.fibers[id], Exited(s.fibers[id].task.value.pc.present))))
      else s
    case CancelRun => CancelCurrent(s)
    case StopStep => StopNext(s)
    case StopSubtract(id) =>
      if s.life.StopReaping? && id in s.fibers && s.fibers[id].reaping then
        Put(s, id, Lower(s.fibers[id].(reaping := false)))
      else s
    case StopTimeout => if s.life.StopJoining? then s.(life := Idle, stopped := true) else s
    case StartStep(main) => StartNext(s, main)
    case ResetStep => ResetNext(s)
  }

  function After(s: State, actions: seq<Action>): State
    decreases |actions|
  {
    if actions == [] then s else After(Do(s, actions[0]), actions[1..])
  }
}
