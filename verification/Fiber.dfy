/**
 The per-fiber state machine of internal/fiber/fiber.go.  Every method of the source holds
 the fiber's own lock for its whole effect, except Run, which takes it twice: once to claim
 the execution and once, after the function returned or panicked, to record completion.
 */
module Fibers {

  /** A fiber identifier; identifiers are issued from 1, so 0 means "no fiber". */
  type FiberID = id: nat | 0 < id witness 1

  datatype FiberState = Ready | Running | Blocked | Finished | Dead

  datatype Fiber = Fiber(state: FiberState, runStarted: bool, completion: bool)

  function NewFiber(): Fiber { Fiber(Ready, false, false) }

  function MarkScheduled(f: Fiber): Fiber { if f.completion then f else f.(state := Running) }

  /** The first lock region of Run; the flag says whether the function is executed. */
  function EnterRun(f: Fiber): (Fiber, bool) {
    if f.runStarted || f.completion then (f, false) else (f.(runStarted := true, state := Running), true)
  }

  /** The deferred lock region of Run. */
  function LeaveRun(f: Fiber): Fiber { f.(state := Finished, completion := true) }

  function Block(f: Fiber): Fiber { if f.completion then f else f.(state := Blocked) }

  function Unblock(f: Fiber): Fiber {
    if f.completion then f else f.(state := if f.runStarted then Running else Ready)
  }

  datatype FiberOp = Schedule | Enter | Leave | Park | Wake

  /** One step; `Leave` is taken only by the execution that entered. */
  function Call(f: Fiber, op: FiberOp): Fiber {
    match op
    case Schedule => MarkScheduled(f)
    case Enter => EnterRun(f).0
    case Leave => if f.runStarted && !f.completion then LeaveRun(f) else f
    case Park => Block(f)
    case Wake => Unblock(f)
  }

  function Replay(f: Fiber, ops: seq<FiberOp>): Fiber
    decreases |ops|
  {
    if ops == [] then f else Replay(Call(f, ops[0]), ops[1..])
  }

  /** How often the function is executed along a run. */
  function Executions(f: Fiber, ops: seq<FiberOp>): nat
    decreases |ops|
  {
    if ops == [] then 0
    else (if ops[0] == Enter && EnterRun(f).1 then 1 else 0) + Executions(Call(f, ops[0]), ops[1..])
  }

  /**
   Whatever calls are made on a new fiber and in whatever order, its function is executed
   at most once, and exactly when `runStarted` is set; `Finished` is reached exactly on
   completion, and is never left.
   */
  lemma {:induction false} RunsAtMostOnce(f: Fiber, ops: seq<FiberOp>)
    requires f.completion ==> f.runStarted
    requires f.completion <==> f.state == Finished
    requires f.state != Dead
    ensures var f' := Replay(f, ops);
      && Executions(f, ops) == (if !f.runStarted && f'.runStarted then 1 else 0)
      && (f.runStarted ==> f'.runStarted)
      && (f'.completion <==> f'.state == Finished)
      && (f.completion ==> f' == f)
    decreases |ops|
  {
    if ops != [] { RunsAtMostOnce(Call(f, ops[0]), ops[1..]); }
  }

  /**
   The fiber object.  The ghost log holds the calls made so far in lock order; what a call
   reports and leaves behind is stated by the log alone.  RuntimeFibers.dfy proves that the
   fibers of the transition system see such calls and nothing else.
   */
  class FiberObject {
    var state: FiberState
    var runStarted: bool
    var completion: bool
    ghost var calls: seq<FiberOp>

    ghost function View(): Fiber reads this { Fiber(state, runStarted, completion) }

    ghost predicate Valid() reads this {
      && (runStarted <==> Enter in calls) && (completion <==> Leave in calls)
      && (completion ==> runStarted) && (completion <==> state == Finished)
    }

    constructor ()
      ensures Valid() && View() == NewFiber() && calls == []
    {
      state, runStarted, completion, calls := Ready, false, false, [];
    }

    method MarkScheduled()
      requires Valid()
      modifies this
      ensures Valid() && View() == Call(old(View()), Schedule) && calls == old(calls) + [Schedule]
      ensures state == if Leave in old(calls) then Finished else Running
    {
      calls := calls + [Schedule];
      if completion { return; }
      state := Running;
    }

    /** Only the first call ever made is told to execute the function. */
    method EnterRun() returns (execute: bool)
      requires Valid()
      modifies this
      ensures Valid() && View() == Call(old(View()), Enter) && calls == old(calls) + [Enter]
      ensures execute <==> Enter !in old(calls)
    {
      calls := calls + [Enter];
      if runStarted || completion { return false; }
      runStarted, state := true, Running;
      return true;
    }

    /** Made once, by the execution that entered; from then on the fiber is finished. */
    method LeaveRun()
      requires Valid() && Enter in calls && Leave !in calls
      modifies this
      ensures Valid() && View() == Call(old(View()), Leave) && calls == old(calls) + [Leave] && state == Finished
    {
      calls := calls + [Leave];
      state, completion := Finished, true;
    }

    method Block()
      requires Valid()
      modifies this
      ensures Valid() && View() == Call(old(View()), Park) && calls == old(calls) + [Park]
      ensures state == if Leave in old(calls) then Finished else Blocked
    {
      calls := calls + [Park];
      if completion { return; }
      state := Blocked;
    }

    method Unblock()
      requires Valid()
      modifies this
      ensures Valid() && View() == Call(old(View()), Wake) && calls == old(calls) + [Wake]
      ensures state == if Leave in old(calls) then Finished else if Enter in old(calls) then Running else Ready
    {
      calls := calls + [Wake];
      if !completion {
        state := if runStarted then Running else Ready;
      }
    }
  }
}
