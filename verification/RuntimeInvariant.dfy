/**
 What every step of the protocol keeps.  The invariant is stated fiber by fiber: where a
 fiber may be registered, queued, held or running is determined by how far its Spawn call
 has come, up to the races the source allows.  A step of one party changes one record.
 */
module RuntimeInvariant {
  import opened Fibers
  import opened Registries
  import opened Sequences
  import opened Runtime

  /** Whether the execution loop has taken the fiber off the scheduler. */
  datatype Hold = Loose | TakenOff | MarkedScheduled

  function HoldOf(loop: Loop, id: FiberID): Hold {
    if loop.Popped? && loop.id == id then TakenOff
    else if loop.Dispatching? && loop.id == id then MarkedScheduled
    else Loose
  }

  /** What else the place of a fiber depends on. */
  datatype Phase = Phase(runs: nat, afterClear: bool, afterReap: bool, draining: bool)

  /** The scheduler has been cleared and no new run has begun. */
  predicate AfterClear(s: State) { s.life.StopCleared? || s.life.StopReaping? || s.life.StopJoining? || s.stopped }

  /** The pending fibers have been reaped and the next Start has not opened the gate. */
  predicate AfterReap(s: State) {
    s.life.StopReaping? || s.life.StopJoining? || (s.stopped && !s.life.StartRegistered?)
  }

  function PhaseOf(s: State): Phase { Phase(|s.runs|, AfterClear(s), AfterReap(s), s.draining) }

  // ---------------------------------------------------------------- stages of a Spawn call

  predicate Unborn(pc: SpawnPC) { pc.Entered? || pc.Checked? || pc.Counted? || pc.OverCap? }

  predicate Early(pc: SpawnPC) { pc.Inserted? || pc.ScheduleOpen? || pc.ScheduleRefused? }

  predicate TurnedAway(pc: SpawnPC) {
    pc.RefusalRemoved? || (pc.Returned? && (pc.result.NotStarted? || pc.result.CapReached? || pc.result.ScheduleError?))
  }

  /** Published to the scheduler, admission not yet committed. */
  predicate Mid(pc: SpawnPC) { pc.Scheduled? || pc.GotContext? || pc.Rechecked? }

  predicate Back(pc: SpawnPC) {
    pc.RolledBack? || pc.Unscheduled? || (pc.Returned? && pc.result.StoppedDuringSpawn?)
  }

  /** Whether the rollback is the one that removed the fiber, and so lowers the counter. */
  predicate BackOwns(pc: SpawnPC)
    requires Back(pc)
  {
    if pc.Returned? then pc.result.subtracted else pc.present
  }

  predicate IsAdmitted(pc: SpawnPC) { pc == Returned(Admitted) }

  // ---------------------------------------------------------------- one fiber

  /** The completion of the fiber has passed its registry region. */
  predicate TaskGone(r: Rec) {
    r.task.Some? && (r.task.value.pc.Removed? || r.task.value.pc.Reporting? || r.task.value.pc.Exited?)
  }

  predicate TaskOwns(r: Rec) { TaskGone(r) && r.task.value.pc.present }

  predicate Undispatched(r: Rec, h: Hold) { !r.queued && h.Loose? && r.task.None? }

  predicate PlaceOk(r: Rec, h: Hold) {
    && (Unborn(r.pc) || TurnedAway(r.pc) ==> !r.registered && !r.committed && Undispatched(r, h) && !r.reaping)
    && (Early(r.pc) ==> r.registered && !r.committed && Undispatched(r, h) && !r.reaping)
    && (Mid(r.pc) ==> !r.committed && !r.reaping && (r.registered <==> !TaskGone(r)) && (TaskGone(r) ==> TaskOwns(r)))
    && (Back(r.pc) ==> !r.committed && !r.registered && !r.reaping && (BackOwns(r.pc) <==> !TaskOwns(r)))
    && (IsAdmitted(r.pc) ==>
          && (r.registered ==> r.committed && !TaskGone(r) && !r.reaping)
          && (TaskGone(r) ==> TaskOwns(r) && !r.reaping)
          && (!r.registered ==> TaskGone(r) || Undispatched(r, h)))
    && (r.queued ==> h.Loose? && r.task.None? && (Mid(r.pc) || r.pc.RolledBack? || IsAdmitted(r.pc)))
    && (!h.Loose? ==> r.task.None?)
  }

  predicate FiberOk(r: Rec, h: Hold) {
    var f := r.fiber;
    if r.task.Some? then
      match r.task.value.pc
      case Launched => f == Fiber(FiberState.Running, false, false)
      case Executing => f.runStarted && !f.completion && (f.state == FiberState.Running || f.state == Blocked)
      case _ => f == Fiber(Finished, true, true)
    else if h.MarkedScheduled? then f == Fiber(FiberState.Running, false, false)
    else f == NewFiber()
  }

  /** The fiber is on the counter. */
  predicate OnCounter(r: Rec) {
    || r.pc.Counted? || r.pc.OverCap? || r.pc.RefusalRemoved?
    || ((r.pc.RolledBack? || r.pc.Unscheduled?) && r.pc.present)
    || r.registered
    || (r.task.Some? && r.task.value.pc == Removed(true))
    || r.reaping
  }

  predicate WasCounted(pc: SpawnPC) { !pc.Entered? && !pc.Checked? && pc != Returned(NotStarted) }

  predicate LedgerOk(r: Rec) {
    && (r.counted <==> WasCounted(r.pc))
    && r.subtracted == (if r.counted && !OnCounter(r) then 1 else 0)
  }

  /** Where a call may be whose fiber is queued although the scheduler has been cleared. */
  predicate LateInQueue(pc: SpawnPC) {
    pc.Scheduled? || pc.GotContext? || pc == Rechecked(true) || pc.RolledBack?
  }

  predicate PhaseOk(r: Rec, h: Hold, p: Phase) {
    && (p.runs == 0 ==> r.pc.Entered? || r.pc == Returned(NotStarted))
    && (r.pc.GotContext? ==> r.pc.run < p.runs)
    && (r.task.Some? ==> r.task.value.run < p.runs)
    && (p.afterClear && r.queued ==> LateInQueue(r.pc))
    && (p.afterClear ==> h.Loose?)
    && (p.afterReap && r.registered && r.task.None? ==>
          !IsAdmitted(r.pc) && (r.pc == Rechecked(false) ==> p.draining))
  }

  predicate RecOk(r: Rec, h: Hold, p: Phase) { PlaceOk(r, h) && FiberOk(r, h) && LedgerOk(r) && PhaseOk(r, h, p) }

  ghost predicate Recs(s: State) {
    forall id :: id in s.fibers ==> RecOk(s.fibers[id], HoldOf(s.loop, id), PhaseOf(s))
  }

  // ---------------------------------------------------------------- the state as a whole

  predicate StopInProgress(s: State) {
    || s.life.StopEntered? || s.life.StopCancelled? || s.life.StopScheduler?
    || s.life.StopCleared? || s.life.StopReaping? || s.life.StopJoining?
  }

  ghost predicate Lifecycle(s: State) {
    && (|s.runs| == 0 ==> s.stopped && s.loop.NoLoop?)
    && (forall r :: 0 <= r < |s.runs| - 1 ==> s.runs[r].cancelled)
    && (|s.runs| > 0 && (s.stopped || (StopInProgress(s) && !s.life.StopEntered?)) ==> s.runs[|s.runs| - 1].cancelled)
    && (StopInProgress(s) ==> !s.stopped)
    && (MuHeld(s) || s.life.ResetRegistered? ==> s.stopped)
    && (AfterClear(s) ==> s.loop.NoLoop? || s.loop.LoopExited?)
    && (s.main.Some? ==> s.main.value !in s.fibers)
    && (s.loop.Popped? || s.loop.Dispatching? ==> s.loop.id in s.fibers)
    && (forall id :: id in s.fibers && s.fibers[id].reaping ==> s.life.StopReaping?)
  }

  function OnCounterSet(s: State): set<FiberID> { set id | id in s.fibers && OnCounter(s.fibers[id]) }

  /** A registered fiber, or a call about to register one. */
  predicate UnderCap(r: Rec) { r.registered || r.pc.Counted? }

  function Capped(s: State): set<FiberID> { set id | id in s.fibers && UnderCap(s.fibers[id]) }

  ghost predicate Counts(s: State) {
    && s.count == |OnCounterSet(s)|
    && (s.maxFibers > 0 ==> |Capped(s)| <= s.maxFibers)
  }

  predicate LoopAlive(s: State) { !s.loop.NoLoop? && !s.loop.LoopExited? }

  ghost predicate Slots(s: State) {
    && 0 < s.numWorkers
    && (forall r: int :: |Live(s, r)| <= s.numWorkers)
    && (LoopAlive(s) ==>
          && |s.runs| > 0
          && Results(s) + |Live(s, |s.runs| - 1)| <= s.loop.active <= s.numWorkers
          && (s.loop.Choosing? || s.loop.Popped? || s.loop.Dispatching? ==> s.loop.active < s.numWorkers))
  }

  ghost predicate Inv(s: State) { Lifecycle(s) && Recs(s) && Counts(s) && Slots(s) }

  lemma InitIsInv(numWorkers: int, maxFibers: nat, main: FiberID)
    ensures Inv(Init(numWorkers, maxFibers, main))
  {
    var s := Init(numWorkers, maxFibers, main);
    assert OnCounterSet(s) == {};
    assert Capped(s) == {};
    assert forall r: int :: Live(s, r) == {};
  }

  // ---------------------------------------------------------------- one record: Spawn

  function Bit(b: bool): int { if b then 1 else 0 }

  lemma SpawnPlace(s: State, r: Rec, h: Hold)
    requires PlaceOk(r, h)
    ensures PlaceOk(SpawnEffect(s, r).rec, h)
  {
  }

  /** A Spawn step lowers the counter only for a fiber that is on it, and then takes it off. */
  lemma SpawnLedger(s: State, r: Rec, h: Hold)
    requires PlaceOk(r, h) && LedgerOk(r)
    ensures var e := SpawnEffect(s, r);
      LedgerOk(e.rec) && e.delta == Bit(OnCounter(e.rec)) - Bit(OnCounter(r))
  {
  }

  lemma SpawnPhase(s: State, r: Rec, h: Hold)
    requires PlaceOk(r, h) && PhaseOk(r, h, PhaseOf(s)) && Lifecycle(s)
    ensures PhaseOk(SpawnEffect(s, r).rec, h, PhaseOf(s))
  {
  }

  lemma SpawnFiber(s: State, r: Rec, h: Hold)
    requires PlaceOk(r, h) && FiberOk(r, h)
    ensures FiberOk(SpawnEffect(s, r).rec, h)
  {
  }

  /** Only the cap check adds a fiber to those under the cap. */
  lemma SpawnCap(s: State, r: Rec)
    ensures var e := SpawnEffect(s, r);
      UnderCap(e.rec) && !UnderCap(r) && s.maxFibers > 0 ==> s.count + e.delta <= s.maxFibers
  {
  }

  lemma SpawnLeaves(s: State, r: Rec)
    ensures SpawnEffect(s, r).rec.task == r.task && SpawnEffect(s, r).rec.reaping == r.reaping
  {
    hide MuHeld; hide IsRunning; hide RunCancelled;
    match r.pc
    case Entered =>
    case Checked =>
    case Counted =>
    case OverCap =>
    case Inserted =>
    case ScheduleOpen =>
    case ScheduleRefused =>
    case RefusalRemoved =>
    case Scheduled =>
    case GotContext(_) =>
    case Rechecked(_) =>
    case RolledBack(_) =>
    case Unscheduled(_) =>
    case Returned(_) =>
  }

  // ---------------------------------------------------------------- one record: the fiber's goroutine

  lemma TaskOk(r: Rec, p: Phase)
    requires RecOk(r, Loose, p) && r.task.Some?
    ensures RecOk(TaskEffect(r).rec, Loose, p)
    ensures TaskEffect(r).delta == Bit(OnCounter(TaskEffect(r).rec)) - Bit(OnCounter(r))
  {
  }

  lemma TaskLeaves(r: Rec)
    ensures var r' := TaskEffect(r).rec;
      && (UnderCap(r') ==> UnderCap(r))
      && (r'.reaping <==> r.reaping)
      && (forall run: int :: LiveIn(r', run) <==> LiveIn(r, run))
  {
  }

  lemma FunctionOk(r: Rec, p: Phase)
    requires RecOk(r, Loose, p) && r.task.Some? && r.task.value.pc.Executing?
    ensures RecOk(At(r, Ended).(fiber := LeaveRun(r.fiber)), Loose, p)
    ensures RecOk(r.(fiber := Block(r.fiber)), Loose, p)
    ensures RecOk(r.(fiber := Unblock(r.fiber)), Loose, p)
  {
  }

  lemma ExitOk(r: Rec, p: Phase)
    requires RecOk(r, Loose, p) && r.task.Some? && r.task.value.pc.Reporting?
    ensures var r' := At(r, Exited(r.task.value.pc.present));
      RecOk(r', Loose, p) && (OnCounter(r') <==> OnCounter(r)) && forall run: int :: !LiveIn(r', run)
  {
  }

  // ---------------------------------------------------------------- one record: the execution loop

  lemma PopOk(r: Rec, p: Phase)
    requires RecOk(r, Loose, p) && r.queued && !p.afterClear
    ensures RecOk(r.(queued := false), TakenOff, p)
  {
  }

  lemma MarkOk(r: Rec, p: Phase)
    requires RecOk(r, TakenOff, p)
    ensures r.fiber.state == Ready
    ensures RecOk(r.(fiber := MarkScheduled(r.fiber)), MarkedScheduled, p)
  {
  }

  lemma LaunchOk(r: Rec, p: Phase)
    requires RecOk(r, MarkedScheduled, p) && p.runs > 0
    ensures var r' := r.(task := Some(Task(p.runs - 1, Launched)));
      && RecOk(r', Loose, p)
      && (OnCounter(r') <==> OnCounter(r)) && (UnderCap(r') <==> UnderCap(r)) && r.task.None?
  {
  }

  // ---------------------------------------------------------------- replacing one record

  lemma PutOnCounter(s: State, id: FiberID, e: Effect)
    requires s.count == |OnCounterSet(s)|
    requires e.delta == Bit(OnCounter(e.rec)) - Bit(id in s.fibers && OnCounter(s.fibers[id]))
    ensures Put(s, id, e).count == |OnCounterSet(Put(s, id, e))|
  {
    var s' := Put(s, id, e);
    if OnCounter(e.rec) {
      assert OnCounterSet(s') == OnCounterSet(s) + {id};
    } else {
      assert OnCounterSet(s') == OnCounterSet(s) - {id};
    }
  }

  lemma PutCapped(s: State, id: FiberID, e: Effect)
    ensures Capped(Put(s, id, e)) == if UnderCap(e.rec) then Capped(s) + {id} else Capped(s) - {id}
  {
  }

  lemma CappedAreCounted(s: State)
    ensures Capped(s) <= OnCounterSet(s)
  {
  }

  lemma PutCounts(s: State, id: FiberID, e: Effect)
    requires Counts(s)
    requires e.delta == Bit(OnCounter(e.rec)) - Bit(id in s.fibers && OnCounter(s.fibers[id]))
    requires UnderCap(e.rec) && !(id in s.fibers && UnderCap(s.fibers[id])) && s.maxFibers > 0 ==>
               s.count + e.delta <= s.maxFibers
    ensures Counts(Put(s, id, e))
  {
    var s' := Put(s, id, e);
    PutOnCounter(s, id, e);
    PutCapped(s, id, e);
    CappedAreCounted(s');
    SubsetSize(Capped(s'), OnCounterSet(s'));
    assert id in s.fibers && UnderCap(s.fibers[id]) ==> id in Capped(s);
    if UnderCap(e.rec) && id in Capped(s) {
      assert Capped(s') == Capped(s);
    } else if !UnderCap(e.rec) {
      SubsetSize(Capped(s'), Capped(s));
    }
  }

  lemma SubsetSize(a: set<FiberID>, b: set<FiberID>)
    requires a <= b
    ensures |a| <= |b|
  {
    assert b == a + (b - a);
  }

  /** Replacing a record without starting a goroutine frees slots at most. */
  lemma PutLive(s: State, id: FiberID, e: Effect, run: int)
    requires LiveIn(e.rec, run) ==> id in s.fibers && LiveIn(s.fibers[id], run)
    ensures Live(Put(s, id, e), run) == if LiveIn(e.rec, run) then Live(s, run) else Live(s, run) - {id}
  {
  }

  lemma PutRecs(s: State, id: FiberID, e: Effect, loop: Loop)
    requires Recs(s)
    requires RecOk(e.rec, HoldOf(loop, id), PhaseOf(s))
    requires forall other :: other in s.fibers && other != id ==> HoldOf(loop, other) == HoldOf(s.loop, other)
    ensures Recs(Put(s, id, e).(loop := loop))
  {
    assert PhaseOf(Put(s, id, e).(loop := loop)) == PhaseOf(s);
  }

  lemma PutSlots(s: State, id: FiberID, e: Effect, loop: Loop)
    requires Slots(s)
    requires forall run: int :: LiveIn(e.rec, run) ==> id in s.fibers && LiveIn(s.fibers[id], run)
    requires loop == s.loop
      || (LoopAlive(s) && (loop.Popped? || loop.Dispatching?) && loop.active == s.loop.active < s.numWorkers)
    ensures Slots(Put(s, id, e).(loop := loop))
  {
    var p := Put(s, id, e);
    var s' := p.(loop := loop);
    forall run: int ensures |Live(s', run)| <= |Live(s, run)| {
      PutLive(s, id, e, run);
      assert Live(s', run) == Live(p, run);
      SubsetSize(Live(s', run), Live(s, run));
    }
  }

  /** The loop after a step that takes no slot: unchanged, or holding `id`. */
  predicate LoopHolds(s: State, id: FiberID, loop: Loop) {
    || loop == s.loop
    || (LoopAlive(s) && !AfterClear(s) && id in s.fibers && (loop.Popped? || loop.Dispatching?) && loop.id == id
        && loop.active == s.loop.active < s.numWorkers)
  }

  /** A step that replaces one record, and moves the loop on without taking a slot. */
  lemma PutKeepsInv(s: State, id: FiberID, e: Effect, loop: Loop)
    requires Inv(s)
    requires id !in s.fibers ==> Some(id) != s.main
    requires RecOk(e.rec, HoldOf(loop, id), PhaseOf(s))
    requires forall other :: other in s.fibers && other != id ==> HoldOf(loop, other) == HoldOf(s.loop, other)
    requires e.delta == Bit(OnCounter(e.rec)) - Bit(id in s.fibers && OnCounter(s.fibers[id]))
    requires UnderCap(e.rec) && !(id in s.fibers && UnderCap(s.fibers[id])) && s.maxFibers > 0 ==>
               s.count + e.delta <= s.maxFibers
    requires e.rec.reaping ==> id in s.fibers && s.fibers[id].reaping
    requires forall run: int :: LiveIn(e.rec, run) ==> id in s.fibers && LiveIn(s.fibers[id], run)
    requires LoopHolds(s, id, loop)
    ensures Inv(Put(s, id, e).(loop := loop))
  {
    hide RecOk; hide OnCounter; hide UnderCap; hide LiveIn;
    PutCounts(s, id, e);
    PutRecs(s, id, e, loop);
    PutSlots(s, id, e, loop);
    hide Recs; hide Slots; hide Counts;
    CountsIgnoreLoop(Put(s, id, e), loop);
  }

  lemma CountsIgnoreLoop(s: State, loop: Loop)
    requires Counts(s)
    ensures Counts(s.(loop := loop))
  {
    hide OnCounter; hide UnderCap;
    assert OnCounterSet(s.(loop := loop)) == OnCounterSet(s) && Capped(s.(loop := loop)) == Capped(s);
  }

  // ---------------------------------------------------------------- the actions

  lemma SpawnStepKeepsInv(s: State, id: FiberID)
    requires Inv(s)
    ensures Inv(Do(s, SpawnStep(id)))
  {
    if id in s.fibers {
      var r, h := s.fibers[id], HoldOf(s.loop, id);
      SpawnPlace(s, r, h);
      SpawnLedger(s, r, h);
      SpawnPhase(s, r, h);
      SpawnFiber(s, r, h);
      SpawnCap(s, r);
      SpawnLeaves(s, r);
      PutKeepsInv(s, id, SpawnEffect(s, r), s.loop);
    } else if Some(id) != s.main {
      assert HoldOf(s.loop, id) == Loose;
      PutKeepsInv(s, id, Keep(NewCall()), s.loop);
    }
  }

  lemma TaskStepKeepsInv(s: State, id: FiberID)
    requires Inv(s)
    ensures Inv(Do(s, TaskStep(id)))
  {
    if id in s.fibers && s.fibers[id].task.Some? {
      TaskOk(s.fibers[id], PhaseOf(s));
      TaskLeaves(s.fibers[id]);
      PutKeepsInv(s, id, TaskEffect(s.fibers[id]), s.loop);
    } else if id in s.fibers {
      PutKeepsInv(s, id, Keep(s.fibers[id]), s.loop);
    }
  }

  lemma FunctionOnCounter(r: Rec)
    requires r.task.Some? && r.task.value.pc.Executing?
    ensures OnCounter(At(r, Ended).(fiber := LeaveRun(r.fiber))) <==> OnCounter(r)
    ensures OnCounter(r.(fiber := Block(r.fiber))) <==> OnCounter(r)
    ensures OnCounter(r.(fiber := Unblock(r.fiber))) <==> OnCounter(r)
  {
  }

  lemma FunctionStepKeepsInv(s: State, a: Action)
    requires Inv(s) && (a.TaskReturn? || a.TaskBlock? || a.TaskUnblock?)
    ensures Inv(Do(s, a))
  {
    if a.id in s.fibers && s.fibers[a.id].task.Some? && s.fibers[a.id].task.value.pc.Executing? {
      var r := s.fibers[a.id];
      FunctionOk(r, PhaseOf(s));
      FunctionOnCounter(r);
      hide Recs; hide Slots; hide Counts; hide Lifecycle; hide RecOk; hide OnCounter;
      var r' := if a.TaskReturn? then At(r, Ended).(fiber := LeaveRun(r.fiber))
                else if a.TaskBlock? then r.(fiber := Block(r.fiber)) else r.(fiber := Unblock(r.fiber));
      PutKeepsInv(s, a.id, Keep(r'), s.loop);
    }
  }

  lemma ExitStepKeepsInv(s: State, a: Action)
    requires Inv(s) && (a.TaskReport? || a.TaskAbandon?)
    ensures Inv(Do(s, a))
  {
    hide Recs;
    hide Counts;
    hide Lifecycle;
    hide Live;
    if a.id in s.fibers && s.fibers[a.id].task.Some? && s.fibers[a.id].task.value.pc.Reporting? {
      ExitKeepsInv(s, a.id);
      if a.TaskReport? {
        ReportKeepsInv(s, a.id, Exit(s, a.id), s.fibers[a.id].task.value.run);
      }
    }
  }

  /** The goroutine of `id` is gone. */
  function Exit(s: State, id: FiberID): State
    requires id in s.fibers && s.fibers[id].task.Some? && s.fibers[id].task.value.pc.Reporting?
  {
    Put(s, id, Keep(At(s.fibers[id], Exited(s.fibers[id].task.value.pc.present))))
  }

  lemma ExitKeepsInv(s: State, id: FiberID)
    requires Inv(s) && id in s.fibers && s.fibers[id].task.Some? && s.fibers[id].task.value.pc.Reporting?
    ensures Inv(Exit(s, id))
    ensures forall run: int :: Live(Exit(s, id), run) == Live(s, run) - {id}
    ensures s.fibers[id].task.value.run < |s.runs| && id in Live(s, s.fibers[id].task.value.run)
  {
    var r := s.fibers[id];
    ExitOk(r, PhaseOf(s));
    var e := Keep(At(r, Exited(r.task.value.pc.present)));
    PutKeepsInv(s, id, e, s.loop);
    ExitLive(s, id);
  }

  lemma ExitLive(s: State, id: FiberID)
    requires id in s.fibers && s.fibers[id].task.Some? && s.fibers[id].task.value.pc.Reporting?
    ensures forall run: int :: Live(Exit(s, id), run) == Live(s, run) - {id}
  {
    forall run: int ensures Live(Exit(s, id), run) == Live(s, run) - {id} {
      PutLive(s, id, Keep(At(s.fibers[id], Exited(s.fibers[id].task.value.pc.present))), run);
    }
  }

  /** A result sent takes the place of the goroutine that sent it. */
  lemma ReportKeepsInv(s: State, id: FiberID, p: State, run: nat)
    requires Slots(s) && Inv(p) && run < |s.runs| && p.runs == s.runs && p.loop == s.loop
    requires id in Live(s, run) && Live(p, run) == Live(s, run) - {id}
    ensures Inv(WithResults(p, run, s.runs[run].results + 1))
  {
    hide Inv;
    hide Live;
    assert |Live(p, run)| == |Live(s, run)| - 1;
    ResultsKeepInv(p, run, s.runs[run].results + 1);
  }

  lemma ResultsKeepInv(s: State, run: nat, results: nat)
    requires Inv(s) && run < |s.runs|
    requires run == |s.runs| - 1 && LoopAlive(s) ==> results + |Live(s, run)| <= s.loop.active
    ensures Inv(WithResults(s, run, results))
  {
    hide RecOk;
    hide OnCounter;
    hide UnderCap;
    hide LiveIn;
    var s' := WithResults(s, run, results);
    assert PhaseOf(s') == PhaseOf(s);
    assert OnCounterSet(s') == OnCounterSet(s) && Capped(s') == Capped(s);
    forall r: int ensures Live(s', r) == Live(s, r) {}
  }

  // ---------------------------------------------------------------- the execution loop

  /** The loop moves on without touching a fiber or a slot. */
  lemma LoopMoves(s: State, loop: Loop)
    requires Inv(s) && LoopAlive(s) && !s.loop.Popped? && !s.loop.Dispatching?
    requires !loop.NoLoop? && !loop.Popped? && !loop.Dispatching?
    requires !loop.LoopExited? ==> loop.active == s.loop.active && (loop.Choosing? ==> loop.active < s.numWorkers)
    ensures Inv(s.(loop := loop))
  {
    hide RecOk;
    hide OnCounter;
    hide UnderCap;
    hide LiveIn;
    var s' := s.(loop := loop);
    assert PhaseOf(s') == PhaseOf(s);
    assert OnCounterSet(s') == OnCounterSet(s) && Capped(s') == Capped(s);
    forall r: int ensures Live(s', r) == Live(s, r) {}
  }

  /** A result received frees its slot. */
  lemma LoopReceives(s: State, loop: Loop)
    requires Inv(s) && LoopAlive(s) && !s.loop.Popped? && !s.loop.Dispatching? && Results(s) > 0
    requires (loop.Selecting? || loop.Draining?) && loop.active == Less1(s.loop.active)
    ensures Inv(WithResults(s, |s.runs| - 1, Results(s) - 1).(loop := loop))
  {
    hide RecOk;
    hide OnCounter;
    hide UnderCap;
    hide LiveIn;
    var s' := WithResults(s, |s.runs| - 1, Results(s) - 1).(loop := loop);
    assert PhaseOf(s') == PhaseOf(s);
    assert OnCounterSet(s') == OnCounterSet(s) && Capped(s') == Capped(s);
    forall r: int ensures Live(s', r) == Live(s, r) {}
  }

  lemma PopKeepsInv(s: State, id: FiberID)
    requires Inv(s) && s.loop.Choosing? && id in s.fibers && s.fibers[id].queued
    ensures Inv(Put(s, id, Keep(s.fibers[id].(queued := false))).(loop := Popped(s.loop.active, id)))
  {
    PopOk(s.fibers[id], PhaseOf(s));
    PutKeepsInv(s, id, Keep(s.fibers[id].(queued := false)), Popped(s.loop.active, id));
  }

  lemma MarkKeepsInv(s: State, a: nat, id: FiberID)
    requires Inv(s) && s.loop == Popped(a, id)
    ensures id in s.fibers && s.fibers[id].fiber.state == Ready
    ensures var r := s.fibers[id];
      Inv(Put(s, id, Keep(r.(fiber := MarkScheduled(r.fiber)))).(loop := Dispatching(a, id)))
  {
    var r := s.fibers[id];
    MarkOk(r, PhaseOf(s));
    PutKeepsInv(s, id, Keep(r.(fiber := MarkScheduled(r.fiber))), Dispatching(a, id));
  }

  /** The record of a fiber whose goroutine has just been started. */
  function Launch(s: State, id: FiberID): Effect
    requires id in s.fibers && |s.runs| > 0
  {
    Keep(s.fibers[id].(task := Some(Task(|s.runs| - 1, Launched))))
  }

  lemma LaunchSlots(s: State, a: nat, id: FiberID)
    requires Slots(s) && s.loop == Dispatching(a, id) && id in s.fibers && s.fibers[id].task.None?
    ensures Slots(Put(s, id, Launch(s, id)).(loop := Filling(a + 1)))
  {
    hide Live;
    var cur, s' := |s.runs| - 1, Put(s, id, Launch(s, id)).(loop := Filling(a + 1));
    forall run: int ensures |Live(s', run)| == if run == cur then |Live(s, run)| + 1 else |Live(s, run)| {
      LaunchLive(s, a, id, run);
    }
  }

  lemma LaunchLive(s: State, a: nat, id: FiberID, run: int)
    requires |s.runs| > 0 && id in s.fibers && s.fibers[id].task.None?
    ensures Live(Put(s, id, Launch(s, id)).(loop := Filling(a + 1)), run)
      == if run == |s.runs| - 1 then Live(s, run) + {id} else Live(s, run)
    ensures id !in Live(s, run)
  {
  }

  lemma LaunchKeepsInv(s: State, a: nat, id: FiberID)
    requires Inv(s) && s.loop == Dispatching(a, id)
    ensures id in s.fibers && |s.runs| > 0
    ensures Inv(Put(s, id, Launch(s, id)).(loop := Filling(a + 1)))
  {
    hide RecOk; hide OnCounter; hide UnderCap; hide LiveIn;
    var e := Launch(s, id);
    LaunchOk(s.fibers[id], PhaseOf(s));
    PutCounts(s, id, e);
    PutRecs(s, id, e, Filling(a + 1));
    hide Recs;
    LaunchSlots(s, a, id);
    hide Slots; hide Counts;
    CountsIgnoreLoop(Put(s, id, e), Filling(a + 1));
  }

  lemma LoopStepKeepsInv(s: State)
    requires Inv(s)
    ensures Inv(LoopNext(s))
  {
    hide Lifecycle;
    hide Recs;
    hide Counts;
    hide Live;
    match s.loop {
      case Filling(a) => LoopMoves(s, if a < s.numWorkers && !s.schedulerStopped then Choosing(a) else Selecting(a));
      case Choosing(a) => LoopMoves(s, Selecting(a));
      case Popped(a, id) => MarkKeepsInv(s, a, id);
      case Dispatching(a, id) => LaunchKeepsInv(s, a, id);
      case Draining(a) => if Results(s) > 0 { LoopReceives(s, Draining(Less1(a))); } else { LoopMoves(s, LoopExited); }
      case _ =>
    }
  }

  lemma LoopActionKeepsInv(s: State, a: Action)
    requires Inv(s) && (a.LoopTick? || a.LoopReceive? || a.LoopCancelled? || a.LoopStep? || a.LoopPop?)
    ensures Inv(Do(s, a))
  {
    hide Inv;
    match a {
      case LoopTick => if s.loop.Selecting? { LoopMoves(s, Filling(s.loop.active)); }
      case LoopReceive => if s.loop.Selecting? && Results(s) > 0 { LoopReceives(s, Selecting(Less1(s.loop.active))); }
      case LoopCancelled => if s.loop.Selecting? { LoopMoves(s, Draining(s.loop.active)); }
      case LoopStep => LoopStepKeepsInv(s);
      case LoopPop(id) => if s.loop.Choosing? && id in s.fibers && s.fibers[id].queued { PopKeepsInv(s, id); }
    }
  }

  // ---------------------------------------------------------------- Stop, Start and Reset

  lemma ClearOk(r: Rec, h: Hold, p: Phase, p': Phase)
    requires RecOk(r, h, p) && h.Loose? && p' == p.(afterClear := true)
    ensures RecOk(r.(queued := false), h, p')
  {
  }

  lemma ClaimOk(r: Rec, h: Hold, p: Phase)
    requires RecOk(r, h, p) && p.afterClear && !r.reaping
    ensures RecOk(Claim(r), h, p.(afterReap := true, draining := true))
    ensures OnCounter(Claim(r)) <==> OnCounter(r)
    ensures UnderCap(Claim(r)) ==> UnderCap(r)
  {
  }

  lemma SubtractOk(r: Rec, h: Hold, p: Phase)
    requires RecOk(r, h, p) && r.reaping
    ensures var r' := Lower(r.(reaping := false)).rec;
      RecOk(r', h, p) && OnCounter(r) && !OnCounter(r') && (UnderCap(r') ==> UnderCap(r))
  {
  }

  lemma ResetOk(r: Rec, h: Hold, p: Phase)
    requires RecOk(r, h, p) && !r.registered
    ensures var r' := r.(registered := false, committed := false);
      RecOk(r', h, p.(draining := false)) && (OnCounter(r') <==> OnCounter(r)) && (UnderCap(r') <==> UnderCap(r))
  {
  }

  /** The new phase asks no more of any record. */
  predicate Relaxes(p: Phase, p': Phase) {
    && p.runs <= p'.runs
    && (p'.afterClear ==> p.afterClear)
    && (p'.afterReap ==> p.afterReap && p'.draining == p.draining)
  }

  lemma RelaxOk(r: Rec, h: Hold, p: Phase, p': Phase)
    requires RecOk(r, h, p) && Relaxes(p, p')
    ensures RecOk(r, h, p')
  {
  }

  lemma RecsRelax(s: State, s': State)
    requires Recs(s) && s'.fibers == s.fibers && Relaxes(PhaseOf(s), PhaseOf(s'))
    requires forall id :: id in s.fibers ==> HoldOf(s'.loop, id) == HoldOf(s.loop, id)
    ensures Recs(s')
  {
    hide RecOk;
    forall id | id in s'.fibers ensures RecOk(s'.fibers[id], HoldOf(s'.loop, id), PhaseOf(s')) {
      RelaxOk(s.fibers[id], HoldOf(s.loop, id), PhaseOf(s), PhaseOf(s'));
    }
  }

  /** Every record changes at once, none of them on or off the counter or its slot. */
  lemma SetsAgree(s: State, s': State)
    requires s'.fibers.Keys == s.fibers.Keys
    requires forall id :: id in s.fibers ==>
               && (OnCounter(s'.fibers[id]) <==> OnCounter(s.fibers[id]))
               && (UnderCap(s'.fibers[id]) ==> UnderCap(s.fibers[id]))
               && s'.fibers[id].task == s.fibers[id].task
    ensures OnCounterSet(s') == OnCounterSet(s)
    ensures |Capped(s')| <= |Capped(s)|
    ensures forall run: int :: Live(s', run) == Live(s, run)
  {
    hide OnCounter;
    hide UnderCap;
    assert Capped(s') <= Capped(s);
    SubsetSize(Capped(s'), Capped(s));
    forall run: int ensures Live(s', run) == Live(s, run) {}
  }

  /** What a lifecycle step leaves alone, apart from the records and the phase. */
  predicate SameCounters(s: State, s': State) {
    s'.count == s.count && s'.numWorkers == s.numWorkers && s'.maxFibers == s.maxFibers
  }

  lemma CountsAndSlotsAgree(s: State, s': State)
    requires Counts(s) && Slots(s) && SameCounters(s, s')
    requires OnCounterSet(s') == OnCounterSet(s) && |Capped(s')| <= |Capped(s)|
    requires forall run: int :: Live(s', run) == Live(s, run)
    requires |s'.runs| == |s.runs| && Results(s') == Results(s) && s'.loop == s.loop
    ensures Counts(s') && Slots(s')
  {
    hide OnCounterSet;
    hide Capped;
    hide Live;
  }

  /** A lifecycle step that touches no record. */
  lemma MoveKeepsInv(s: State, s': State)
    requires Inv(s) && SameCounters(s, s') && s'.fibers == s.fibers && Lifecycle(s')
    requires Relaxes(PhaseOf(s), PhaseOf(s'))
    requires |s'.runs| == |s.runs| && Results(s') == Results(s) && s'.loop == s.loop
    ensures Inv(s')
  {
    hide RecOk;
    hide Lifecycle;
    RecsRelax(s, s');
    SetsAgree(s, s');
    CountsAndSlotsAgree(s, s');
  }

  lemma ClearKeepsInv(s: State, life: Life)
    requires Inv(s) && !LoopAlive(s)
    requires (s.life.StopScheduler? && life.StopCleared?) || (s.life.ResetRegistered? && life.Idle?)
    ensures Inv(ClearScheduler(s).(life := life))
  {
    hide RecOk;
    var s' := ClearScheduler(s).(life := life);
    forall id | id in s.fibers
      ensures RecOk(s'.fibers[id], HoldOf(s'.loop, id), PhaseOf(s'))
    {
      ClearOk(s.fibers[id], HoldOf(s.loop, id), PhaseOf(s), PhaseOf(s'));
    }
    SetsAgree(s, s');
    CountsAndSlotsAgree(s, s');
  }

  lemma ReapKeepsInv(s: State)
    requires Inv(s) && s.life.StopCleared?
    ensures Inv(StopNext(s))
  {
    hide RecOk;
    var s' := StopNext(s);
    forall id | id in s.fibers
      ensures RecOk(s'.fibers[id], HoldOf(s'.loop, id), PhaseOf(s'))
      ensures OnCounter(s'.fibers[id]) <==> OnCounter(s.fibers[id])
      ensures UnderCap(s'.fibers[id]) ==> UnderCap(s.fibers[id])
    {
      ClaimOk(s.fibers[id], HoldOf(s.loop, id), PhaseOf(s));
    }
    SetsAgree(s, s');
    CountsAndSlotsAgree(s, s');
  }

  lemma SubtractKeepsInv(s: State, id: FiberID)
    requires Inv(s)
    ensures Inv(Do(s, StopSubtract(id)))
  {
    if s.life.StopReaping? && id in s.fibers && s.fibers[id].reaping {
      SubtractOk(s.fibers[id], HoldOf(s.loop, id), PhaseOf(s));
      PutKeepsInv(s, id, Lower(s.fibers[id].(reaping := false)), s.loop);
    }
  }

  lemma CancelKeepsInv(s: State)
    requires Inv(s)
    ensures Inv(CancelCurrent(s))
  {
    if |s.runs| > 0 { MoveKeepsInv(s, CancelCurrent(s)); }
  }

  lemma StopEntryKeepsInv(s: State)
    requires Inv(s) && (s.life.Idle? || s.life.StopEntered? || s.life.StopCancelled?)
    ensures Inv(StopNext(s))
  {
    hide Recs;
    hide Counts;
    hide Slots;
    MoveKeepsInv(s, StopNext(s));
  }

  lemma StopStepKeepsInv(s: State)
    requires Inv(s)
    ensures Inv(StopNext(s))
  {
    hide Recs;
    hide Counts;
    hide Slots;
    var s' := StopNext(s);
    match s.life {
      case Idle => StopEntryKeepsInv(s);
      case StopEntered => StopEntryKeepsInv(s);
      case StopCancelled => StopEntryKeepsInv(s);
      case StopScheduler => if s.loop.LoopExited? { ClearKeepsInv(s, StopCleared); }
      case StopCleared => ReapKeepsInv(s);
      case StopReaping => MoveKeepsInv(s, s');
      case StopJoining => MoveKeepsInv(s, s');
      case _ =>
    }
  }

  /** The new run starts with all its slots free. */
  lemma PublishKeepsInv(s: State)
    requires Inv(s) && s.life.StartRegistered?
    ensures Inv(s.(runs := s.runs + [Run(false, 0)], stopped := false, loop := Selecting(0), life := Idle))
  {
    var s' := s.(runs := s.runs + [Run(false, 0)], stopped := false, loop := Selecting(0), life := Idle);
    assert Live(s', |s.runs|) == {} by {
      assert forall id :: id in s.fibers && s.fibers[id].task.Some? ==> s.fibers[id].task.value.run < |s.runs|;
    }
    hide RecOk;
    RecsRelax(s, s');
    SetsAgree(s, s');
  }

  lemma StartStepKeepsInv(s: State, main: FiberID)
    requires Inv(s)
    ensures Inv(StartNext(s, main))
  {
    hide Recs;
    hide Counts;
    hide Slots;
    match s.life {
      case Idle => MoveKeepsInv(s, StartNext(s, main));
      case StartLocked => MoveKeepsInv(s, StartNext(s, main));
      case StartScheduler => MoveKeepsInv(s, StartNext(s, main));
      case StartRegistered => PublishKeepsInv(s);
      case _ =>
    }
  }

  lemma ResetKeepsInv(s: State)
    requires Inv(s) && s.life.Idle? && !IsRunning(s) && NonMain(s) == {}
    ensures Inv(ResetRegistry(s))
  {
    hide RecOk;
    var s' := ResetRegistry(s);
    forall id | id in s.fibers
      ensures RecOk(s'.fibers[id], HoldOf(s'.loop, id), PhaseOf(s'))
      ensures OnCounter(s'.fibers[id]) <==> OnCounter(s.fibers[id])
      ensures UnderCap(s'.fibers[id]) ==> UnderCap(s.fibers[id])
    {
      assert id !in NonMain(s);
      ResetOk(s.fibers[id], HoldOf(s.loop, id), PhaseOf(s));
    }
    SetsAgree(s, s');
    CountsAndSlotsAgree(s, s');
  }

  lemma ResetStepKeepsInv(s: State)
    requires Inv(s)
    ensures Inv(ResetNext(s))
  {
    hide Recs;
    hide Counts;
    hide Slots;
    hide NonMain;
    if s.life.Idle? && !IsRunning(s) && NonMain(s) == {} {
      ResetKeepsInv(s);
    } else if s.life.ResetRegistered? {
      ClearKeepsInv(s, Idle);
    }
  }

  // ---------------------------------------------------------------- every step

  lemma StepKeepsInv(s: State, a: Action)
    requires Inv(s)
    ensures Inv(Do(s, a))
  {
    match a {
      case SpawnStep(id) => SpawnStepKeepsInv(s, id);
      case LoopTick => LoopActionKeepsInv(s, a);
      case LoopReceive => LoopActionKeepsInv(s, a);
      case LoopCancelled => LoopActionKeepsInv(s, a);
      case LoopStep => LoopActionKeepsInv(s, a);
      case LoopPop(_) => LoopActionKeepsInv(s, a);
      case TaskStep(id) => TaskStepKeepsInv(s, id);
      case TaskReturn(_) => FunctionStepKeepsInv(s, a);
      case TaskBlock(_) => FunctionStepKeepsInv(s, a);
      case TaskUnblock(_, _) => FunctionStepKeepsInv(s, a);
      case TaskReport(_) => ExitStepKeepsInv(s, a);
      case TaskAbandon(_) => ExitStepKeepsInv(s, a);
      case CancelRun => CancelKeepsInv(s);
      case StopStep => StopStepKeepsInv(s);
      case StopSubtract(id) => SubtractKeepsInv(s, id);
      case StopTimeout => if s.life.StopJoining? { MoveKeepsInv(s, s.(life := Idle, stopped := true)); }
      case StartStep(main) => StartStepKeepsInv(s, main);
      case ResetStep => ResetStepKeepsInv(s);
    }
  }

  lemma {:induction false} RunKeepsInv(s: State, actions: seq<Action>)
    requires Inv(s)
    ensures Inv(After(s, actions))
    decreases |actions|
  {
    if actions != [] {
      StepKeepsInv(s, actions[0]);
      RunKeepsInv(Do(s, actions[0]), actions[1..]);
    }
  }

  lemma Reachable(numWorkers: int, maxFibers: nat, main: FiberID, actions: seq<Action>)
    ensures Inv(After(Init(numWorkers, maxFibers, main), actions))
  {
    InitIsInv(numWorkers, maxFibers, main);
    RunKeepsInv(Init(numWorkers, maxFibers, main), actions);
  }
}
