/**
 What a successful Spawn promises (internal/runtime/runtime.go): the fiber is queued, held by
 the loop, dispatched, or off the registry, exactly if no Start opened the drain gate while
 the fiber was off the queue and its call had not committed.
 */
module RuntimeAdmission {
  import opened Fibers
  import opened Registries
  import opened Sequences
  import opened Runtime
  import opened RuntimeInvariant
  import opened RuntimeTheorems

  /** Registered and published to the scheduler, but in no queue, not held and not dispatched. */
  predicate Orphaned(r: Rec, h: Hold) { r.registered && (Mid(r.pc) || IsAdmitted(r.pc)) && Undispatched(r, h) }

  predicate Orphan(s: State, id: FiberID) { id in s.fibers && Orphaned(s.fibers[id], HoldOf(s.loop, id)) }

  /** The drain gate is closed only between a reap and the next Start. */
  predicate GateOk(s: State) { s.draining ==> AfterReap(s) }

  /**
   Why an orphan is looked after: the gate is closed, so its call rolls back; or the reap is
   about to come; or its call is going to see a cancelled run.
   */
  predicate LookedAfter(s: State, id: FiberID) {
    && id in s.fibers && !s.life.StartRegistered?
    && (s.draining || s.life.StopCleared?
        || (s.stopped && Mid(s.fibers[id].pc) && s.fibers[id].pc != Rechecked(false)))
  }

  /** A Start opens the drain gate while the fiber is an orphan: its call can no longer be refused. */
  predicate Strands(s: State, a: Action, id: FiberID) {
    a.StartStep? && s.life.StartScheduler? && StartNext(s, a.main).life.StartRegistered? && Orphan(s, id)
  }

  /** Some Start along the run does that. */
  ghost predicate Stranded(s: State, actions: seq<Action>, id: FiberID)
    decreases |actions|
  {
    actions != [] && (Strands(s, actions[0], id) || Stranded(Do(s, actions[0]), actions[1..], id))
  }

  lemma GateStep(s: State, a: Action)
    requires Inv(s) && GateOk(s)
    ensures GateOk(Do(s, a))
  {
    assert Lifecycle(s);
    hide Inv; hide Lifecycle; hide StopNext; hide StartNext; hide ResetNext;
    match a
    case StopStep => GateStop(s);
    case StartStep(main) => GateStart(s, main);
    case ResetStep => GateReset(s);
    case StopTimeout =>
    case _ => GateOther(s, a);
  }

  lemma GateOther(s: State, a: Action)
    requires GateOk(s) && !a.StopStep? && !a.StartStep? && !a.ResetStep? && !a.StopTimeout?
    ensures GateOk(Do(s, a))
  {
    hide SpawnEffect; hide TaskEffect; hide GateOk;
    LoopLeavesGate(s);
    hide LoopNext;
    SameGate(s, Do(s, a));
  }

  lemma GateStart(s: State, main: FiberID)
    requires Lifecycle(s) && GateOk(s)
    ensures GateOk(StartNext(s, main))
  {
  }

  lemma GateReset(s: State)
    requires Lifecycle(s) && GateOk(s)
    ensures GateOk(ResetNext(s))
  {
    hide NonMain;
  }

  lemma GateStop(s: State)
    requires Lifecycle(s) && GateOk(s)
    ensures GateOk(StopNext(s))
  {
    hide Live;
  }

  lemma LoopLeavesGate(s: State)
    ensures var s' := LoopNext(s); s'.life == s.life && s'.draining == s.draining && s'.stopped == s.stopped
  {
  }

  lemma SameGate(s: State, s': State)
    requires GateOk(s) && s'.life == s.life && s'.draining == s.draining && s'.stopped == s.stopped
    ensures GateOk(s')
  {
  }

  // ---- Steps of one record ----

  lemma SpawnOrphans(s: State, r: Rec, h: Hold)
    requires RecOk(r, h, PhaseOf(s)) && Orphaned(SpawnEffect(s, r).rec, h)
    ensures Orphaned(r, h)
  {
  }

  /** A call that will see a cancelled run goes on to see it. */
  lemma SpawnLooksOn(s: State, r: Rec, h: Hold)
    requires Lifecycle(s) && s.stopped && RecOk(r, h, PhaseOf(s)) && Mid(r.pc) && r.pc != Rechecked(false)
    ensures var r' := SpawnEffect(s, r).rec; Mid(r'.pc) ==> r'.pc != Rechecked(false)
    ensures var r' := SpawnEffect(s, r).rec; IsAdmitted(r'.pc) ==> !Orphaned(r', h)
  {
  }

  lemma SpawnStepLooksAfter(s: State, x: FiberID, id: FiberID)
    requires Inv(s) && (Orphan(s, id) ==> LookedAfter(s, id))
    ensures var s' := Do(s, SpawnStep(x)); Orphan(s', id) ==> LookedAfter(s', id)
  {
    if x in s.fibers {
      assert RecOk(s.fibers[x], HoldOf(s.loop, x), PhaseOf(s));
      if x == id {
        var r, h := s.fibers[id], HoldOf(s.loop, id);
        if Orphaned(SpawnEffect(s, r).rec, h) {
          SpawnOrphans(s, r, h);
          if s.stopped && Mid(r.pc) && r.pc != Rechecked(false) { SpawnLooksOn(s, r, h); }
        }
      }
    }
    hide SpawnEffect; hide RecOk; hide Orphaned;
  }

  /** Steps of goroutines do not touch a fiber without one. */
  lemma TaskLooksAfter(s: State, a: Action, id: FiberID)
    requires InsideTask(a) || a.TaskStep?
    requires Orphan(s, id) ==> LookedAfter(s, id)
    ensures var s' := Do(s, a); Orphan(s', id) ==> LookedAfter(s', id)
  {
    TaskStepIsAside(s, a, id);
    hide Do; hide Orphaned;
  }

  /** The step changes at most records with a goroutine, and nothing else that matters here. */
  predicate Aside(s: State, s': State, id: FiberID) {
    && s'.life == s.life && s'.loop == s.loop && s'.draining == s.draining && s'.stopped == s.stopped
    && (id in s.fibers <==> id in s'.fibers)
    && (id in s.fibers ==> var r, r' := s.fibers[id], s'.fibers[id]; r' == r || (r.task.Some? && r'.task.Some?))
  }

  lemma PutAside(s: State, x: FiberID, e: Effect, id: FiberID)
    requires x in s.fibers && s.fibers[x].task.Some? && e.rec.task.Some?
    ensures Aside(s, Put(s, x, e), id)
  {
  }

  lemma TaskKeepsTask(r: Rec)
    ensures if r.task.Some? then TaskEffect(r).rec.task.Some? else TaskEffect(r) == Keep(r)
  {
  }

  lemma TaskStepIsAside(s: State, a: Action, id: FiberID)
    requires InsideTask(a) || a.TaskStep?
    ensures Aside(s, Do(s, a), id)
  {
    if a.id in s.fibers {
      var r := s.fibers[a.id];
      TaskKeepsTask(r);
      hide TaskEffect; hide Aside;
      assert Aside(s, s, id) by { SameIsAside(s, id); }
      if r.task.Some? {
        match a
        case TaskStep(x) => PutAside(s, x, TaskEffect(r), id);
        case TaskReturn(x) => PutAside(s, x, Keep(At(r, Ended).(fiber := LeaveRun(r.fiber))), id);
        case TaskBlock(x) => PutAside(s, x, Keep(r.(fiber := Block(r.fiber))), id);
        case TaskUnblock(x, _) => PutAside(s, x, Keep(r.(fiber := Unblock(r.fiber))), id);
        case TaskReport(x) =>
          if r.task.value.pc.Reporting? {
            var p := Put(s, x, Keep(At(r, Exited(r.task.value.pc.present))));
            PutAside(s, x, Keep(At(r, Exited(r.task.value.pc.present))), id);
            ResultsAside(s, p, Do(s, a), id);
          }
        case TaskAbandon(x) =>
          if r.task.value.pc.Reporting? { PutAside(s, x, Keep(At(r, Exited(r.task.value.pc.present))), id); }
      } else {
        PutSame(s, a.id);
      }
    } else {
      SameIsAside(s, id);
      hide Aside;
    }
  }

  lemma SameIsAside(s: State, id: FiberID)
    ensures Aside(s, s, id)
  {
  }

  lemma PutSame(s: State, x: FiberID)
    requires x in s.fibers
    ensures Put(s, x, Keep(s.fibers[x])) == s
  {
    assert s.fibers[x := s.fibers[x]] == s.fibers;
  }

  lemma ResultsAside(s: State, p: State, s': State, id: FiberID)
    requires Aside(s, p, id) && (s' == s || exists runs :: s' == p.(runs := runs))
    ensures Aside(s, s', id)
  {
  }

  lemma LoopLooksAfter(s: State, a: Action, id: FiberID)
    requires a.LoopTick? || a.LoopReceive? || a.LoopCancelled? || a.LoopPop?
    requires Orphan(s, id) ==> LookedAfter(s, id)
    ensures var s' := Do(s, a); Orphan(s', id) ==> LookedAfter(s', id)
  {
  }

  /** The loop dispatches every fiber that it takes off the queue. */
  lemma LoopStepLooksAfter(s: State, id: FiberID)
    requires Inv(s) && (Orphan(s, id) ==> LookedAfter(s, id))
    ensures var s' := LoopNext(s); Orphan(s', id) ==> LookedAfter(s', id)
  {
    hide Inv;
    if s.loop.Popped? {
      PoppedIsReady(s);
      PoppedLooksAfter(s, id);
    } else if s.loop.Dispatching? {
      DispatchingIsThere(s);
      DispatchingLooksAfter(s, id);
    } else {
      OtherLoopSteps(s, id);
    }
  }

  lemma PoppedIsReady(s: State)
    requires Inv(s) && s.loop.Popped?
    ensures s.loop.id in s.fibers && s.fibers[s.loop.id].fiber.state == Ready
  {
    assert RecOk(s.fibers[s.loop.id], HoldOf(s.loop, s.loop.id), PhaseOf(s));
  }

  lemma DispatchingIsThere(s: State)
    requires Inv(s) && s.loop.Dispatching?
    ensures s.loop.id in s.fibers && |s.runs| > 0
  {
  }

  lemma OtherLoopSteps(s: State, id: FiberID)
    requires !s.loop.Popped? && !s.loop.Dispatching? && (Orphan(s, id) ==> LookedAfter(s, id))
    ensures var s' := LoopNext(s); Orphan(s', id) ==> LookedAfter(s', id)
  {
    assert LoopNext(s).fibers == s.fibers;
  }

  lemma PoppedLooksAfter(s: State, id: FiberID)
    requires s.loop.Popped? && s.loop.id in s.fibers && s.fibers[s.loop.id].fiber.state == Ready
    requires Orphan(s, id) ==> LookedAfter(s, id)
    ensures var s' := LoopNext(s); Orphan(s', id) ==> LookedAfter(s', id)
  {
  }

  lemma DispatchingLooksAfter(s: State, id: FiberID)
    requires s.loop.Dispatching? && s.loop.id in s.fibers && |s.runs| > 0 && (Orphan(s, id) ==> LookedAfter(s, id))
    ensures var s' := LoopNext(s); Orphan(s', id) ==> LookedAfter(s', id)
  {
  }

  lemma StopLooksAfter(s: State, id: FiberID)
    requires Orphan(s, id) ==> LookedAfter(s, id)
    ensures var s' := StopNext(s); Orphan(s', id) ==> LookedAfter(s', id)
  {
    hide Live;
  }

  /** Reset empties the queue of a stopped runtime, where queued calls are on their way back. */
  lemma ResetLooksAfter(s: State, id: FiberID)
    requires Inv(s) && (Orphan(s, id) ==> LookedAfter(s, id))
    ensures var s' := ResetNext(s); Orphan(s', id) ==> LookedAfter(s', id)
  {
    if id in s.fibers {
      assert RecOk(s.fibers[id], HoldOf(s.loop, id), PhaseOf(s));
      assert s.fibers[id].registered ==> id in NonMain(s);
    }
    hide PlaceOk; hide LedgerOk; hide FiberOk; hide Counts; hide Slots; hide Recs;
  }

  lemma StartLeaves(s: State, main: FiberID)
    ensures StartNext(s, main).fibers == s.fibers
    ensures StartNext(s, main).loop == if s.life.StartRegistered? then Selecting(0) else s.loop
  {
  }

  lemma NothingHeldBetweenRuns(s: State)
    requires Lifecycle(s) && s.life.StartRegistered?
    ensures s.loop.NoLoop? || s.loop.LoopExited?
  {
  }

  /** The loop holds nothing between runs, so a Start makes no orphans. */
  lemma StartMakesNoOrphan(s: State, main: FiberID, id: FiberID)
    requires Lifecycle(s)
    ensures Orphan(StartNext(s, main), id) ==> Orphan(s, id)
  {
    StartLeaves(s, main);
    if s.life.StartRegistered? { NothingHeldBetweenRuns(s); }
    hide Lifecycle; hide Orphaned; hide StartNext;
  }

  lemma StartLooksOn(s: State, main: FiberID, id: FiberID)
    requires Lifecycle(s) && LookedAfter(s, id)
    requires s.life.StartScheduler? ==> !StartNext(s, main).life.StartRegistered?
    ensures LookedAfter(StartNext(s, main), id)
  {
    hide Mid;
  }

  lemma StartLooksAfter(s: State, main: FiberID, id: FiberID)
    requires Inv(s) && GateOk(s) && (Orphan(s, id) ==> LookedAfter(s, id)) && !Strands(s, StartStep(main), id)
    ensures var s' := StartNext(s, main); Orphan(s', id) ==> LookedAfter(s', id)
  {
    assert Lifecycle(s);
    StartMakesNoOrphan(s, main, id);
    hide Inv; hide Lifecycle; hide Orphan; hide LookedAfter; hide StartNext; hide GateOk;
    if Orphan(s, id) { StartLooksOn(s, main, id); }
  }

  lemma SubtractLooksAfter(s: State, x: FiberID, id: FiberID)
    requires Orphan(s, id) ==> LookedAfter(s, id)
    ensures var s' := Do(s, StopSubtract(x)); Orphan(s', id) ==> LookedAfter(s', id)
  {
  }

  lemma StepLooksAfter(s: State, a: Action, id: FiberID)
    requires Inv(s) && GateOk(s) && (Orphan(s, id) ==> LookedAfter(s, id)) && !Strands(s, a, id)
    ensures Orphan(Do(s, a), id) ==> LookedAfter(Do(s, a), id)
  {
    hide Inv; hide Orphaned; hide LoopNext; hide StopNext; hide StartNext; hide ResetNext;
    hide SpawnEffect; hide TaskEffect;
    if InsideTask(a) || a.TaskStep? {
      TaskLooksAfter(s, a, id);
    } else {
      match a
      case SpawnStep(x) => SpawnStepLooksAfter(s, x, id);
      case LoopStep => LoopStepLooksAfter(s, id);
      case StopStep => StopLooksAfter(s, id);
      case ResetStep => ResetLooksAfter(s, id);
      case StartStep(main) => StartLooksAfter(s, main, id);
      case StopSubtract(x) => SubtractLooksAfter(s, x, id);
      case CancelRun =>
      case StopTimeout =>
      case _ => LoopLooksAfter(s, a, id);
    }
  }

  lemma {:induction false} RunLooksAfter(s: State, actions: seq<Action>, id: FiberID)
    requires Inv(s) && GateOk(s) && (Orphan(s, id) ==> LookedAfter(s, id)) && !Stranded(s, actions, id)
    ensures var s' := After(s, actions); Inv(s') && GateOk(s') && (Orphan(s', id) ==> LookedAfter(s', id))
    decreases |actions|
  {
    hide Inv; hide GateOk; hide Orphan; hide LookedAfter; hide Do; hide Strands;
    if actions != [] {
      StepKeepsInv(s, actions[0]);
      GateStep(s, actions[0]);
      StepLooksAfter(s, actions[0], id);
      RunLooksAfter(Do(s, actions[0]), actions[1..], id);
    }
  }

  /** Whoever looks after an admitted orphan is the reap that comes next. */
  lemma AdmittedOrphan(s: State, id: FiberID)
    requires Inv(s) && GateOk(s) && Orphan(s, id) && LookedAfter(s, id) && IsAdmitted(s.fibers[id].pc)
    ensures s.life.StopCleared?
  {
    assert RecOk(s.fibers[id], HoldOf(s.loop, id), PhaseOf(s));
  }

  /** The fiber is in the scheduler, with the loop, in a goroutine, or off the registry. */
  predicate Served(s: State, id: FiberID)
    requires id in s.fibers
  {
    var r := s.fibers[id];
    r.queued || !HoldOf(s.loop, id).Loose? || r.task.Some? || !r.registered
  }

  // ---- Once off the queue ----

  /** Published once, and now in no queue, not held and without a goroutine. */
  predicate Forgotten(s: State, id: FiberID) {
    && id in s.fibers && Undispatched(s.fibers[id], HoldOf(s.loop, id))
    && (Mid(s.fibers[id].pc) || Back(s.fibers[id].pc) || IsAdmitted(s.fibers[id].pc))
  }

  lemma SpawnForgets(s: State, r: Rec)
    requires !r.queued && r.task.None? && (Mid(r.pc) || Back(r.pc) || IsAdmitted(r.pc))
    ensures var r' := SpawnEffect(s, r).rec;
      !r'.queued && r'.task.None? && (Mid(r'.pc) || Back(r'.pc) || IsAdmitted(r'.pc))
  {
    hide MuHeld; hide RunCancelled; hide IsRunning;
    match r.pc
    case Scheduled =>
    case GotContext(_) =>
    case Rechecked(_) =>
    case RolledBack(_) =>
    case Unscheduled(_) =>
    case Returned(_) =>
  }

  lemma LoopForgets(s: State, id: FiberID)
    requires Forgotten(s, id)
    ensures Forgotten(LoopNext(s), id)
  {
    hide Live;
  }

  lemma StopForgets(s: State, id: FiberID)
    requires Forgotten(s, id)
    ensures Forgotten(StopNext(s), id)
  {
    hide Live; hide Mid; hide Back; hide IsAdmitted; hide HoldOf;
    match s.life {
      case StopScheduler =>
      case StopCleared => assert Claim(s.fibers[id]).pc == s.fibers[id].pc;
      case _ => assert StopNext(s).fibers == s.fibers && StopNext(s).loop == s.loop;
    }
  }

  lemma ResetForgets(s: State, id: FiberID)
    requires Forgotten(s, id)
    ensures Forgotten(ResetNext(s), id)
  {
    hide NonMain; hide Mid; hide Back; hide IsAdmitted; hide HoldOf;
  }

  lemma ForgottenStep(s: State, a: Action, id: FiberID)
    requires Forgotten(s, id)
    ensures Forgotten(Do(s, a), id)
  {
    hide LoopNext; hide StopNext; hide ResetNext; hide TaskEffect; hide SpawnEffect;
    if InsideTask(a) || a.TaskStep? {
      TaskStepIsAside(s, a, id);
      hide Do; hide Mid; hide Back; hide IsAdmitted; hide HoldOf;
    } else {
      match a
      case SpawnStep(x) => SpawnForgets(s, s.fibers[id]);
      case LoopStep => LoopForgets(s, id);
      case StopStep => StopForgets(s, id);
      case ResetStep => ResetForgets(s, id);
      case StartStep(main) =>
        hide Mid; hide Back; hide IsAdmitted;
        assert StartNext(s, main).fibers == s.fibers;
      case _ => hide Mid; hide Back; hide IsAdmitted;
    }
  }

  /** A fiber that is off the queue without having been dispatched never will be. */
  lemma {:induction false} NeverDispatched(s: State, later: seq<Action>, id: FiberID)
    requires Forgotten(s, id)
    ensures Forgotten(After(s, later), id)
    decreases |later|
  {
    hide Do; hide Forgotten;
    if later != [] {
      ForgottenStep(s, later[0], id);
      NeverDispatched(Do(s, later[0]), later[1..], id);
    }
  }

  // ---- The exact condition ----

  lemma OrphanIsForgotten(s: State, id: FiberID)
    requires Orphan(s, id)
    ensures Forgotten(s, id)
  {
  }

  lemma ForgottenIsNotServed(s: State, id: FiberID)
    requires Forgotten(s, id) && s.fibers[id].registered
    ensures !Served(s, id)
  {
  }

  /** Once a Start has stranded the fiber it stays off the queue and undispatched. */
  lemma {:induction false} StrandedIsForgotten(s: State, actions: seq<Action>, id: FiberID)
    requires Stranded(s, actions, id)
    ensures Forgotten(After(s, actions), id)
    decreases |actions|
  {
    hide Do; hide Forgotten; hide Orphan;
    if Strands(s, actions[0], id) {
      OrphanIsForgotten(s, id);
      NeverDispatched(s, actions, id);
    } else {
      StrandedIsForgotten(Do(s, actions[0]), actions[1..], id);
    }
  }

  /**
   Over every run, outside the instant in which a Stop has cleared the queue and is about to
   reap: a registered fiber whose Spawn has returned without error is queued, held by the loop
   or dispatched if and only if no Start opened the drain gate while it was an orphan.
   */
  lemma AdmittedIsServedIff(numWorkers: int, maxFibers: nat, main: FiberID, actions: seq<Action>, id: FiberID)
    ensures var s0 := Init(numWorkers, maxFibers, main);
      var s := After(s0, actions);
      id in s.fibers && IsAdmitted(s.fibers[id].pc) && s.fibers[id].registered && !s.life.StopCleared? ==>
        (Served(s, id) <==> !Stranded(s0, actions, id))
  {
    var s0 := Init(numWorkers, maxFibers, main);
    var s := After(s0, actions);
    InitIsInv(numWorkers, maxFibers, main);
    if id in s.fibers && IsAdmitted(s.fibers[id].pc) && s.fibers[id].registered && !s.life.StopCleared? {
      if Stranded(s0, actions, id) {
        StrandedIsForgotten(s0, actions, id);
        ForgottenIsNotServed(s, id);
      } else {
        RunLooksAfter(s0, actions, id);
        hide Inv; hide GateOk; hide LookedAfter;
        if !Served(s, id) { AdmittedOrphan(s, id); }
      }
    }
  }
}
