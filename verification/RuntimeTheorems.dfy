/**
 What the admission, dispatch and shutdown protocol guarantees over every run: the counter
 is exact, and a stopped and quiet runtime holds nothing that a later run could dispatch.
 */
module RuntimeTheorems {
  import opened Fibers
  import opened Registries
  import opened Sequences
  import opened Runtime
  import opened RuntimeInvariant

  // ---------------------------------------------------------------- the counter

  /** Calls that raised the counter and have not registered their fiber, over-cap ones included. */
  function CountedOnly(s: State): set<FiberID> {
    set id | id in s.fibers && (s.fibers[id].pc.Counted? || s.fibers[id].pc.OverCap?)
  }

  /** Fibers taken out of the fiber map for which the counter is still to be lowered. */
  function Owing(s: State): set<FiberID> {
    set id | id in s.fibers && OnCounter(s.fibers[id]) && id !in NonMain(s) && id !in CountedOnly(s)
  }

  lemma CounterSplits(s: State)
    requires Inv(s)
    ensures OnCounterSet(s) == NonMain(s) + CountedOnly(s) + Owing(s)
    ensures NonMain(s) !! CountedOnly(s)
    ensures s.count == |NonMain(s)| + |CountedOnly(s)| + |Owing(s)|
  {
    assert OnCounterSet(s) == NonMain(s) + CountedOnly(s) + Owing(s);
    assert NonMain(s) !! CountedOnly(s);
    assert |NonMain(s) + CountedOnly(s)| == |NonMain(s)| + |CountedOnly(s)|;
  }

  /**
   Over every interleaving of Spawn, dispatch, completion, Stop (timed out or not), restart
   and Reset of an empty runtime: activeFiberCount is the number of registered fibers, plus
   calls that counted and have not registered, plus removals not yet subtracted.  So it is
   never negative, and with a cap set no more fibers than the cap are ever registered.
   */
  lemma CounterIsExact(numWorkers: int, maxFibers: nat, main: FiberID, actions: seq<Action>)
    ensures var s := After(Init(numWorkers, maxFibers, main), actions);
      && s.count == |NonMain(s)| + |CountedOnly(s)| + |Owing(s)|
      && 0 <= s.count
      && (maxFibers > 0 ==> |NonMain(s)| <= maxFibers)
  {
    var s := After(Init(numWorkers, maxFibers, main), actions);
    Reachable(numWorkers, maxFibers, main, actions);
    SettingsStay(Init(numWorkers, maxFibers, main), actions);
    CounterSplits(s);
    assert NonMain(s) <= Capped(s);
    SubsetSize(NonMain(s), Capped(s));
  }

  lemma {:induction false} SettingsStay(s: State, actions: seq<Action>)
    ensures After(s, actions).maxFibers == s.maxFibers
    ensures After(s, actions).numWorkers == s.numWorkers
    decreases |actions|
  {
    if actions != [] {
      SettingsStayStep(s, actions[0]);
      SettingsStay(Do(s, actions[0]), actions[1..]);
    }
  }

  lemma SettingsStayStop(s: State)
    ensures StopNext(s).maxFibers == s.maxFibers && StopNext(s).numWorkers == s.numWorkers
  {
    hide Live; hide Claim;
  }

  lemma SettingsStayStart(s: State, main: FiberID)
    ensures StartNext(s, main).maxFibers == s.maxFibers && StartNext(s, main).numWorkers == s.numWorkers
  {
  }

  lemma SettingsStayLoop(s: State)
    ensures LoopNext(s).maxFibers == s.maxFibers && LoopNext(s).numWorkers == s.numWorkers
  {
  }

  lemma SettingsStayStep(s: State, a: Action)
    ensures Do(s, a).maxFibers == s.maxFibers && Do(s, a).numWorkers == s.numWorkers
  {
    hide SpawnEffect;
    hide TaskEffect;
    hide LoopNext;
    hide StopNext;
    hide StartNext;
    if a.StopStep? { SettingsStayStop(s); }
    if a.StartStep? { SettingsStayStart(s, a.main); }
    if a.LoopStep? { SettingsStayLoop(s); }
  }

  /** Nobody is going to act for this fiber any more. */
  predicate Over(r: Rec) {
    && r.pc.Returned? && !r.registered && !r.reaping
    && (r.task.Some? ==> r.task.value.pc.Reporting? || r.task.value.pc.Exited?)
  }

  /**
   The counter is lowered at most once for any fiber, whoever of completion, reap, rollback
   and cap undo gets there first, and exactly once for each that raised it once all is over.
   */
  lemma SubtractedExactlyOnce(numWorkers: int, maxFibers: nat, main: FiberID, actions: seq<Action>, id: FiberID)
    requires id in After(Init(numWorkers, maxFibers, main), actions).fibers
    ensures var r := After(Init(numWorkers, maxFibers, main), actions).fibers[id];
      && r.subtracted <= 1
      && (r.subtracted == 1 ==> r.counted)
      && (Over(r) ==> r.subtracted == (if r.counted then 1 else 0))
  {
    Reachable(numWorkers, maxFibers, main, actions);
  }

  // ---------------------------------------------------------------- shutdown

  /** No Spawn call is in progress and every dispatched fiber has finished. */
  ghost predicate Quiet(s: State) {
    forall id :: id in s.fibers ==>
      s.fibers[id].pc.Returned? && (s.fibers[id].task.Some? ==> s.fibers[id].task.value.pc.Exited?)
  }

  /** Done with, and in no queue. */
  predicate Spent(r: Rec) {
    && r.pc.Returned? && !r.registered && !r.queued && !r.reaping
    && (r.task.Some? ==> r.task.value.pc.Exited?)
  }

  lemma QuietIsSpent(s: State)
    requires Inv(s) && s.stopped && !MuHeld(s) && Quiet(s)
    ensures forall id :: id in s.fibers ==> Spent(s.fibers[id])
  {
    forall id | id in s.fibers ensures Spent(s.fibers[id]) {
      assert RecOk(s.fibers[id], HoldOf(s.loop, id), PhaseOf(s));
    }
  }

  /** Nothing counted, nothing registered but the main fiber, nothing queued. */
  ghost predicate Empty(s: State) {
    && s.count == 0
    && RegistryOf(s).fibers == (if s.main.Some? then {s.main.value} else {})
    && (forall id :: id in s.fibers ==> !s.fibers[id].queued)
  }

  lemma SpentIsEmpty(s: State)
    requires s.count == |OnCounterSet(s)|
    requires forall id :: id in s.fibers ==> Spent(s.fibers[id])
    ensures Empty(s)
  {
    assert NonMain(s) == {};
    forall id | id in s.fibers ensures !OnCounter(s.fibers[id]) {
      assert Spent(s.fibers[id]);
    }
    assert OnCounterSet(s) == {};
  }

  /**
   After Stop has returned and before the next Start, once every overlapping Spawn has
   returned and every dispatched fiber has finished, the counter is exactly 0, the fiber
   map holds at most the main fiber and the scheduler queue is empty.
   */
  lemma StoppedAndQuietIsEmpty(numWorkers: int, maxFibers: nat, main: FiberID, actions: seq<Action>)
    ensures var s := After(Init(numWorkers, maxFibers, main), actions);
      s.stopped && !MuHeld(s) && Quiet(s) ==> Empty(s)
  {
    var s := After(Init(numWorkers, maxFibers, main), actions);
    Reachable(numWorkers, maxFibers, main, actions);
    hide RecOk;
    hide Spent;
    if s.stopped && !MuHeld(s) && Quiet(s) {
      QuietIsSpent(s);
      SpentIsEmpty(s);
    }
  }

  /** A spent fiber that the loop does not hold. */
  predicate SpentIn(s: State, id: FiberID) {
    id in s.fibers && Spent(s.fibers[id]) && HoldOf(s.loop, id).Loose?
  }

  lemma SpentStop(s: State, id: FiberID)
    requires SpentIn(s, id)
    ensures var s' := StopNext(s); SpentIn(s', id) && s'.fibers[id].task == s.fibers[id].task
  {
    match s.life {
      case StopScheduler =>
      case StopCleared =>
      case _ => assert StopNext(s).fibers == s.fibers && StopNext(s).loop == s.loop;
    }
  }

  lemma SpentStart(s: State, main: FiberID, id: FiberID)
    requires SpentIn(s, id)
    ensures var s' := StartNext(s, main); SpentIn(s', id) && s'.fibers[id].task == s.fibers[id].task
  {
  }

  lemma SpentReset(s: State, id: FiberID)
    requires SpentIn(s, id)
    ensures var s' := ResetNext(s); SpentIn(s', id) && s'.fibers[id].task == s.fibers[id].task
  {
  }

  lemma SpentLoop(s: State, id: FiberID)
    requires SpentIn(s, id)
    ensures var s' := LoopNext(s); SpentIn(s', id) && s'.fibers[id].task == s.fibers[id].task
  {
  }

  /** No step changes a spent fiber. */
  lemma SpentEffects(s: State, r: Rec)
    requires Spent(r)
    ensures SpawnEffect(s, r) == Keep(r) && TaskEffect(r) == Keep(r)
  {
  }

  predicate InsideTask(a: Action) {
    a.TaskReturn? || a.TaskBlock? || a.TaskUnblock? || a.TaskReport? || a.TaskAbandon?
  }

  lemma SpentTask(s: State, a: Action, id: FiberID)
    requires InsideTask(a) && SpentIn(s, id)
    ensures var s' := Do(s, a); SpentIn(s', id) && s'.fibers[id].task == s.fibers[id].task
  {
    if a.id == id {
      assert Do(s, a) == s;
    }
  }

  lemma SpentOwn(s: State, a: Action, id: FiberID)
    requires (a.SpawnStep? || a.TaskStep? || a.LoopPop? || a.StopSubtract?) && SpentIn(s, id)
    ensures var s' := Do(s, a); SpentIn(s', id) && s'.fibers[id].task == s.fibers[id].task
  {
    SpentEffects(s, s.fibers[id]);
    hide SpawnEffect;
    hide TaskEffect;
  }

  lemma SpentStep(s: State, a: Action, id: FiberID)
    requires SpentIn(s, id)
    ensures var s' := Do(s, a); SpentIn(s', id) && s'.fibers[id].task == s.fibers[id].task
  {
    hide LoopNext;
    hide StopNext;
    hide StartNext;
    hide ResetNext;
    hide Spent;
    match a {
      case LoopStep => SpentLoop(s, id);
      case StopStep => SpentStop(s, id);
      case StartStep(main) => SpentStart(s, main, id);
      case ResetStep => SpentReset(s, id);
      case _ =>
        if InsideTask(a) {
          SpentTask(s, a, id);
        } else if a.SpawnStep? || a.TaskStep? || a.LoopPop? || a.StopSubtract? {
          SpentOwn(s, a, id);
        }
    }
  }

  /**
   Nothing of a finished run leaks into a later one: a fiber that is spent when the
   runtime is stopped and quiet is never dispatched, whatever happens afterwards.
   */
  lemma {:induction false} SpentForEver(s: State, later: seq<Action>, id: FiberID)
    requires SpentIn(s, id)
    ensures var s' := After(s, later); id in s'.fibers && s'.fibers[id].task == s.fibers[id].task
    decreases |later|
  {
    if later != [] {
      SpentStep(s, later[0], id);
      SpentForEver(Do(s, later[0]), later[1..], id);
    }
  }

  lemma NoFiberSurvivesTheRun(numWorkers: int, maxFibers: nat, main: FiberID,
                              actions: seq<Action>, later: seq<Action>, id: FiberID)
    requires var s := After(Init(numWorkers, maxFibers, main), actions);
      s.stopped && !MuHeld(s) && Quiet(s) && id in s.fibers
    ensures var s := After(Init(numWorkers, maxFibers, main), actions);
      id in After(s, later).fibers && After(s, later).fibers[id].task == s.fibers[id].task
  {
    var s := After(Init(numWorkers, maxFibers, main), actions);
    Reachable(numWorkers, maxFibers, main, actions);
    QuietIsSpent(s);
    SpentForEver(s, later, id);
  }
}
