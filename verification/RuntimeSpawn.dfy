/**
 What Spawn answers (internal/runtime/runtime.go): each refusal is made exactly when its reason
 holds at the step that looks, whatever else goes on, and a call that nobody interferes with is
 admitted exactly when the runtime runs, has room and is not stopping.
 */
module RuntimeSpawn {
  import opened Fibers
  import opened Registries
  import opened Sequences
  import opened Runtime
  import opened RuntimeInvariant
  import opened RuntimeTheorems
  import opened RuntimeSlots

  /** Registered fibers, calls about to register one, and removals not yet subtracted use up the cap. */
  predicate CapUsedUp(s: State) {
    s.maxFibers > 0 && |NonMain(s)| + |CountedOnly(s)| + |Owing(s)| >= s.maxFibers
  }

  /** The steps of a call that decide. */
  datatype Question = AtEntry | AtCount | AtSchedule | AtCommit

  /** The call has passed that step. */
  predicate Past(q: Question, pc: SpawnPC) {
    match q
    case AtEntry => !pc.Entered?
    case AtCount => !pc.Entered? && !pc.Checked?
    case AtSchedule => !Unborn(pc) && !pc.Inserted?
    case AtCommit => Back(pc) || pc.Returned?
  }

  /** It was refused there: the caller was, or is going to be, told so. */
  predicate Refused(q: Question, pc: SpawnPC) {
    match q
    case AtEntry => pc == Returned(NotStarted)
    case AtCount => pc.OverCap? || pc == Returned(CapReached)
    case AtSchedule => pc.ScheduleRefused? || pc.RefusalRemoved? || pc == Returned(ScheduleError)
    case AtCommit => Back(pc)
  }

  /** After scheduling, calls go on to further such places only. */
  lemma LateCall(s: State, r: Rec)
    requires Mid(r.pc) || Back(r.pc) || r.pc.Returned?
    ensures var pc := SpawnEffect(s, r).rec.pc;
      if r.pc.Returned? then pc == r.pc
      else if Back(r.pc) then Back(pc)
      else Mid(pc) || Back(pc) || IsAdmitted(pc)
  {
    hide MuHeld; hide IsRunning; hide RunCancelled;
    match r.pc
    case Scheduled =>
    case GotContext(_) =>
    case Rechecked(_) =>
    case RolledBack(_) =>
    case Unscheduled(_) =>
    case Returned(_) =>
  }

  lemma EarlyCall(s: State, r: Rec)
    requires Early(r.pc) || r.pc.Counted? || r.pc.OverCap? || r.pc.RefusalRemoved?
    ensures var pc := SpawnEffect(s, r).rec.pc;
      match r.pc
      case Counted => pc.Inserted?
      case Inserted => pc.ScheduleOpen? || pc.ScheduleRefused?
      case ScheduleOpen => pc.Scheduled?
      case ScheduleRefused => pc.RefusalRemoved?
      case RefusalRemoved => pc == Returned(ScheduleError)
      case _ => pc == Returned(CapReached)
  {
    match r.pc
    case Counted =>
    case OverCap =>
    case Inserted =>
    case ScheduleOpen =>
    case ScheduleRefused =>
    case RefusalRemoved =>
  }

  lemma CheckedCall(s: State, r: Rec)
    requires r.pc.Checked?
    ensures var pc := SpawnEffect(s, r).rec.pc; pc.OverCap? || pc.Counted?
  {
  }

  /** An answer once decided is not taken back. */
  lemma SpawnKeepsVerdict(q: Question, s: State, r: Rec)
    requires Past(q, r.pc)
    ensures var pc := SpawnEffect(s, r).rec.pc; Past(q, pc) && (Refused(q, pc) <==> Refused(q, r.pc))
  {
    hide SpawnEffect;
    if Mid(r.pc) || Back(r.pc) || r.pc.Returned? {
      LateCall(s, r);
    } else if r.pc.Checked? {
      CheckedCall(s, r);
    } else {
      EarlyCall(s, r);
    }
  }

  /** Only its own steps move a call. */
  lemma CallStep(s: State, a: Action, id: FiberID)
    requires id in s.fibers
    ensures var s' := Do(s, a);
      id in s'.fibers
      && s'.fibers[id].pc == if a == SpawnStep(id) then SpawnEffect(s, s.fibers[id]).rec.pc else s.fibers[id].pc
  {
    hide SpawnEffect; hide LoopNext; hide StopNext; hide StartNext; hide ResetNext; hide TaskEffect;
    match a
    case LoopStep => LoopKeepsCall(s, id);
    case StopStep => StopKeepsCall(s, id);
    case StartStep(main) => StartKeepsCalls(s, main);
    case ResetStep => ResetKeepsCall(s, id);
    case TaskStep(x) => TaskKeepsCall(s, x);
    case _ => if InsideTask(a) { FunctionKeepsCall(s, a, id); }
  }

  lemma LoopKeepsCall(s: State, id: FiberID)
    requires id in s.fibers
    ensures id in LoopNext(s).fibers && LoopNext(s).fibers[id].pc == s.fibers[id].pc
  {
    if !s.loop.Popped? && !s.loop.Dispatching? {
      assert LoopNext(s).fibers == s.fibers;
      hide LoopNext;
    }
  }

  lemma StopKeepsCall(s: State, id: FiberID)
    requires id in s.fibers
    ensures id in StopNext(s).fibers && StopNext(s).fibers[id].pc == s.fibers[id].pc
  {
    hide Live;
    match s.life
    case StopScheduler =>
    case StopCleared =>
    case _ => assert StopNext(s).fibers == s.fibers;
  }

  lemma StartKeepsCalls(s: State, main: FiberID)
    ensures StartNext(s, main).fibers == s.fibers
  {
  }

  lemma ResetKeepsCall(s: State, id: FiberID)
    requires id in s.fibers
    ensures id in ResetNext(s).fibers && ResetNext(s).fibers[id].pc == s.fibers[id].pc
  {
    hide NonMain; hide IsRunning;
  }

  lemma TaskKeepsCall(s: State, x: FiberID)
    ensures x in s.fibers ==> TaskEffect(s.fibers[x]).rec.pc == s.fibers[x].pc
  {
  }

  lemma FunctionKeepsCall(s: State, a: Action, id: FiberID)
    requires InsideTask(a) && id in s.fibers
    ensures id in Do(s, a).fibers && Do(s, a).fibers[id].pc == s.fibers[id].pc
  {
    hide MayWake; hide InFunction;
  }

  lemma {:induction false} VerdictStands(q: Question, s: State, actions: seq<Action>, id: FiberID)
    requires id in s.fibers && Past(q, s.fibers[id].pc)
    ensures var s' := After(s, actions);
      id in s'.fibers && Past(q, s'.fibers[id].pc) && (Refused(q, s'.fibers[id].pc) <==> Refused(q, s.fibers[id].pc))
    decreases |actions|
  {
    hide Do; hide SpawnEffect; hide Past; hide Refused;
    if actions != [] {
      CallStep(s, actions[0], id);
      SpawnKeepsVerdict(q, s, s.fibers[id]);
      VerdictStands(q, Do(s, actions[0]), actions[1..], id);
    }
  }

  /** The call is refused at `q` after its next step in `s`, and whatever comes later. */
  ghost predicate RefusedFrom(q: Question, s: State, id: FiberID, later: seq<Action>) {
    var s' := After(Do(s, SpawnStep(id)), later);
    id in s'.fibers && Refused(q, s'.fibers[id].pc)
  }

  lemma DecidedNow(q: Question, s: State, id: FiberID, later: seq<Action>)
    requires id in s.fibers && Past(q, SpawnEffect(s, s.fibers[id]).rec.pc)
    ensures RefusedFrom(q, s, id, later) <==> Refused(q, SpawnEffect(s, s.fibers[id]).rec.pc)
  {
    hide Do; hide After; hide SpawnEffect; hide Past; hide Refused;
    CallStep(s, SpawnStep(id), id);
    VerdictStands(q, Do(s, SpawnStep(id)), later, id);
  }

  /**
   Over every run, whatever comes before and after: a call is told that the runtime is not started
   if and only if, at the step that looks, it is not running.
   */
  lemma EntryRefusesIff(numWorkers: int, maxFibers: nat, main: FiberID, before: seq<Action>, id: FiberID,
                        later: seq<Action>)
    requires var s := After(Init(numWorkers, maxFibers, main), before);
      id in s.fibers && s.fibers[id].pc.Entered? && !MuHeld(s)
    ensures var s := After(Init(numWorkers, maxFibers, main), before);
      RefusedFrom(AtEntry, s, id, later) <==> |s.runs| == 0 || s.stopped
  {
    var s := After(Init(numWorkers, maxFibers, main), before);
    hide After; hide RefusedFrom;
    DecidedNow(AtEntry, s, id, later);
  }

  lemma CountingStep(s: State, r: Rec)
    requires Inv(s) && r.pc.Checked?
    ensures SpawnEffect(s, r).rec.pc == if CapUsedUp(s) then OverCap else Counted
  {
    CounterSplits(s);
    hide Inv; hide NonMain; hide CountedOnly; hide Owing;
  }

  /**
   It is told that the cap is reached if and only if a cap is set and, at its counting step, the
   registered fibers, the calls about to register and the removals not yet subtracted use it up.
   */
  lemma CapRefusesIff(numWorkers: int, maxFibers: nat, main: FiberID, before: seq<Action>, id: FiberID,
                      later: seq<Action>)
    requires var s := After(Init(numWorkers, maxFibers, main), before); id in s.fibers && s.fibers[id].pc.Checked?
    ensures var s := After(Init(numWorkers, maxFibers, main), before);
      RefusedFrom(AtCount, s, id, later) <==>
        maxFibers > 0 && |NonMain(s)| + |CountedOnly(s)| + |Owing(s)| >= maxFibers
  {
    var s := After(Init(numWorkers, maxFibers, main), before);
    Reachable(numWorkers, maxFibers, main, before);
    SettingsStay(Init(numWorkers, maxFibers, main), before);
    CountingStep(s, s.fibers[id]);
    hide SpawnEffect; hide After; hide Inv; hide NonMain; hide CountedOnly; hide Owing; hide RefusedFrom;
    DecidedNow(AtCount, s, id, later);
  }

  /** It is told that scheduling failed if and only if, at the step that looks, the scheduler is stopped. */
  lemma SchedulerRefusesIff(numWorkers: int, maxFibers: nat, main: FiberID, before: seq<Action>, id: FiberID,
                            later: seq<Action>)
    requires var s := After(Init(numWorkers, maxFibers, main), before); id in s.fibers && s.fibers[id].pc.Inserted?
    ensures var s := After(Init(numWorkers, maxFibers, main), before);
      RefusedFrom(AtSchedule, s, id, later) <==> s.schedulerStopped
  {
    var s := After(Init(numWorkers, maxFibers, main), before);
    hide After; hide RefusedFrom;
    DecidedNow(AtSchedule, s, id, later);
  }

  /** No step of the call of `id`. */
  ghost predicate Elsewhere(actions: seq<Action>, id: FiberID) {
    forall i :: 0 <= i < |actions| ==> actions[i] != SpawnStep(id)
  }

  lemma {:induction false} CallWaits(s: State, actions: seq<Action>, id: FiberID)
    requires id in s.fibers && Elsewhere(actions, id)
    ensures id in After(s, actions).fibers && After(s, actions).fibers[id].pc == s.fibers[id].pc
    decreases |actions|
  {
    hide Do;
    if actions != [] {
      CallStep(s, actions[0], id);
      CallWaits(Do(s, actions[0]), actions[1..], id);
    }
  }

  /**
   From any state in which the scheduled call reads the context of the run that is then current,
   whatever others do between its steps and after them: the call is rolled back if and only if that
   run, however many came since, is cancelled when it looks, or the drain gate is closed when it
   would commit.
   */
  lemma CommitRefusesIff(s: State, id: FiberID, first: seq<Action>, second: seq<Action>, later: seq<Action>)
    requires id in s.fibers && s.fibers[id].pc.Scheduled? && !MuHeld(s) && |s.runs| > 0
    requires Elsewhere(first, id) && Elsewhere(second, id)
    ensures var looks := After(Do(s, SpawnStep(id)), first);
      var commits := After(Do(looks, SpawnStep(id)), second);
      RefusedFrom(AtCommit, commits, id, later) <==> RunCancelled(looks, |s.runs| - 1) || commits.draining
  {
    hide After; hide RefusedFrom; hide Do; hide RunCancelled;
    var looks := After(Do(s, SpawnStep(id)), first);
    CallStep(s, SpawnStep(id), id);
    CallWaits(Do(s, SpawnStep(id)), first, id);
    CallStep(looks, SpawnStep(id), id);
    CallWaits(Do(looks, SpawnStep(id)), second, id);
    var commits := After(Do(looks, SpawnStep(id)), second);
    assert commits.fibers[id].pc == Rechecked(RunCancelled(looks, |s.runs| - 1));
    DecidedNow(AtCommit, commits, id, later);
  }

  // ---- A call that nobody interferes with ----

  /** The steps of one call, in a row. */
  function Steps(id: FiberID, n: nat): seq<Action> { seq(n, _ => SpawnStep(id)) }

  /** The state `s` with the call of `id` standing at `r`. */
  function With(s: State, id: FiberID, r: Rec, count: int): State { s.(fibers := s.fibers[id := r], count := count) }

  lemma OneStep(s: State, id: FiberID, r: Rec, count: int, r': Rec, count': int, n: nat)
    requires SpawnEffect(With(s, id, r, count), r) == Effect(r', count' - count)
    ensures After(With(s, id, r, count), Steps(id, n + 1)) == After(With(s, id, r', count'), Steps(id, n))
  {
    hide SpawnEffect; hide After;
    var t := With(s, id, r, count);
    assert t.fibers[id := r'] == s.fibers[id := r'];
    assert Do(t, SpawnStep(id)) == With(s, id, r', count');
    assert Steps(id, n + 1)[0] == SpawnStep(id) && Steps(id, n + 1)[1..] == Steps(id, n);
    AfterFirst(t, Steps(id, n + 1));
  }

  lemma AfterFirst(s: State, actions: seq<Action>)
    requires actions != []
    ensures After(s, actions) == After(Do(s, actions[0]), actions[1..])
  {
    hide Do;
  }

  /** A call that has returned stays so. */
  lemma {:induction false} ReturnedStays(s: State, id: FiberID, r: Rec, count: int, n: nat)
    requires r.pc.Returned?
    ensures After(With(s, id, r, count), Steps(id, n)) == With(s, id, r, count)
  {
    if n > 0 {
      OneStep(s, id, r, count, r, count, n - 1);
      ReturnedStays(s, id, r, count, n - 1);
    }
  }

  /** The record of a call at `pc`. */
  function CallAt(pc: SpawnPC, registered: bool, committed: bool, queued: bool, counted: bool, subtracted: nat): Rec {
    Rec(pc, registered, committed, queued, None, false, NewFiber(), counted, subtracted)
  }

  /** What the call is told if nobody interferes. */
  function Answer(s: State): SpawnResult {
    if !IsRunning(s) then NotStarted
    else if CapUsedUp(s) then CapReached
    else if s.schedulerStopped then ScheduleError
    else if s.runs[|s.runs| - 1].cancelled || s.draining then StoppedDuringSpawn(true)
    else Admitted
  }

  /** And how it leaves its fiber: registered, committed and queued if admitted, and nowhere if not. */
  function Left(s: State): Rec {
    match Answer(s)
    case NotStarted => CallAt(Returned(NotStarted), false, false, false, false, 0)
    case Admitted => CallAt(Returned(Admitted), true, true, true, true, 0)
    case refused => CallAt(Returned(refused), false, false, false, true, 1)
  }

  lemma RefusedEarly(s: State, id: FiberID, c: int)
    requires s.count == c && !MuHeld(s) && (!IsRunning(s) || (s.maxFibers > 0 && c + 1 > s.maxFibers))
    ensures var r := if IsRunning(s) then CallAt(Returned(CapReached), false, false, false, true, 1)
                     else CallAt(Returned(NotStarted), false, false, false, false, 0);
      After(With(s, id, NewCall(), c), Steps(id, 10)) == With(s, id, r, c)
  {
    hide After; hide Steps; hide IsRunning;
    if !IsRunning(s) {
      assert !IsRunning(With(s, id, NewCall(), c)) by { SameRunning(s, id, NewCall(), c); }
      var r := CallAt(Returned(NotStarted), false, false, false, false, 0);
      OneStep(s, id, NewCall(), c, r, c, 9);
      ReturnedStays(s, id, r, c, 9);
    } else {
      SeenRunning(s, id, c);
      var checked := CallAt(Checked, false, false, false, false, 0);
      var over := CallAt(OverCap, false, false, false, true, 0);
      var r := CallAt(Returned(CapReached), false, false, false, true, 1);
      OneStep(s, id, checked, c, over, c + 1, 8);
      OneStep(s, id, over, c + 1, r, c, 7);
      ReturnedStays(s, id, r, c, 7);
    }
  }

  lemma SameRunning(s: State, id: FiberID, r: Rec, c: int)
    ensures IsRunning(With(s, id, r, c)) <==> IsRunning(s)
  {
  }

  lemma SeenRunning(s: State, id: FiberID, c: int)
    requires !MuHeld(s) && IsRunning(s)
    ensures After(With(s, id, NewCall(), c), Steps(id, 10))
      == After(With(s, id, CallAt(Checked, false, false, false, false, 0), c), Steps(id, 9))
  {
    hide After; hide Steps;
    OneStep(s, id, NewCall(), c, CallAt(Checked, false, false, false, false, 0), c, 9);
  }

  /** Up to the answer of the scheduler. */
  lemma CountedAndInserted(s: State, id: FiberID, c: int)
    requires s.count == c && !MuHeld(s) && IsRunning(s) && !(s.maxFibers > 0 && c + 1 > s.maxFibers)
    ensures After(With(s, id, NewCall(), c), Steps(id, 10))
      == After(With(s, id, CallAt(Inserted, true, false, false, true, 0), c + 1), Steps(id, 7))
  {
    hide After; hide Steps;
    SeenRunning(s, id, c);
    var checked := CallAt(Checked, false, false, false, false, 0);
    var counted := CallAt(Counted, false, false, false, true, 0);
    OneStep(s, id, checked, c, counted, c + 1, 8);
    OneStep(s, id, counted, c + 1, CallAt(Inserted, true, false, false, true, 0), c + 1, 7);
  }

  lemma RefusedByScheduler(s: State, id: FiberID, c: int)
    requires s.schedulerStopped
    ensures After(With(s, id, CallAt(Inserted, true, false, false, true, 0), c + 1), Steps(id, 7))
      == With(s, id, CallAt(Returned(ScheduleError), false, false, false, true, 1), c)
  {
    hide After; hide Steps;
    var refused, removed := CallAt(ScheduleRefused, true, false, false, true, 0),
      CallAt(RefusalRemoved, false, false, false, true, 0);
    var r := CallAt(Returned(ScheduleError), false, false, false, true, 1);
    OneStep(s, id, CallAt(Inserted, true, false, false, true, 0), c + 1, refused, c + 1, 6);
    OneStep(s, id, refused, c + 1, removed, c + 1, 5);
    OneStep(s, id, removed, c + 1, r, c, 4);
    ReturnedStays(s, id, r, c, 4);
  }

  /** Up to the recheck. */
  lemma RecheckedAfterSchedule(s: State, id: FiberID, c: int)
    requires !s.schedulerStopped && !MuHeld(s) && IsRunning(s)
    ensures After(With(s, id, CallAt(Inserted, true, false, false, true, 0), c + 1), Steps(id, 7))
      == After(With(s, id, CallAt(Rechecked(s.runs[|s.runs| - 1].cancelled), true, false, true, true, 0), c + 1),
               Steps(id, 3))
  {
    hide After; hide Steps;
    var open := CallAt(ScheduleOpen, true, false, false, true, 0);
    var queued := CallAt(Scheduled, true, false, true, true, 0);
    var context := CallAt(GotContext(|s.runs| - 1), true, false, true, true, 0);
    OneStep(s, id, CallAt(Inserted, true, false, false, true, 0), c + 1, open, c + 1, 6);
    OneStep(s, id, open, c + 1, queued, c + 1, 5);
    OneStep(s, id, queued, c + 1, context, c + 1, 4);
    OneStep(s, id, context, c + 1, CallAt(Rechecked(s.runs[|s.runs| - 1].cancelled), true, false, true, true, 0),
            c + 1, 3);
  }

  lemma CommittedOrBack(s: State, id: FiberID, c: int, stopping: bool)
    ensures After(With(s, id, CallAt(Rechecked(stopping), true, false, true, true, 0), c + 1), Steps(id, 3))
      == if stopping || s.draining
         then With(s, id, CallAt(Returned(StoppedDuringSpawn(true)), false, false, false, true, 1), c)
         else With(s, id, CallAt(Returned(Admitted), true, true, true, true, 0), c + 1)
  {
    hide After; hide Steps;
    var rechecked := CallAt(Rechecked(stopping), true, false, true, true, 0);
    if stopping || s.draining {
      var back, off := CallAt(RolledBack(true), false, false, true, true, 0),
        CallAt(Unscheduled(true), false, false, false, true, 0);
      var r := CallAt(Returned(StoppedDuringSpawn(true)), false, false, false, true, 1);
      OneStep(s, id, rechecked, c + 1, back, c + 1, 2);
      OneStep(s, id, back, c + 1, off, c + 1, 1);
      OneStep(s, id, off, c + 1, r, c, 0);
      ReturnedStays(s, id, r, c, 0);
    } else {
      var r := CallAt(Returned(Admitted), true, true, true, true, 0);
      OneStep(s, id, rechecked, c + 1, r, c + 1, 2);
      ReturnedStays(s, id, r, c + 1, 2);
    }
  }

  lemma UsedUpIsCount(s: State)
    requires Inv(s)
    ensures CapUsedUp(s) <==> s.maxFibers > 0 && s.count + 1 > s.maxFibers
  {
    CounterSplits(s);
    hide Inv; hide NonMain; hide CountedOnly; hide Owing;
  }

  lemma CallBegins(s: State, id: FiberID)
    requires id !in s.fibers && Some(id) != s.main
    ensures After(s, Steps(id, 11)) == After(With(s, id, NewCall(), s.count), Steps(id, 10))
  {
    assert Do(s, SpawnStep(id)) == With(s, id, NewCall(), s.count);
    hide Do; hide After;
    assert Steps(id, 11)[0] == SpawnStep(id) && Steps(id, 11)[1..] == Steps(id, 10);
    AfterFirst(s, Steps(id, 11));
  }

  lemma AnsweredEarly(s: State, id: FiberID)
    requires !MuHeld(s) && (!IsRunning(s) || CapUsedUp(s))
    requires CapUsedUp(s) <==> s.maxFibers > 0 && s.count + 1 > s.maxFibers
    ensures After(With(s, id, NewCall(), s.count), Steps(id, 10)) == With(s, id, Left(s), s.count)
    ensures !Answer(s).Admitted?
  {
    hide After; hide CapUsedUp; hide Steps; hide MuHeld; hide With; hide IsRunning;
    RefusedEarly(s, id, s.count);
  }

  lemma AnsweredLate(s: State, id: FiberID)
    requires !MuHeld(s) && IsRunning(s) && !CapUsedUp(s)
    requires CapUsedUp(s) <==> s.maxFibers > 0 && s.count + 1 > s.maxFibers
    ensures After(With(s, id, NewCall(), s.count), Steps(id, 10))
      == With(s, id, Left(s), s.count + if Answer(s).Admitted? then 1 else 0)
  {
    hide After; hide CapUsedUp; hide Steps; hide MuHeld; hide With;
    CountedAndInserted(s, id, s.count);
    if s.schedulerStopped {
      RefusedByScheduler(s, id, s.count);
    } else {
      RecheckedAfterSchedule(s, id, s.count);
      CommittedOrBack(s, id, s.count, s.runs[|s.runs| - 1].cancelled);
    }
  }

  lemma AnswersAlone(s: State, id: FiberID)
    requires Inv(s) && id !in s.fibers && Some(id) != s.main && !MuHeld(s)
    ensures After(s, Steps(id, 11)) == With(s, id, Left(s), s.count + if Answer(s).Admitted? then 1 else 0)
  {
    hide After; hide Inv; hide CapUsedUp; hide Steps; hide MuHeld; hide With; hide Left; hide Answer; hide IsRunning;
    UsedUpIsCount(s);
    CallBegins(s, id);
    if !IsRunning(s) || CapUsedUp(s) { AnsweredEarly(s, id); } else { AnsweredLate(s, id); }
  }

  /**
   In every state of every run in which rt.mu is not held by a Start: a Spawn that nobody interferes
   with is refused as not started, for the cap, by the scheduler or as stopping exactly when the
   state says so, and then leaves neither fiber nor count behind; otherwise it succeeds, with the
   fiber registered, committed, queued and on the counter.
   */
  lemma SpawnAloneAnswers(numWorkers: int, maxFibers: nat, main: FiberID, actions: seq<Action>, id: FiberID)
    requires var s := After(Init(numWorkers, maxFibers, main), actions);
      id !in s.fibers && Some(id) != s.main && !MuHeld(s)
    ensures var s := After(Init(numWorkers, maxFibers, main), actions);
      After(s, Steps(id, 11)) == With(s, id, Left(s), s.count + if Answer(s).Admitted? then 1 else 0)
  {
    Reachable(numWorkers, maxFibers, main, actions);
    hide Inv; hide After; hide With; hide Left; hide MuHeld;
    AnswersAlone(After(Init(numWorkers, maxFibers, main), actions), id);
  }
}
