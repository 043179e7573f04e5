/**
 The deadlock detector of internal/runtime/deadlock.go: its no-progress test, its episodes
 and its bounded history.  Time is an integer that never decreases.
 */
module Detector {
  import opened Fibers

  const MAX_HISTORY: nat := 100

  datatype Info = Detected(at: int, blocked: nat) | Resolved(at: int)

  /** How many fibers other than the main one a scan finds in each state. */
  datatype Scan = Scan(blocked: nat, ready: nat, running: nat)

  datatype Snapshot = Snapshot(id: FiberID, state: FiberState)

  /** The number of fibers in `state`, the main fiber left out. */
  function Count(fibers: seq<Snapshot>, main: nat, state: FiberState): nat {
    if fibers == [] then 0
    else
      var last := fibers[|fibers| - 1];
      Count(fibers[..|fibers| - 1], main, state) + (if last.id != main && last.state == state then 1 else 0)
  }

  /** Nothing can advance: no fiber runs, some are blocked, and no ready one can get a slot. */
  predicate NoProgress(scan: Scan, numWorkers: nat) {
    scan.running == 0 && scan.blocked > 0 && (scan.ready == 0 || (numWorkers > 0 && scan.blocked >= numWorkers))
  }

  datatype State = State(
    lastProgress: int,
    active: bool,
    stored: seq<Info>,        // dd.deadlocks
    metric: nat,              // deadlocks counted
    ever: seq<Info>,          // history: every entry ever appended
    cleared: nat)             // history: length of `ever` at the last ClearDeadlocks

  datatype Op = Check(scan: Scan, numWorkers: nat, now: int, timeout: int) | ClearDeadlocks

  function Init(created: int): State { State(created, false, [], 0, [], 0) }

  function Trim(entries: seq<Info>): seq<Info> {
    if |entries| > MAX_HISTORY then entries[|entries| - MAX_HISTORY..] else entries
  }

  function Append(s: State, info: Info): State {
    s.(stored := Trim(s.stored + [info]), ever := s.ever + [info])
  }

  function Apply(s: State, op: Op): State {
    match op
    case ClearDeadlocks => s.(stored := [], active := false, cleared := |s.ever|)
    case Check(scan, numWorkers, now, timeout) =>
      var stuck := NoProgress(scan, numWorkers);
      var s0 := if stuck then s else s.(lastProgress := now);
      if stuck && now - s0.lastProgress >= timeout && !s.active then
        Append(s0, Detected(now, scan.blocked)).(active := true, metric := s.metric + 1)
      else if !stuck && s.active then
        Append(s0, Resolved(now)).(active := false)
      else s0
  }

  function After(s: State, ops: seq<Op>): State {
    if ops == [] then s else Apply(After(s, ops[..|ops| - 1]), ops[|ops| - 1])
  }

  /** Entries appended since the last ClearDeadlocks. */
  function Episode(s: State): seq<Info>
    requires s.cleared <= |s.ever|
  {
    s.ever[s.cleared..]
  }

  /** Detected, Resolved, Detected, ... */
  ghost predicate Alternates(entries: seq<Info>) {
    forall i :: 0 <= i < |entries| ==> (entries[i].Detected? <==> i % 2 == 0)
  }

  function Detections(entries: seq<Info>): nat {
    if entries == [] then 0
    else Detections(entries[..|entries| - 1]) + (if entries[|entries| - 1].Detected? then 1 else 0)
  }

  ghost predicate Inv(s: State) {
    && s.cleared <= |s.ever|
    && Alternates(Episode(s))
    && (s.active <==> |Episode(s)| % 2 == 1)
    && s.stored == Trim(Episode(s))
    && s.metric == Detections(s.ever)
  }

  lemma TrimPush(e: seq<Info>, info: Info)
    ensures Trim(Trim(e) + [info]) == Trim(e + [info])
  {
  }

  lemma AlternatesPush(e: seq<Info>, info: Info)
    requires Alternates(e) && (info.Detected? <==> |e| % 2 == 0)
    ensures Alternates(e + [info])
  {
  }

  lemma DetectionsPush(e: seq<Info>, info: Info)
    ensures Detections(e + [info]) == Detections(e) + if info.Detected? then 1 else 0
  {
    assert (e + [info])[..|e|] == e;
  }

  lemma AppendKeepsInv(s: State, info: Info)
    requires Inv(s) && (info.Detected? <==> !s.active)
    ensures Inv(Append(s, info).(active := !s.active, metric := s.metric + (if info.Detected? then 1 else 0)))
  {
    hide Trim; hide Alternates; hide Detections;
    var e := Episode(s);
    TrimPush(e, info);
    AlternatesPush(e, info);
    DetectionsPush(s.ever, info);
    assert (s.ever + [info])[s.cleared..] == e + [info];
  }

  lemma StepKeepsInv(s: State, op: Op)
    requires Inv(s)
    ensures Inv(Apply(s, op))
  {
    match op {
      case ClearDeadlocks => assert s.ever[|s.ever|..] == [];
      case Check(scan, numWorkers, now, timeout) =>
        var s0 := if NoProgress(scan, numWorkers) then s else s.(lastProgress := now);
        if !s.active { AppendKeepsInv(s0, Detected(now, scan.blocked)); } else { AppendKeepsInv(s0, Resolved(now)); }
    }
  }

  /**
   Over every sequence of scans and clears: since the last ClearDeadlocks the entries
   alternate, beginning with a detection; an episode is active exactly after a detection
   without its resolution; the stored list is the suffix of at most 100 of those entries;
   and the metric counts every detection ever made, cleared or not.
   */
  lemma EpisodesAlternate(created: int, ops: seq<Op>)
    ensures var s := After(Init(created), ops);
      && s.cleared <= |s.ever|
      && Alternates(Episode(s))
      && (s.active <==> |Episode(s)| % 2 == 1)
      && |s.stored| == (if |Episode(s)| <= 100 then |Episode(s)| else 100)
      && s.stored == Episode(s)[|Episode(s)| - |s.stored|..]
      && s.metric == Detections(s.ever)
  {
    RunKeepsInv(created, ops);
    hide After; hide Alternates; hide Detections;
  }

  lemma {:induction false} RunKeepsInv(created: int, ops: seq<Op>)
    ensures Inv(After(Init(created), ops))
  {
    hide Inv; hide Apply;
    if ops == [] {
      InitIsInv(created);
    } else {
      RunKeepsInv(created, ops[..|ops| - 1]);
      StepKeepsInv(After(Init(created), ops[..|ops| - 1]), ops[|ops| - 1]);
    }
  }

  lemma InitIsInv(created: int)
    ensures Inv(Init(created))
  {
  }

  /**
   ClearDeadlocks starts over: whatever scans follow, the detector stores, reports and remembers
   what a new one would that last saw progress at the same time, and the metric counts on.
   */
  lemma {:induction false} ClearStartsOver(s: State, ops: seq<Op>)
    ensures var cleared, fresh' := After(Apply(s, ClearDeadlocks), ops), After(Init(s.lastProgress), ops);
      && cleared.stored == fresh'.stored && cleared.active == fresh'.active
      && cleared.lastProgress == fresh'.lastProgress
      && cleared.metric == s.metric + fresh'.metric && cleared.ever == s.ever + fresh'.ever
  {
    if ops == [] {
      assert s.ever + [] == s.ever;
    } else {
      var front := ops[..|ops| - 1];
      ClearStartsOver(s, front);
      var c, f := After(Apply(s, ClearDeadlocks), front), After(Init(s.lastProgress), front);
      assert forall info :: s.ever + f.ever + [info] == s.ever + (f.ever + [info]);
    }
  }

  /** Scans are made after the detector was created, at times that never decrease. */
  ghost predicate InOrder(created: int, ops: seq<Op>) {
    && (forall i :: 0 <= i < |ops| && ops[i].Check? ==> created <= ops[i].now)
    && (forall i, j :: 0 <= i < j < |ops| && ops[i].Check? && ops[j].Check? ==> ops[i].now <= ops[j].now)
  }

  /** `lastProgress` is no earlier than any scan that saw progress. */
  lemma {:induction false} ProgressIsRemembered(created: int, ops: seq<Op>)
    requires InOrder(created, ops)
    ensures var s := After(Init(created), ops);
      && created <= s.lastProgress
      && (forall i :: 0 <= i < |ops| && ops[i].Check? && !NoProgress(ops[i].scan, ops[i].numWorkers) ==>
            ops[i].now <= s.lastProgress)
  {
    if ops != [] {
      var front := ops[..|ops| - 1];
      assert forall i :: 0 <= i < |front| ==> front[i] == ops[i];
      ProgressIsRemembered(created, front);
    }
  }

  /**
   Every detection follows at least `timeout` of scans without progress: when a scan appends
   a detection, the detector had existed for that long, and no scan of the last `timeout`
   saw progress.
   */
  lemma DetectionFollowsTimeout(created: int, ops: seq<Op>, op: Op)
    requires op.Check? && InOrder(created, ops + [op])
    requires var s := After(Init(created), ops); Apply(s, op).metric > s.metric
    ensures NoProgress(op.scan, op.numWorkers)
    ensures created <= op.now - op.timeout
    ensures forall i :: 0 <= i < |ops| && ops[i].Check? && ops[i].now > op.now - op.timeout ==>
              NoProgress(ops[i].scan, ops[i].numWorkers)
  {
    assert forall i :: 0 <= i < |ops| ==> (ops + [op])[i] == ops[i];
    ProgressIsRemembered(created, ops);
  }

  /** `lastProgress` is the time of the latest scan that saw progress, or of the detector's creation. */
  lemma {:induction false} ProgressIsLatest(created: int, ops: seq<Op>)
    ensures var s := After(Init(created), ops);
      s.lastProgress == created
      || exists i :: 0 <= i < |ops| && SawProgress(ops[i]) && ops[i].now == s.lastProgress
  {
    if ops != [] {
      var n := |ops| - 1;
      var front := ops[..n];
      var last := After(Init(created), front).lastProgress;
      ProgressIsLatest(created, front);
      if SawProgress(ops[n]) {
        assert After(Init(created), ops).lastProgress == ops[n].now;
      } else if i :| 0 <= i < |front| && SawProgress(front[i]) && front[i].now == last {
        assert ops[i] == front[i];
      }
    }
  }

  predicate SawProgress(op: Op) { op.Check? && !NoProgress(op.scan, op.numWorkers) }

  /** The detector has existed for `timeout`, and no scan of the last `timeout` saw progress. */
  ghost predicate QuietFor(created: int, ops: seq<Op>, now: int, timeout: int) {
    created <= now - timeout && forall i :: 0 <= i < |ops| && SawProgress(ops[i]) ==> ops[i].now <= now - timeout
  }

  lemma QuietIsLastProgress(created: int, ops: seq<Op>, now: int, timeout: int)
    requires InOrder(created, ops)
    ensures QuietFor(created, ops, now, timeout) <==> now - After(Init(created), ops).lastProgress >= timeout
  {
    ProgressIsRemembered(created, ops);
    ProgressIsLatest(created, ops);
    hide After;
  }

  /** Since the last clear a detection has been made and not been resolved. */
  ghost predicate Unresolved(s: State)
    requires s.cleared <= |s.ever|
  {
    Episode(s) != [] && Episode(s)[|Episode(s)| - 1].Detected?
  }

  lemma UnresolvedIsActive(s: State)
    requires Inv(s)
    ensures Unresolved(s) <==> s.active
  {
    hide Trim; hide Detections;
  }

  /**
   When the detector speaks, exactly, over every sequence of scans and clears.  A scan adds a
   detection if and only if it meets the no-progress test, the detector and every scan that saw
   progress are at least `timeout` old, and no detection since the last clear is unresolved.  It
   adds a resolution if and only if it sees progress after an unresolved detection.  Otherwise it
   adds nothing.  The metric rises with detections only.
   */
  lemma DetectsIff(created: int, ops: seq<Op>, op: Op)
    requires op.Check? && InOrder(created, ops + [op])
    ensures var s := After(Init(created), ops); s.cleared <= |s.ever|
    ensures var s := After(Init(created), ops);
      var s', stuck := Apply(s, op), NoProgress(op.scan, op.numWorkers);
      var detects := stuck && QuietFor(created, ops, op.now, op.timeout) && !Unresolved(s);
      var resolves := !stuck && Unresolved(s);
      && s'.ever == s.ever + (if detects then [Detected(op.now, op.scan.blocked)]
                              else if resolves then [Resolved(op.now)] else [])
      && s'.metric == s.metric + (if detects then 1 else 0)
      && s'.cleared == s.cleared
  {
    assert forall i :: 0 <= i < |ops| ==> (ops + [op])[i] == ops[i];
    RunKeepsInv(created, ops);
    QuietIsLastProgress(created, ops, op.now, op.timeout);
    UnresolvedIsActive(After(Init(created), ops));
    hide After; hide Unresolved; hide QuietFor; hide InOrder; hide Trim;
  }

  /** The detector object. */
  class DeadlockDetector {
    var timeout: int
    var lastProgress: int
    var deadlockActive: bool
    var deadlocks: seq<Info>
    var deadlocksDetected: nat
    ghost var ever: seq<Info>
    ghost var cleared: nat

    ghost function View(): State reads this {
      State(lastProgress, deadlockActive, deadlocks, deadlocksDetected, ever, cleared)
    }

    constructor (now: int, timeout: int)
      ensures View() == Init(now) && this.timeout == timeout
    {
      this.timeout, lastProgress := timeout, now;
      deadlockActive, deadlocks, deadlocksDetected, ever, cleared := false, [], 0, [], 0;
    }

    /** The counting loop of a scan. */
    static method CountStates(fibers: seq<Snapshot>, main: nat) returns (scan: Scan)
      ensures scan == Scan(Count(fibers, main, Blocked), Count(fibers, main, Ready), Count(fibers, main, Running))
    {
      var blocked, ready, running := 0, 0, 0;
      for i := 0 to |fibers|
        invariant blocked == Count(fibers[..i], main, Blocked)
        invariant ready == Count(fibers[..i], main, Ready)
        invariant running == Count(fibers[..i], main, Running)
      {
        assert fibers[..i + 1][..i] == fibers[..i];
        if fibers[i].id != main {
          match fibers[i].state
          case Blocked => blocked := blocked + 1;
          case Running => running := running + 1;
          case Ready => ready := ready + 1;
          case _ =>
        }
      }
      assert fibers[..|fibers|] == fibers;
      return Scan(blocked, ready, running);
    }

    /** One scan; a runtime that is not running is not looked at. */
    method CheckForDeadlock(isRunning: bool, fibers: seq<Snapshot>, main: nat, numWorkers: nat, now: int)
      modifies this
      ensures timeout == old(timeout) && (!isRunning ==> View() == old(View()))
      ensures var scan := Scan(Count(fibers, main, Blocked), Count(fibers, main, Ready), Count(fibers, main, Running));
        isRunning ==>
          && View() == Apply(old(View()), Check(scan, numWorkers, now, timeout))
          && (deadlockActive <==>
                NoProgress(scan, numWorkers) && (old(deadlockActive) || now - old(lastProgress) >= timeout))
    {
      if !isRunning { return; }
      var scan := CountStates(fibers, main);
      var slotsAllBlocked := numWorkers > 0 && scan.blocked >= numWorkers;
      var noRunnable := scan.running == 0 && scan.blocked > 0 && (scan.ready == 0 || slotsAllBlocked);
      if !noRunnable { lastProgress := now; }
      var deadlocked := noRunnable && now - lastProgress >= timeout;
      if deadlocked && !deadlockActive {
        deadlockActive := true;
        deadlocksDetected := deadlocksDetected + 1;
        Record(Detected(now, scan.blocked));
      } else if !noRunnable && deadlockActive {
        deadlockActive := false;
        lastProgress := now;
        Record(Resolved(now));
      }
    }

    method Record(info: Info)
      modifies this
      ensures View() == Append(old(View()), info) && timeout == old(timeout)
    {
      deadlocks := deadlocks + [info];
      if |deadlocks| > MAX_HISTORY { deadlocks := deadlocks[|deadlocks| - MAX_HISTORY..]; }
      ever := ever + [info];
    }

    method ClearDeadlocks()
      modifies this
      ensures View() == Apply(old(View()), Op.ClearDeadlocks) && timeout == old(timeout)
    {
      deadlocks, deadlockActive, cleared := [], false, |ever|;
    }
  }
}
