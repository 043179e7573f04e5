/**
 What the detector's no-progress test (internal/runtime/deadlock.go) is worth: what a scan of
 the fiber map says about the fibers that can still move, for both halves of the test.
 */
module RuntimeProgress {
  import opened Fibers
  import opened Registries
  import opened Sequences
  import opened Runtime
  import opened RuntimeInvariant
  import opened RuntimeTheorems
  import opened RuntimeSlots
  import opened RuntimeRest
  import Detector

  // ---- The scan ----

  /** What a scan of the fiber map finds in `state`, the main fiber left out. */
  function InState(s: State, state: FiberState): set<FiberID> {
    set id | id in s.fibers && s.fibers[id].registered && s.fibers[id].fiber.state == state
  }

  function ScanOf(s: State): Detector.Scan {
    Detector.Scan(|InState(s, Blocked)|, |InState(s, Ready)|, |InState(s, FiberState.Running)|)
  }

  /** A snapshot of the fiber map, in any order. */
  ghost predicate SnapshotOf(fibers: seq<Detector.Snapshot>, s: State) {
    && (forall i, j :: 0 <= i < j < |fibers| ==> fibers[i].id != fibers[j].id)
    && (forall i :: 0 <= i < |fibers| ==>
          Some(fibers[i].id) == s.main
          || (fibers[i].id in NonMain(s) && fibers[i].state == s.fibers[fibers[i].id].fiber.state))
    && (forall id :: id in NonMain(s) ==> exists i :: 0 <= i < |fibers| && fibers[i].id == id)
  }

  function Found(fibers: seq<Detector.Snapshot>, main: FiberID, state: FiberState): set<FiberID> {
    if fibers == [] then {}
    else
      var last := fibers[|fibers| - 1];
      Found(fibers[..|fibers| - 1], main, state) + if last.id != main && last.state == state then {last.id} else {}
  }

  lemma {:induction false} FoundIs(fibers: seq<Detector.Snapshot>, main: FiberID, state: FiberState, id: FiberID)
    ensures id in Found(fibers, main, state) <==>
      exists i :: 0 <= i < |fibers| && fibers[i].id == id && id != main && fibers[i].state == state
    decreases |fibers|
  {
    if fibers != [] {
      var n := |fibers| - 1;
      var front := fibers[..n];
      FoundIs(front, main, state, id);
      if i :| 0 <= i < |fibers| && fibers[i].id == id && id != main && fibers[i].state == state {
        assert i < n ==> front[i] == fibers[i];
      }
      if i :| 0 <= i < |front| && front[i].id == id && id != main && front[i].state == state {
        assert fibers[i] == front[i];
      }
    }
  }

  lemma {:induction false} CountIsSize(fibers: seq<Detector.Snapshot>, main: FiberID, state: FiberState)
    requires forall i, j :: 0 <= i < j < |fibers| ==> fibers[i].id != fibers[j].id
    ensures Detector.Count(fibers, main, state) == |Found(fibers, main, state)|
    decreases |fibers|
  {
    if fibers != [] {
      var n := |fibers| - 1;
      CountIsSize(fibers[..n], main, state);
      FoundIs(fibers[..n], main, state, fibers[n].id);
    }
  }

  lemma FoundIsInState(s: State, fibers: seq<Detector.Snapshot>, main: FiberID, state: FiberState, id: FiberID)
    requires s.main == Some(main) && main !in s.fibers && SnapshotOf(fibers, s)
    ensures id in Found(fibers, main, state) <==> id in InState(s, state)
  {
    FoundIs(fibers, main, state, id);
    if id in InState(s, state) {
      assert id in NonMain(s);
      var i :| 0 <= i < |fibers| && fibers[i].id == id;
      assert fibers[i].state == state;
    }
  }

  /** The counting loop over a snapshot finds what the fiber map holds. */
  lemma CountIsScan(s: State, fibers: seq<Detector.Snapshot>, state: FiberState)
    requires Inv(s) && s.main.Some? && SnapshotOf(fibers, s)
    ensures Detector.Count(fibers, s.main.value, state) == |InState(s, state)|
  {
    var main := s.main.value;
    assert main !in s.fibers;
    CountIsSize(fibers, main, state);
    hide Inv; hide SnapshotOf; hide Found; hide InState;
    forall id: FiberID ensures id in Found(fibers, main, state) <==> id in InState(s, state) {
      FoundIsInState(s, fibers, main, state, id);
    }
    assert Found(fibers, main, state) == InState(s, state);
  }

  // ---- The test ----

  /** No fiber that the scan does not see can get to move; such a fiber is one of a rolled-back Spawn. */
  ghost predicate NothingHidden(s: State) {
    forall id :: id in s.fibers && !s.fibers[id].registered ==> !Stirs(s, id)
  }

  lemma RegisteredIsSeen(r: Rec, h: Hold, p: Phase)
    requires RecOk(r, h, p) && r.registered && r.fiber.state != Ready && r.fiber.state != FiberState.Running
    ensures !Moves(r) && h.Loose? && !r.queued
  {
  }

  /** With no fiber ready or running in the scan, only hidden ones can stir. */
  lemma OnlyHiddenStir(s: State)
    requires Inv(s) && InState(s, Ready) == {} && InState(s, FiberState.Running) == {}
    ensures NothingStirs(s) <==> NothingHidden(s)
  {
    forall id | id in s.fibers && s.fibers[id].registered ensures !Stirs(s, id) {
      var r := s.fibers[id];
      assert RecOk(r, HoldOf(s.loop, id), PhaseOf(s));
      assert id !in InState(s, Ready) && id !in InState(s, FiberState.Running);
      RegisteredIsSeen(r, HoldOf(s.loop, id), PhaseOf(s));
    }
    hide Inv; hide Stirs;
  }

  lemma UnmovedRest(s: State, s': State)
    requires Unmoved(s, s')
    ensures FunctionsRest(s, s')
  {
  }

  /** Every slot held by a blocked fiber of the run: nothing moves. */
  lemma ExhaustedRests(s: State)
    requires Inv(s) && |s.runs| > 0 && NoStaleFibers(s) && |InState(s, Blocked)| >= s.numWorkers
    ensures RestsForever(s)
  {
    assert InState(s, Blocked) == BlockedScan(s);
    ScanFreezes(s);
    hide Inv; hide Unmoved; hide FunctionsRest; hide Frozen; hide BlockedScan;
    forall later: seq<Action> | AllWithin(later) ensures FunctionsRest(s, After(s, later)) {
      StuckUntilOutsideHelp(s, BlockedScan(s), later);
      UnmovedRest(s, After(s, later));
    }
  }

  /**
   What the no-progress test is worth, in every reachable state of a running runtime that meets
   it.  With no ready fiber, no fiber enters, leaves or moves in its function in any continuation
   without a Spawn, a wake-up from outside or a new run, if and only if no fiber of a rolled-back
   Spawn stirs.  With all slots taken that is so without proviso, unless a fiber is left over
   from a Stop that timed out.  In any case it is so if and only if no fiber stirs.
   */
  lemma NoProgressIsReal(numWorkers: int, maxFibers: nat, main: FiberID, actions: seq<Action>)
    ensures var s := After(Init(numWorkers, maxFibers, main), actions);
      var scan := ScanOf(s);
      IsRunning(s) && Detector.NoProgress(scan, s.numWorkers) ==>
        && (scan.ready == 0 ==> (RestsForever(s) <==> NothingHidden(s)))
        && (scan.blocked >= s.numWorkers && NoStaleFibers(s) ==> RestsForever(s))
        && (RestsForever(s) <==> NothingStirs(s))
  {
    var s := After(Init(numWorkers, maxFibers, main), actions);
    ReachableIsSound(numWorkers, maxFibers, main, actions);
    hide Inv; hide RestsForever; hide NothingHidden; hide NothingStirs; hide NoStaleFibers; hide InState;
    RestsIff(s);
    if IsRunning(s) && Detector.NoProgress(ScanOf(s), s.numWorkers) {
      assert InState(s, FiberState.Running) == {};
      if ScanOf(s).ready == 0 {
        assert InState(s, Ready) == {};
        OnlyHiddenStir(s);
      }
      if ScanOf(s).blocked >= s.numWorkers && NoStaleFibers(s) { ExhaustedRests(s); }
    }
  }
}
