/**
 Whether a Next of the WorkStealingScheduler (internal/scheduler/workstealing.go) that fails
 while others call it means that there was nothing to run: exactly with one worker.
 */
module HonestFailure {
  import opened Fibers
  import opened Sequences
  import opened WorkStealing
  import opened ConcurrentStealing
  import BoundedWait

  // ---- When a failure means that there was no work ----

  /** No queue holds an unfinished fiber. */
  ghost predicate NoWork(s: State) {
    forall v, g :: 0 <= v < |s.queues| && g in s.queues[v] ==> g in s.finished
  }

  /** The last step of the run is the one by which the call fails. */
  ghost predicate FailsLast(w: nat, ops: seq<Op>, c: nat) {
    && ops != [] && c in After(New(w), ops).calls && Failed(After(New(w), ops).calls[c])
    && !(var s := After(New(w), ops[..|ops| - 1]); c in s.calls && Failed(s.calls[c]))
  }

  /** At some moment of the call there was no work. */
  ghost predicate SawNoWork(w: nat, ops: seq<Op>, c: nat) {
    exists n :: 0 <= n <= |ops| && c in After(New(w), ops[..n]).calls && NoWork(After(New(w), ops[..n]))
  }

  /** In every run with `w` workers a Next call fails only if at some moment of it there was no work. */
  ghost predicate Honest(w: nat) { forall ops, c :: FailsLast(w, ops, c) ==> SawNoWork(w, ops, c) }

  lemma LastQueueIsEmpty(s: State, op: Op, c: nat)
    requires c in Apply(s, op).calls && Failed(Apply(s, op).calls[c]) && !(c in s.calls && Failed(s.calls[c]))
    requires c in s.calls ==> CallOk(s.calls[c], |s.queues|)
    requires |s.queues| == 1
    ensures NoWork(Apply(s, op))
  {
    SameWorkers(s, op);
    if c in s.calls {
      CallGoesOn(s, op, c);
    } else {
      BeginsOk(s, op, c);
    }
    hide Apply;
  }

  lemma OneWorkerIsHonest(w: nat, ops: seq<Op>, c: nat)
    requires w <= 1 && FailsLast(w, ops, c)
    ensures SawNoWork(w, ops, c)
  {
    var n := |ops| - 1;
    hide Apply;
    WorkersStay(New(w), ops);
    WorkersStay(New(w), ops[..n]);
    RunCameLater(New(w), ops[..n], c);
    if w == 1 { LastQueueIsEmpty(After(New(w), ops[..n]), ops[n], c); }
    assert ops[..|ops|] == ops;
    assert NoWork(After(New(w), ops[..|ops|]));
  }

  // ---- Two callers and two fibers, with two workers or more ----

  /** Queues of `w` workers, all but the first two empty. */
  function Two(w: nat, a: seq<FiberID>, b: seq<FiberID>): (qs: seq<seq<FiberID>>)
    ensures |qs| == w && forall v :: 0 <= v < w ==> qs[v] == if v == 0 then a else if v == 1 then b else []
  {
    seq(w, v => if v == 0 then a else if v == 1 then b else [])
  }

  lemma TwoSet(w: nat, a: seq<FiberID>, b: seq<FiberID>, q: seq<FiberID>)
    requires w >= 2
    ensures Two(w, a, b)[0 := q] == Two(w, q, b) && Two(w, a, b)[1 := q] == Two(w, a, q)
  {
  }

  function Rounds(h: nat, w: nat): seq<nat>
    requires h < w
  {
    [h] + BoundedWait.Others(h, w)
  }

  /** One call looks at worker 0; fiber 2 is put there; another call takes fiber 1 from worker 1. */
  function Crossing(w: nat): seq<Op>
    requires w >= 2
  {
    [Append(1, 1), Begin(0, BoundedWait.Others(0, w)), Visit(0),
     Append(0, 2), Begin(1, BoundedWait.Others(1, w)), Visit(1)]
  }

  /** The state, whatever the histories. */
  ghost predicate Stands(s: State, qs: seq<seq<FiberID>>, next: nat, calls: map<nat, NextCall>) {
    s.queues == qs && s.next == next && s.finished == {} && s.calls == calls
  }

  lemma CrossingStep(w: nat, n: nat)
    requires w >= 2 && n < 6
    ensures After(New(w), Crossing(w)[..n + 1]) == Apply(After(New(w), Crossing(w)[..n]), Crossing(w)[n])
  {
    assert Crossing(w)[..n + 1][..n] == Crossing(w)[..n];
    hide Apply;
  }

  lemma NothingFinished(q: seq<FiberID>)
    ensures Live(q, {}) == q
  {
  }

  lemma AppendAlone(s: State, v: nat, g: FiberID)
    requires v < |s.queues| && s.queues[v] == []
    ensures var t := Apply(s, Append(v, g));
      t.queues == s.queues[v := [g]] && t.next == s.next && t.finished == s.finished && t.calls == s.calls
  {
    assert s.queues[v] + [g] == [g];
  }

  lemma BeginCall(s: State, c: nat, h: nat, w: nat)
    requires c !in s.calls && |s.queues| == w && h < w && Home(s.next, w) == h && s.next + 1 < WORD
    ensures var t := Apply(s, Begin(c, BoundedWait.Others(h, w)));
      t.queues == s.queues && t.next == s.next + 1 && t.finished == s.finished
      && t.calls == s.calls[c := NextCall(Rounds(h, w), 0, None)]
  {
    BoundedWait.OthersAreShuffle(h, w);
  }

  /** A visit of an empty queue. */
  lemma VisitEmpty(s: State, c: nat)
    requires c in s.calls && s.calls[c].got.None? && s.calls[c].at < |s.calls[c].order|
    requires var v := s.calls[c].order[s.calls[c].at]; v < |s.queues| && s.queues[v] == []
    ensures var t := Apply(s, Visit(c));
      t.queues == s.queues && t.next == s.next && t.finished == s.finished
      && t.calls == s.calls[c := s.calls[c].(at := s.calls[c].at + 1)]
  {
    var v := s.calls[c].order[s.calls[c].at];
    assert s.queues[v := []] == s.queues;
    assert Live([], s.finished) == [];
    hide Live; hide Discarded;
  }

  /** A visit at home of a queue with one fiber. */
  lemma VisitOnly(s: State, c: nat, v: nat, g: FiberID)
    requires c in s.calls && s.calls[c].got.None? && s.calls[c].at == 0 < |s.calls[c].order| && s.calls[c].order[0] == v
    requires v < |s.queues| && s.queues[v] == [g] && s.finished == {}
    ensures var t := Apply(s, Visit(c));
      t.queues == s.queues[v := []] && t.next == s.next && t.finished == {}
      && t.calls == s.calls[c := s.calls[c].(got := Some(g))]
  {
    NothingFinished([g]);
    hide Live; hide Discarded;
    assert [g][1..] == [];
  }

  function Looking(w: nat, at: nat): NextCall
    requires w >= 2
  {
    NextCall(Rounds(0, w), at, None)
  }

  lemma SmallHomes(w: nat)
    requires w >= 2
    ensures Home(0, w) == 0 && Home(1, w) == 1
  {
  }

  lemma CrossingFirst(w: nat)
    requires w >= 2
    ensures Stands(After(New(w), Crossing(w)[..2]), Two(w, [], [1]), 1, map[0 := Looking(w, 0)])
    ensures Stands(After(New(w), Crossing(w)[..3]), Two(w, [], [1]), 1, map[0 := Looking(w, 1)])
  {
    hide After; hide Apply; hide Home; hide Live;
    SmallHomes(w);
    NothingYet(w);
    CrossingStep(w, 0);
    AppendAlone(New(w), 1, 1);
    TwoSet(w, [], [], [1]);
    CrossingStep(w, 1);
    var s1 := After(New(w), Crossing(w)[..1]);
    BeginCall(s1, 0, 0, w);
    assert s1.calls[0 := Looking(w, 0)] == map[0 := Looking(w, 0)];
    CrossingStep(w, 2);
    var s2 := After(New(w), Crossing(w)[..2]);
    VisitEmpty(s2, 0);
    assert s2.calls[0 := Looking(w, 1)] == map[0 := Looking(w, 1)];
  }

  lemma NothingYet(w: nat)
    requires w >= 2
    ensures After(New(w), Crossing(w)[..0]) == New(w) && New(w).queues == Two(w, [], [])
  {
    assert Crossing(w)[..0] == [];
  }

  lemma CrossingNext(w: nat)
    requires w >= 2
    ensures Stands(After(New(w), Crossing(w)[..4]), Two(w, [2], [1]), 1, map[0 := Looking(w, 1)])
    ensures Stands(After(New(w), Crossing(w)[..5]), Two(w, [2], [1]), 2,
                   map[0 := Looking(w, 1), 1 := NextCall(Rounds(1, w), 0, None)])
  {
    hide After; hide Apply; hide Home; hide Live; hide Rounds;
    SmallHomes(w);
    CrossingFirst(w);
    CrossingStep(w, 3);
    AppendAlone(After(New(w), Crossing(w)[..3]), 0, 2);
    TwoSet(w, [], [1], [2]);
    CrossingStep(w, 4);
    var s4 := After(New(w), Crossing(w)[..4]);
    BeginCall(s4, 1, 1, w);
    assert s4.calls[1 := NextCall(Rounds(1, w), 0, None)]
      == map[0 := Looking(w, 1), 1 := NextCall(Rounds(1, w), 0, None)];
  }

  /** Both calls, the first having looked at the workers below `at`. */
  function BothCalls(w: nat, at: nat): map<nat, NextCall>
    requires w >= 2
  {
    map[0 := Looking(w, at), 1 := NextCall(Rounds(1, w), 0, Some(1))]
  }

  lemma CrossingTakes(w: nat)
    requires w >= 2
    ensures Stands(After(New(w), Crossing(w)), Two(w, [2], []), 2, BothCalls(w, 1))
  {
    hide After; hide Apply; hide Home; hide Live;
    CrossingNext(w);
    CrossingStep(w, 5);
    var s5 := After(New(w), Crossing(w)[..5]);
    VisitOnly(s5, 1, 1, 1);
    TwoSet(w, [2], [1], []);
    assert s5.calls[1 := NextCall(Rounds(1, w), 0, Some(1))] == BothCalls(w, 1);
    assert Crossing(w)[..6] == Crossing(w);
  }

  lemma LooksOne(w: nat, s: State, n: nat)
    requires w >= 2 && 0 < n < w && Stands(s, Two(w, [2], []), 2, BothCalls(w, n))
    ensures Stands(Apply(s, Visit(0)), Two(w, [2], []), 2, BothCalls(w, n + 1))
  {
    hide Apply; hide Live;
    assert Rounds(0, w)[n] == n && |Rounds(0, w)| == w;
    hide Rounds;
    assert Two(w, [2], [])[n] == [];
    VisitEmpty(s, 0);
    assert s.calls[0 := Looking(w, n + 1)] == BothCalls(w, n + 1);
  }

  /** The first call finds the other workers empty one after the other. */
  lemma {:induction false} LooksOn(w: nat, s: State, n: nat)
    requires w >= 2 && n < w && Stands(s, Two(w, [2], []), 2, BothCalls(w, 1))
    ensures Stands(After(s, Visits(0, n)), Two(w, [2], []), 2, BothCalls(w, n + 1))
    decreases n
  {
    hide After; hide Apply; hide Stands; hide Two; hide BothCalls; hide Visits;
    if n == 0 {
      NobodyLeft(s, 0);
    } else {
      LooksOn(w, s, n - 1);
      AfterVisits(s, 0, n - 1);
      LooksOne(w, After(s, Visits(0, n - 1)), n);
    }
  }

  function Whole(w: nat): (ops: seq<Op>)
    requires w >= 2
    ensures |ops| == 6 + w - 1
  {
    Crossing(w) + Visits(0, w - 1)
  }

  lemma WholeLater(w: nat, n: nat)
    requires w >= 2 && n <= w - 1
    ensures Stands(After(New(w), Whole(w)[..6 + n]), Two(w, [2], []), 2, BothCalls(w, n + 1))
  {
    assert Whole(w)[..6 + n] == Crossing(w) + Visits(0, n);
    hide Apply;
    AfterConcat(New(w), Crossing(w), Visits(0, n));
    CrossingTakes(w);
    LooksOn(w, After(New(w), Crossing(w)), n);
  }

  lemma WholeEarly(w: nat, n: nat)
    requires w >= 2 && n < 6
    ensures Whole(w)[..n] == Crossing(w)[..n]
  {
  }

  lemma WorkThere(s: State, v: nat, g: FiberID)
    requires v < |s.queues| && g in s.queues[v] && g !in s.finished
    ensures !NoWork(s)
  {
  }

  lemma WorkInTwo(s: State, w: nat, a: seq<FiberID>, b: seq<FiberID>, next: nat, calls: map<nat, NextCall>)
    requires w >= 2 && Stands(s, Two(w, a, b), next, calls) && (a == [2] || b == [1])
    ensures !NoWork(s)
  {
    hide NoWork;
    if a == [2] { WorkThere(s, 0, 2); } else { WorkThere(s, 1, 1); }
  }

  lemma WorkEarly(w: nat, n: nat)
    requires w >= 2 && n < 6
    ensures var s := After(New(w), Crossing(w)[..n]); 0 in s.calls ==> !NoWork(s)
  {
    var s := After(New(w), Crossing(w)[..n]);
    hide After; hide Apply; hide Crossing; hide Two; hide NoWork; hide Rounds;
    NotBegunYet(w);
    CrossingFirst(w);
    CrossingNext(w);
    if n == 2 { WorkInTwo(s, w, [], [1], 1, map[0 := Looking(w, 0)]); }
    if n == 3 { WorkInTwo(s, w, [], [1], 1, map[0 := Looking(w, 1)]); }
    if n == 4 { WorkInTwo(s, w, [2], [1], 1, map[0 := Looking(w, 1)]); }
    if n == 5 { WorkInTwo(s, w, [2], [1], 2, map[0 := Looking(w, 1), 1 := NextCall(Rounds(1, w), 0, None)]); }
  }

  /** The call has not begun, or there is work. */
  lemma WorkThroughout(w: nat, n: nat)
    requires w >= 2 && n <= 6 + w - 1
    ensures var s := After(New(w), Whole(w)[..n]); 0 in s.calls ==> !NoWork(s)
  {
    hide After; hide Apply; hide Whole; hide Crossing; hide NoWork; hide Two; hide BothCalls; hide Stands;
    if n >= 6 {
      WholeLater(w, n - 6);
      WorkInTwo(After(New(w), Whole(w)[..n]), w, [2], [], 2, BothCalls(w, n - 5));
    } else {
      WholeEarly(w, n);
      WorkEarly(w, n);
    }
  }

  lemma NotBegunYet(w: nat)
    requires w >= 2
    ensures After(New(w), Crossing(w)[..0]).calls == map[] && After(New(w), Crossing(w)[..1]).calls == map[]
  {
    NothingYet(w);
    CrossingStep(w, 0);
    hide After;
  }

  lemma FirstFails(s: State, w: nat, at: nat)
    requires w >= 2 && Stands(s, Two(w, [2], []), 2, BothCalls(w, at))
    ensures 0 in s.calls && (Failed(s.calls[0]) <==> at == w)
  {
    assert |Rounds(0, w)| == w;
  }

  lemma FailsAtLast(w: nat)
    requires w >= 2
    ensures FailsLast(w, Whole(w), 0)
  {
    hide After; hide Whole; hide Crossing; hide Two; hide BothCalls; hide Stands; hide Failed;
    var n := 6 + w - 1;
    assert Whole(w)[..n] == Whole(w);
    WholeLater(w, w - 1);
    WholeLater(w, w - 2);
    FirstFails(After(New(w), Whole(w)[..n]), w, w);
    FirstFails(After(New(w), Whole(w)[..n - 1]), w, w - 1);
  }

  /** With two workers or more a call can fail although there was work at every moment of it. */
  lemma FailsWithWorkAround(w: nat)
    requires w >= 2
    ensures FailsLast(w, Whole(w), 0) && !SawNoWork(w, Whole(w), 0)
  {
    FailsAtLast(w);
    hide After; hide Apply; hide Whole; hide Crossing; hide FailsLast; hide NoWork;
    forall k | 0 <= k <= |Whole(w)| ensures var s := After(New(w), Whole(w)[..k]); 0 in s.calls ==> !NoWork(s) {
      WorkThroughout(w, k);
    }
  }

  /**
   With callers in parallel, a Next that fails has found no work at some moment of the call, in
   every run, if and only if there is just one worker.
   */
  lemma HonestIffOneWorker(w: nat)
    ensures Honest(w) <==> w <= 1
  {
    hide FailsLast; hide SawNoWork;
    if w <= 1 {
      forall ops, c | FailsLast(w, ops, c) ensures SawNoWork(w, ops, c) { OneWorkerIsHonest(w, ops, c); }
    } else {
      FailsWithWorkAround(w);
    }
  }
}
