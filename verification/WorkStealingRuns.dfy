/**
 Runs of the work-stealing scheduler: how a queued fiber moves up, for every sequence of calls
 and every shuffle, as long as the workers' turns come round.
 */
module WorkStealingRuns {
  import opened Fibers
  import opened Sequences
  import opened WorkStealing
  import opened RoundRobin

  datatype Op =
    | Schedule(g: FiberID)
    | Dispatch(finished: set<FiberID>, order: seq<nat>)
    | Remove(g: FiberID)
    | Complete(g: FiberID)

  /** A dispatch comes with a shuffle of the other workers. */
  ghost predicate OpOk(s: WS, op: Op) {
    Inv(s) && (op.Dispatch? ==> Shuffle(op.order, Home(s.next, |s.queues|), |s.queues|))
  }

  ghost function Apply(s: WS, op: Op): (r: (WS, Taken))
    requires OpOk(s, op)
    ensures Inv(r.0) && |r.0.queues| == |s.queues|
  {
    match op
    case Schedule(g) => (s.(queues := Put(s.queues, g)), None)
    case Dispatch(finished, order) => Next(s, finished, order)
    case Remove(g) => (s.(queues := Spliced(s.queues, g)), None)
    case Complete(g) => (s.(queues := Purged(s.queues, g)), None)
  }

  /** The op leaves fiber `f` alone: it is not removed, completed or finished. */
  predicate Spares(op: Op, f: FiberID) {
    match op
    case Schedule(_) => true
    case Dispatch(finished, _) => f !in finished
    case Remove(g) => g != f
    case Complete(g) => g != f
  }

  ghost predicate Run(ss: seq<WS>, ops: seq<Op>) {
    && |ss| == |ops| + 1
    && forall j :: 0 <= j < |ops| ==> OpOk(ss[j], ops[j]) && ss[j + 1] == Apply(ss[j], ops[j]).0
  }

  /** Fiber `f` stands at position `k` of queue `i`, or before it. */
  ghost predicate Stands(qs: seq<seq<FiberID>>, i: nat, k: int, f: FiberID) {
    i < |qs| && exists j :: 0 <= j <= k && j < |qs[i]| && qs[i][j] == f
  }

  /** Filtering keeps an unfinished fiber and never moves it back. */
  lemma {:induction false} LiveKeeps(q: seq<FiberID>, finished: set<FiberID>, k: nat) returns (j: nat)
    requires k < |q| && q[k] !in finished
    ensures j <= k && j < |Live(q, finished)| && Live(q, finished)[j] == q[k]
    decreases |q|
  {
    var n := |q| - 1;
    if k == n {
      j := |Live(q[..n], finished)|;
    } else {
      j := LiveKeeps(q[..n], finished, k);
    }
  }

  lemma FilterStands(qs: seq<seq<FiberID>>, finished: set<FiberID>, i: nat, k: int, f: FiberID) returns (j: nat)
    requires Stands(qs, i, k, f) && f !in finished
    ensures j <= k && j < |Live(qs[i], finished)| && Live(qs[i], finished)[j] == f
  {
    var p :| 0 <= p <= k && p < |qs[i]| && qs[i][p] == f;
    j := LiveKeeps(qs[i], finished, p);
  }

  lemma OtherKeepsPlace(qs: seq<seq<FiberID>>, v: nat, q: seq<FiberID>, i: nat, k: int, f: FiberID)
    requires Stands(qs, i, k, f) && v < |qs| && v != i
    ensures Stands(qs[v := q], i, k, f)
  {
    assert qs[v := q][i] == qs[i];
  }

  lemma {:induction false} StealKeepsPlace(qs: seq<seq<FiberID>>, finished: set<FiberID>, order: seq<nat>,
                                           i: nat, k: int, f: FiberID)
    requires forall j :: 0 <= j < |order| ==> order[j] < |qs|
    requires Stands(qs, i, k, f) && f !in finished
    ensures var (t, got) := Steal(qs, finished, order);
      got == Some(f) || Stands(t, i, k, f)
    decreases |order|
  {
    hide Live;
    if order != [] {
      var v, live := order[0], Live(qs[order[0]], finished);
      var j := FilterStands(qs, finished, i, k, f);
      if live == [] {
        OtherKeepsPlace(qs, v, [], i, k, f);
        StealKeepsPlace(qs[v := []], finished, order[1..], i, k, f);
      } else if v == i {
        var t := qs[v := live[..|live| - 1]];
        assert j < |live| - 1 ==> t[i][j] == f;
      } else {
        OtherKeepsPlace(qs, v, live[..|live| - 1], i, k, f);
      }
    }
  }

  /** The home worker's queue moves up; no other place gets worse. */
  lemma PickMovesUp(qs: seq<seq<FiberID>>, home: nat, finished: set<FiberID>, order: seq<nat>,
                    i: nat, k: int, f: FiberID)
    requires home < |qs| && forall j :: 0 <= j < |order| ==> order[j] < |qs|
    requires Stands(qs, i, k, f) && f !in finished
    ensures var (t, got) := Pick(qs, home, finished, order);
      got == Some(f) || Stands(t, i, if home == i then k - 1 else k, f)
  {
    hide Live;
    var live := Live(qs[home], finished);
    var j := FilterStands(qs, finished, i, k, f);
    if live == [] {
      OtherKeepsPlace(qs, home, [], i, k, f);
      StealKeepsPlace(qs[home := []], finished, order, i, k, f);
    } else if home == i {
      assert j > 0 ==> qs[home := live[1..]][i][j - 1] == f;
    } else {
      OtherKeepsPlace(qs, home, live[1..], i, k, f);
    }
  }

  /** Upper bound on the calls before the fiber at position `k` of queue `i` is returned. */
  function Potential(next: nat, i: nat, k: nat, w: nat): nat
    requires i < w
  {
    k * w + Distance(next, i, w)
  }

  lemma PotentialDrops(u: nat, i: nat, k: nat, w: nat)
    requires i < w && (Home(u, w) == i ==> 0 < k)
    ensures Potential(u + 1, i, if Home(u, w) == i then k - 1 else k, w) < Potential(u, i, k, w)
  {
    NextHome(u, w);
    hide Home;
    assert k * w == (k - 1) * w + w;
  }

  /** A dispatch that does not return the fiber lowers its bound; `u` counts turns from any start in step. */
  lemma DispatchLowersPotential(s: WS, finished: set<FiberID>, order: seq<nat>, i: nat, k: nat, f: FiberID, u: nat)
    returns (k': nat)
    requires OpOk(s, Dispatch(finished, order)) && Stands(s.queues, i, k, f) && f !in finished
    requires Home(s.next, |s.queues|) == Home(u, |s.queues|)
    requires Next(s, finished, order).1 != Some(f)
    ensures Stands(Next(s, finished, order).0.queues, i, k', f)
    ensures Potential(u + 1, i, k', |s.queues|) < Potential(u, i, k, |s.queues|)
  {
    var w := |s.queues|;
    PickMovesUp(s.queues, Home(s.next, w), finished, order, i, k, f);
    hide Home; hide Potential; hide Pick;
    k' := if Home(u, w) == i then k - 1 else k;
    PotentialDrops(u, i, k, w);
  }

  lemma PutKeepsPlace(qs: seq<seq<FiberID>>, g: FiberID, i: nat, k: int, f: FiberID)
    requires 0 < |qs| && Stands(qs, i, k, f)
    ensures Stands(Put(qs, g), i, k, f)
  {
    var j :| 0 <= j <= k && j < |qs[i]| && qs[i][j] == f;
    assert Put(qs, g)[i][j] == f;
  }

  lemma PurgeKeepsPlace(qs: seq<seq<FiberID>>, g: FiberID, i: nat, k: int, f: FiberID)
    requires Stands(qs, i, k, f) && f != g
    ensures Stands(Purged(qs, g), i, k, f)
  {
    var j := FilterStands(qs, {g}, i, k, f);
    assert Purged(qs, g)[i][j] == f;
  }

  lemma RemoveKeepsPlace(qs: seq<seq<FiberID>>, g: FiberID, i: nat, k: int, f: FiberID)
    requires Stands(qs, i, k, f) && f != g
    ensures Stands(Spliced(qs, g), i, k, f)
  {
    var j :| 0 <= j <= k && j < |qs[i]| && qs[i][j] == f;
    var v := Holder(qs, g);
    if v == i {
      var p := Position(qs[v], g);
      assert Spliced(qs, g)[i][if j < p then j else j - 1] == f;
    }
  }

  /** Dispatches among the first `n` ops. */
  function Dispatches(ops: seq<Op>, n: nat): nat
    requires n <= |ops|
  {
    if n == 0 then 0 else Dispatches(ops, n - 1) + if ops[n - 1].Dispatch? then 1 else 0
  }

  ghost predicate Returned(ss: seq<WS>, ops: seq<Op>, j: nat, f: FiberID)
    requires Run(ss, ops) && j < |ops|
  {
    ops[j].Dispatch? && Apply(ss[j], ops[j]).1 == Some(f)
  }

  lemma {:induction false} WidthStays(ss: seq<WS>, ops: seq<Op>, n: nat)
    requires Run(ss, ops) && n <= |ops|
    ensures |ss[n].queues| == |ss[0].queues|
  {
    if n > 0 { WidthStays(ss, ops, n - 1); }
  }

  lemma OpCounts(s: WS, op: Op)
    requires OpOk(s, op)
    ensures Apply(s, op).0.next == if op.Dispatch? then (s.next + 1) % WORD else s.next
  {
  }

  lemma ModNext(x: nat)
    ensures (x % WORD + 1) % WORD == (x + 1) % WORD
  {
  }

  /** The counter counts dispatches, modulo its width. */
  lemma {:induction false} CounterCounts(ss: seq<WS>, ops: seq<Op>, n: nat)
    requires Run(ss, ops) && n <= |ops| && ss[0].next < WORD
    ensures ss[n].next == (ss[0].next + Dispatches(ops, n)) % WORD
  {
    hide Apply; hide OpOk;
    if n > 0 {
      CounterCounts(ss, ops, n - 1);
      OpCounts(ss[n - 1], ops[n - 1]);
      ModNext(ss[0].next + Dispatches(ops, n - 1));
    }
  }

  /** One op of the run, for a fiber that it does not return. */
  lemma OpKeepsPotential(ss: seq<WS>, ops: seq<Op>, f: FiberID, i: nat, k: nat, j: nat, u: nat) returns (k': nat)
    requires Run(ss, ops) && j < |ops| && Stands(ss[j].queues, i, k, f)
    requires Spares(ops[j], f) && !Returned(ss, ops, j, f)
    requires ops[j].Dispatch? ==> Home(ss[j].next, |ss[j].queues|) == Home(u, |ss[j].queues|)
    ensures var w, d := |ss[j].queues|, if ops[j].Dispatch? then 1 else 0;
      Stands(ss[j + 1].queues, i, k', f) && Potential(u + d, i, k', w) + d <= Potential(u, i, k, w)
  {
    k' := k;
    match ops[j]
    case Schedule(g) => PutKeepsPlace(ss[j].queues, g, i, k, f);
    case Dispatch(finished, order) => k' := DispatchLowersPotential(ss[j], finished, order, i, k, f, u);
    case Remove(g) => RemoveKeepsPlace(ss[j].queues, g, i, k, f);
    case Complete(g) => PurgeKeepsPlace(ss[j].queues, g, i, k, f);
  }

  /** Dispatches from op `from` to op `n`. */
  function Since(ops: seq<Op>, from: nat, n: nat): nat
    requires from <= n <= |ops|
  {
    if n == from then 0 else Since(ops, from, n - 1) + if ops[n - 1].Dispatch? then 1 else 0
  }

  lemma {:induction false} SinceIs(ops: seq<Op>, from: nat, n: nat)
    requires from <= n <= |ops|
    ensures Since(ops, from, n) == Dispatches(ops, n) - Dispatches(ops, from)
  {
    if from < n { SinceIs(ops, from, n - 1); }
  }

  /** From op `from` to op `n` the turns go as if the counter were at `u` and never wrapped. */
  ghost predicate InStep(ss: seq<WS>, ops: seq<Op>, from: nat, n: nat, u: nat, w: nat)
    requires Run(ss, ops) && from <= n <= |ops| && 0 < w
  {
    forall j :: from <= j < n && ops[j].Dispatch? ==> Home(ss[j].next, w) == Home(u + Since(ops, from, j), w)
  }

  ghost predicate NotReturned(ss: seq<WS>, ops: seq<Op>, n: nat, f: FiberID)
    requires Run(ss, ops) && n <= |ops|
  {
    forall j :: 0 <= j < n ==> Spares(ops[j], f) && !Returned(ss, ops, j, f)
  }

  lemma {:induction false} RunKeepsPotential(ss: seq<WS>, ops: seq<Op>, f: FiberID, i: nat, k: nat,
                                             from: nat, n: nat, u: nat)
    returns (k': nat)
    requires Run(ss, ops) && from <= n <= |ops| && NotReturned(ss, ops, n, f)
    requires Stands(ss[from].queues, i, k, f) && InStep(ss, ops, from, n, u, |ss[from].queues|)
    ensures var w, d := |ss[from].queues|, Since(ops, from, n);
      && |ss[n].queues| == w && Stands(ss[n].queues, i, k', f)
      && Potential(u + d, i, k', w) + d <= Potential(u, i, k, w)
    decreases n
  {
    hide Home; hide Potential; hide Stands; hide Apply; hide OpOk; hide Spares;
    k' := k;
    if from < n {
      var b := RunKeepsPotential(ss, ops, f, i, k, from, n - 1, u);
      k' := OpKeepsPotential(ss, ops, f, i, b, n - 1, u + Since(ops, from, n - 1));
      assert ss[n] == Apply(ss[n - 1], ops[n - 1]).0;
    }
  }

  lemma {:induction false} ReachesDispatches(ops: seq<Op>, n: nat, goal: nat) returns (j: nat)
    requires n <= |ops| && goal <= Dispatches(ops, n)
    ensures j <= n && Dispatches(ops, j) == goal
    ensures forall i :: 0 <= i < j ==> Dispatches(ops, i) < goal || !ops[i].Dispatch?
  {
    if Dispatches(ops, n) == goal && (n == 0 || Dispatches(ops, n - 1) < goal) {
      j := n;
      DispatchesGrow(ops, n);
    } else {
      j := ReachesDispatches(ops, n - 1, goal);
    }
  }

  lemma {:induction false} DispatchesGrow(ops: seq<Op>, n: nat)
    requires n <= |ops|
    ensures forall i :: 0 <= i < n ==> Dispatches(ops, i) < Dispatches(ops, n) || !ops[i].Dispatch?
    ensures forall i :: 0 <= i <= n ==> Dispatches(ops, i) <= Dispatches(ops, n)
  {
    if n > 0 { DispatchesGrow(ops, n - 1); }
  }
}
