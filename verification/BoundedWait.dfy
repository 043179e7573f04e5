/**
 How long a fiber can wait in a worker's queue: within one round for each place, exactly as
 long as the round-robin counter keeps the rounds even.
 */
module BoundedWait {
  import opened Fibers
  import opened Sequences
  import opened WorkStealing
  import opened RoundRobin
  import opened WorkStealingRuns

  /**
   A run from counter value `c` with `w` workers in which fiber `f` starts at position `k` of
   queue `i`, is never removed, completed or finished, and k + 1 rounds of dispatches are made.
   */
  ghost predicate Waiting(ss: seq<WS>, ops: seq<Op>, f: FiberID, i: nat, k: nat, c: nat, w: nat) {
    && Run(ss, ops) && |ss[0].queues| == w && ss[0].next == c
    && i < w && k < |ss[0].queues[i]| && ss[0].queues[i][k] == f
    && (forall j :: 0 <= j < |ops| ==> Spares(ops[j], f))
    && Dispatches(ops, |ops|) >= (k + 1) * w
  }

  /** Some dispatch returns fiber `f`. */
  ghost predicate Fetched(ss: seq<WS>, ops: seq<Op>, f: FiberID)
    requires Run(ss, ops)
  {
    exists j :: 0 <= j < |ops| && Returned(ss, ops, j, f)
  }

  // ---- Even rounds ----

  lemma PotentialBound(u: nat, i: nat, k: nat, w: nat)
    requires i < w
    ensures Potential(u, i, k, w) < (k + 1) * w
  {
    assert (k + 1) * w == k * w + w;
  }

  lemma TurnInStep(ss: seq<WS>, ops: seq<Op>, j: nat, w: nat)
    requires Run(ss, ops) && j < |ops| && 0 < w && ss[0].next < WORD
    requires WORD % w == 0 || ss[0].next + Dispatches(ops, j) < WORD
    ensures Home(ss[j].next, w) == Home(ss[0].next + Since(ops, 0, j), w)
  {
    hide Apply; hide OpOk; hide Home;
    var x := ss[0].next + Dispatches(ops, j);
    CounterCounts(ss, ops, j);
    SinceIs(ops, 0, j);
    if WORD % w == 0 { ModOfMod(x, w); } else { SmallNumber(x); }
  }

  /** No wrap before op `n`, or a harmless one: the turns are in step with the counter at the start. */
  lemma InStepFromStart(ss: seq<WS>, ops: seq<Op>, n: nat, w: nat)
    requires Run(ss, ops) && n <= |ops| && 0 < w && ss[0].next < WORD
    requires WORD % w == 0 || forall j :: 0 <= j < n && ops[j].Dispatch? ==> ss[0].next + Dispatches(ops, j) < WORD
    ensures InStep(ss, ops, 0, n, ss[0].next, w)
  {
    hide Apply; hide OpOk; hide Home; hide Since; hide Dispatches;
    forall j | 0 <= j < n && ops[j].Dispatch? ensures Home(ss[j].next, w) == Home(ss[0].next + Since(ops, 0, j), w) {
      TurnInStep(ss, ops, j, w);
    }
  }

  lemma ModOfMod(x: nat, w: nat)
    requires 0 < w && WORD % w == 0
    ensures Home(x % WORD, w) == Home(x, w)
  {
    var y, q := x % WORD, x / WORD;
    var a, b := WORD / w, y / w;
    assert x == q * WORD + y;
    assert q * WORD == (q * a) * w;
    assert x == (q * a + b) * w + y % w;
    Remainder(x, w, q * a + b, y % w);
  }

  /** After a wrap the turns are in step with a counter that starts from 0. */
  lemma InStepAfterWrap(ss: seq<WS>, ops: seq<Op>, from: nat, n: nat, w: nat)
    requires Run(ss, ops) && from <= n <= |ops| && 0 < w && ss[0].next < WORD
    requires ss[0].next + Dispatches(ops, from) == WORD
    requires forall j :: from <= j < n && ops[j].Dispatch? ==> ss[0].next + Dispatches(ops, j) < 2 * WORD
    ensures InStep(ss, ops, from, n, 0, w)
  {
    hide Apply; hide OpOk; hide Home;
    forall j | from <= j < n && ops[j].Dispatch? ensures Home(ss[j].next, w) == Home(Since(ops, from, j), w) {
      CounterCounts(ss, ops, j);
      SinceIs(ops, from, j);
      WordOver(Since(ops, from, j));
    }
  }

  lemma WordOver(d: nat)
    requires d < WORD
    ensures (WORD + d) % WORD == d
  {
  }

  /** No wrap, or one that does not show. */
  lemma WaitsInStep(ss: seq<WS>, ops: seq<Op>, f: FiberID, i: nat, k: nat, n: nat, w: nat)
    requires Run(ss, ops) && n <= |ops| && |ss[0].queues| == w && ss[0].next < WORD && i < w
    requires Stands(ss[0].queues, i, k, f) && NotReturned(ss, ops, n, f)
    requires forall j :: 0 <= j < n ==> Dispatches(ops, j) < (k + 1) * w || !ops[j].Dispatch?
    requires WORD % w == 0 || ss[0].next + (k + 1) * w <= WORD
    ensures Dispatches(ops, n) < (k + 1) * w
  {
    hide Apply; hide OpOk; hide Home; hide Stands; hide Potential; hide Spares; hide Returned; hide InStep;
    InStepFromStart(ss, ops, n, w);
    SinceIs(ops, 0, n);
    PotentialBound(ss[0].next, i, k, w);
    var k' := RunKeepsPotential(ss, ops, f, i, k, 0, n, ss[0].next);
  }

  /** One wrap, exactly between two rounds. */
  lemma WaitsAcrossWrap(ss: seq<WS>, ops: seq<Op>, f: FiberID, i: nat, k: nat, n: nat, w: nat)
    requires Run(ss, ops) && n <= |ops| && |ss[0].queues| == w && ss[0].next < WORD && i < w
    requires Stands(ss[0].queues, i, k, f) && NotReturned(ss, ops, n, f)
    requires forall j :: 0 <= j < n ==> Dispatches(ops, j) < (k + 1) * w || !ops[j].Dispatch?
    requires Dispatches(ops, n) <= (k + 1) * w && ss[0].next + (k + 1) * w <= 2 * WORD
    requires (WORD - ss[0].next) % w == 0 && WORD < ss[0].next + (k + 1) * w
    ensures Dispatches(ops, n) < (k + 1) * w
  {
    hide Apply; hide OpOk; hide Home; hide Stands; hide Potential; hide Spares; hide Returned; hide InStep;
    var c, m := ss[0].next, WORD - ss[0].next;
    if Dispatches(ops, n) >= m {
      var at := ReachesDispatches(ops, n, m);
      InStepFromStart(ss, ops, at, w);
      SinceIs(ops, 0, at);
      var k1 := RunKeepsPotential(ss, ops, f, i, k, 0, at, c);
      AfterWholeRounds(c, m, i, k, k1, w);
      InStepAfterWrap(ss, ops, at, n, w);
      SinceIs(ops, at, n);
      var k2 := RunKeepsPotential(ss, ops, f, i, k1, at, n, 0);
      PotentialBound(0, i, k1, w);
    }
  }

  /** After whole rounds the fiber has moved up a place for each. */
  lemma AfterWholeRounds(c: nat, m: nat, i: nat, k: nat, k1: nat, w: nat)
    requires i < w && m % w == 0 && Potential(c + m, i, k1, w) + m <= Potential(c, i, k, w)
    ensures (k1 + 1) * w + m <= (k + 1) * w
  {
    Remainder(c + m, w, c / w + m / w, c % w);
    assert Distance(c + m, i, w) == Distance(c, i, w);
    assert (k1 + 1) * w == k1 * w + w && (k + 1) * w == k * w + w;
  }

  /** With even rounds the fiber is returned in time. */
  lemma FetchedInTime(ss: seq<WS>, ops: seq<Op>, f: FiberID, i: nat, k: nat, c: nat, w: nat)
    requires c < WORD && 0 < w && Waiting(ss, ops, f, i, k, c, w) && Even(c, w, k + 1)
    ensures Fetched(ss, ops, f)
  {
    assert Stands(ss[0].queues, i, k, f);
    hide Apply; hide OpOk; hide Stands; hide Spares; hide Returned; hide Dispatches;
    if NotReturned(ss, ops, |ops|, f) {
      var rounds := (k + 1) * w;
      var n := ReachesDispatches(ops, |ops|, rounds);
      if WORD % w == 0 || c + rounds <= WORD {
        WaitsInStep(ss, ops, f, i, k, n, w);
        assert false;
      } else {
        WaitsAcrossWrap(ss, ops, f, i, k, n, w);
        assert false;
      }
    }
  }

  // ---- Uneven rounds ----

  /** The fiber that is dealt to position `p` of queue `u`: fibers are scheduled in the order of their numbers. */
  function Dealt(p: nat, u: nat, w: nat): FiberID { p * w + u + 1 }

  function Filled(u: nat, w: nat, n: nat): (q: seq<FiberID>)
    ensures |q| == n && forall p :: 0 <= p < n ==> q[p] == Dealt(p, u, w)
  {
    seq(n, p requires 0 <= p => Dealt(p, u, w))
  }

  /** No fiber is dealt twice. */
  lemma DealtOnce(p: nat, u: nat, p': nat, u': nat, w: nat)
    requires u < w && u' < w && Dealt(p, u, w) == Dealt(p', u', w)
    ensures p == p' && u == u'
  {
    Remainder(p * w + u, w, p, u);
    Remainder(p' * w + u', w, p', u');
    assert (p - p') * w == p * w - p' * w;
  }

  /** All workers but `h`. */
  function Others(h: nat, w: nat): (r: seq<nat>)
    requires h < w
    ensures |r| == w - 1 && forall v :: 0 <= v < w - 1 ==> r[v] == if v < h then v else v + 1
  {
    seq(w - 1, v requires 0 <= v => if v < h then v else v + 1)
  }

  lemma OthersAreShuffle(h: nat, w: nat)
    requires h < w
    ensures Shuffle(Others(h, w), h, w)
  {
    forall v | 0 <= v < w && v != h ensures v in Others(h, w) {
      assert Others(h, w)[if v < h then v else v - 1] == v;
    }
  }

  /** Queue `u` after `j` dispatches that were each served at home. */
  function Later(k: nat, w: nat, c: nat, u: nat, j: nat): (q: seq<FiberID>)
    requires 0 < w && Turns(c, w, u, j) <= (k + 1) * w
  {
    Filled(u, w, (k + 1) * w)[Turns(c, w, u, j)..]
  }

  /** Worker `i` does not get k + 1 turns in the rounds. */
  predicate Short(i: nat, k: nat, w: nat, c: nat) { i < w && Turns(c, w, i, (k + 1) * w) <= k }

  lemma {:induction false} TurnsGrow(c: nat, w: nat, u: nat, j: nat, n: nat)
    requires 0 < w && j <= n
    ensures Turns(c, w, u, j) <= Turns(c, w, u, n)
    decreases n
  {
    if j < n { TurnsGrow(c, w, u, j, n - 1); }
  }

  lemma {:induction false} TurnsAtMost(c: nat, w: nat, u: nat, j: nat)
    requires 0 < w
    ensures Turns(c, w, u, j) <= j
  {
    if j > 0 { TurnsAtMost(c, w, u, j - 1); }
  }

  function At(k: nat, w: nat, c: nat, j: nat): (s: WS)
    requires 0 < w && j <= (k + 1) * w
    ensures |s.queues| == w
    ensures forall u :: 0 <= u < w ==> Turns(c, w, u, j) <= (k + 1) * w && s.queues[u] == Later(k, w, c, u, j)
  {
    assert forall u :: 0 <= u < w ==> Turns(c, w, u, j) <= (k + 1) * w by {
      forall u | 0 <= u < w ensures Turns(c, w, u, j) <= (k + 1) * w { TurnsAtMost(c, w, u, j); }
    }
    WS(seq(w, u requires 0 <= u < w => Later(k, w, c, u, j)), (c + j) % WORD)
  }

  function OpAt(c: nat, w: nat, j: nat): Op
    requires 0 < w
  {
    Dispatch({}, Others(Turn(c, j, w), w))
  }

  /** What the dispatch returns: the head of the queue of the worker whose turn it is. */
  function HeadAt(w: nat, c: nat, j: nat): FiberID
    requires 0 < w
  {
    Dealt(Turns(c, w, Turn(c, j, w), j), Turn(c, j, w), w)
  }

  /** The worker whose turn it is serves the head of its own queue. */
  lemma ServedAtHome(k: nat, w: nat, c: nat, j: nat)
    requires 0 < w && j < (k + 1) * w
    ensures var s, h := At(k, w, c, j), Turn(c, j, w);
      Pick(s.queues, h, {}, Others(h, w)) == (At(k, w, c, j + 1).queues, Some(HeadAt(w, c, j)))
  {
    var s, t, h := At(k, w, c, j), At(k, w, c, j + 1), Turn(c, j, w);
    var q, n := Filled(h, w, (k + 1) * w), Turns(c, w, h, j);
    TurnsAtMost(c, w, h, j);
    assert n + 1 == Turns(c, w, h, j + 1) <= |q|;
    assert s.queues[h] == q[n..] && q[n] == HeadAt(w, c, j);
    assert Live(q[n..], {}) == q[n..];
    assert q[n..][1..] == q[n + 1..];
    forall u | 0 <= u < w ensures s.queues[h := s.queues[h][1..]][u] == t.queues[u] {
      if u != h { assert Turns(c, w, u, j + 1) == Turns(c, w, u, j); }
    }
    assert s.queues[h := s.queues[h][1..]] == t.queues;
  }

  lemma DispatchAtHome(k: nat, w: nat, c: nat, j: nat)
    requires 0 < w && j < (k + 1) * w && c < WORD
    ensures var s, op := At(k, w, c, j), OpAt(c, w, j);
      OpOk(s, op) && Apply(s, op) == (At(k, w, c, j + 1), Some(HeadAt(w, c, j)))
  {
    OthersAreShuffle(Turn(c, j, w), w);
    ServedAtHome(k, w, c, j);
    ModNext(c + j);
  }

  /** Too few turns of worker `i` to get to position `k` of its queue. */
  lemma HeadIsAnother(i: nat, k: nat, w: nat, c: nat, j: nat)
    requires Short(i, k, w, c) && j < (k + 1) * w
    ensures HeadAt(w, c, j) != Dealt(k, i, w)
  {
    var h := Turn(c, j, w);
    if h == i { TurnsGrow(c, w, i, j + 1, (k + 1) * w); }
    hide Dealt;
    if HeadAt(w, c, j) == Dealt(k, i, w) { DealtOnce(Turns(c, w, h, j), h, k, i, w); }
  }

  lemma {:induction false} AllDispatches(ops: seq<Op>, n: nat)
    requires n <= |ops| && forall j :: 0 <= j < |ops| ==> ops[j].Dispatch?
    ensures Dispatches(ops, n) == n
  {
    if n > 0 { AllDispatches(ops, n - 1); }
  }

  // ---- From a new scheduler ----

  function New(w: nat): WS { WS(seq(w, _ => []), 0) }

  /** Some run of a new scheduler with as many workers leads to `s`. */
  ghost predicate FromNew(s: WS) {
    exists ss, ops :: Run(ss, ops) && ss[0] == New(|s.queues|) && ss[|ops|] == s
  }

  lemma NewIsFromNew(w: nat)
    ensures FromNew(New(w))
  {
    assert Run([New(w)], []);
  }

  lemma StepFromNew(s: WS, op: Op)
    requires FromNew(s) && OpOk(s, op)
    ensures FromNew(Apply(s, op).0)
  {
    hide Apply; hide OpOk;
    var ss, ops :| Run(ss, ops) && ss[0] == New(|s.queues|) && ss[|ops|] == s;
    var ss', ops' := ss + [Apply(s, op).0], ops + [op];
    forall j | 0 <= j < |ops'| ensures OpOk(ss'[j], ops'[j]) && ss'[j + 1] == Apply(ss'[j], ops'[j]).0 {
      if j < |ops| { assert ss'[j] == ss[j] && ss'[j + 1] == ss[j + 1] && ops'[j] == ops[j]; }
    }
    assert Run(ss', ops');
  }

  lemma {:induction false} StealNothing(qs: seq<seq<FiberID>>, order: seq<nat>)
    requires (forall v :: 0 <= v < |qs| ==> qs[v] == []) && forall j :: 0 <= j < |order| ==> order[j] < |qs|
    ensures Steal(qs, {}, order) == (qs, None)
    decreases |order|
  {
    if order != [] {
      assert qs[order[0] := []] == qs;
      StealNothing(qs, order[1..]);
    }
  }

  /** Any counter value is reached: Next counts also when it finds nothing. */
  lemma {:induction false} CountUp(w: nat, c: nat)
    requires 0 < w && c < WORD
    ensures FromNew(New(w).(next := c))
    decreases c
  {
    hide FromNew;
    if c == 0 {
      NewIsFromNew(w);
    } else {
      CountUp(w, c - 1);
      var s, h := New(w).(next := c - 1), Home(c - 1, w);
      OthersAreShuffle(h, w);
      assert s.queues[h := []] == s.queues;
      StealNothing(s.queues, Others(h, w));
      SmallNumber(c);
      StepFromNew(s, Dispatch({}, Others(h, w)));
    }
  }

  /** After `r` rounds of Schedule calls and `v` more. */
  function Dealing(r: nat, v: nat, w: nat, c: nat): (s: WS)
    ensures |s.queues| == w
    ensures forall u :: 0 <= u < w ==> s.queues[u] == Filled(u, w, if u < v then r + 1 else r)
  {
    WS(seq(w, u requires 0 <= u < w => Filled(u, w, if u < v then r + 1 else r)), c)
  }

  lemma DealOne(r: nat, v: nat, w: nat, c: nat)
    requires v < w
    ensures Put(Dealing(r, v, w, c).queues, Dealt(r, v, w)) == Dealing(r, v + 1, w, c).queues
  {
    var qs, qs' := Dealing(r, v, w, c).queues, Dealing(r, v + 1, w, c).queues;
    var m := ShortestOf(qs, w);
    forall u | 0 <= u < w ensures |qs[u]| == if u < v then r + 1 else r {}
    assert |qs[m]| <= |qs[v]|;
    assert m == v;
    assert Filled(v, w, r) + [Dealt(r, v, w)] == Filled(v, w, r + 1);
    forall u | 0 <= u < w ensures qs[v := qs[v] + [Dealt(r, v, w)]][u] == qs'[u] {}
  }

  lemma {:induction false} Deal(r: nat, v: nat, w: nat, c: nat)
    requires 0 < w && v <= w && c < WORD
    ensures FromNew(Dealing(r, v, w, c))
    decreases r, v
  {
    hide FromNew; hide Filled;
    if v > 0 {
      Deal(r, v - 1, w, c);
      DealOne(r, v - 1, w, c);
      StepFromNew(Dealing(r, v - 1, w, c), Op.Schedule(Dealt(r, v - 1, w)));
    } else if r > 0 {
      Deal(r - 1, w, w, c);
      assert Dealing(r - 1, w, w, c) == Dealing(r, 0, w, c);
    } else {
      CountUp(w, c);
      NothingDealt(w, c);
    }
  }

  lemma NothingDealt(w: nat, c: nat)
    ensures Dealing(0, 0, w, c) == New(w).(next := c)
  {
    assert forall u :: 0 <= u < w ==> Filled(u, w, 0) == [];
  }

  lemma WaitsAtFirst(i: nat, k: nat, w: nat, c: nat)
    requires i < w && c < WORD
    ensures FromNew(At(k, w, c, 0))
    ensures var s := At(k, w, c, 0);
      |s.queues| == w && s.next == c && k < |s.queues[i]| && s.queues[i][k] == Dealt(k, i, w)
  {
    SmallNumber(c);
    var n := (k + 1) * w;
    assert k < n by { assert n == k * w + w; }
    forall u | 0 <= u < w ensures Later(k, w, c, u, 0) == Filled(u, w, n) {}
    assert At(k, w, c, 0) == Dealing(n, 0, w, c);
    hide FromNew; hide At;
    Deal(n, 0, w, c);
  }

  lemma OpIsDispatch(c: nat, w: nat, j: nat, f: FiberID)
    requires 0 < w
    ensures OpAt(c, w, j).Dispatch? && Spares(OpAt(c, w, j), f)
  {
  }

  /**
   The run in which the fiber is still waiting after all rounds.  It starts where Schedule calls
   for distinct fibers have filled the queues of a new scheduler evenly.
   */
  lemma StillWaiting(i: nat, k: nat, w: nat, c: nat) returns (ss: seq<WS>, ops: seq<Op>, f: FiberID)
    requires Short(i, k, w, c) && c < WORD
    ensures Waiting(ss, ops, f, i, k, c, w) && !Fetched(ss, ops, f) && FromNew(ss[0])
  {
    hide Apply; hide OpOk; hide At; hide OpAt; hide Dealt; hide HeadAt; hide FromNew;
    var n := (k + 1) * w;
    f := Dealt(k, i, w);
    ss := seq(n + 1, j requires 0 <= j <= n => At(k, w, c, j));
    ops := seq(n, j requires 0 <= j < n => OpAt(c, w, j));
    forall j | 0 <= j < n
      ensures OpOk(ss[j], ops[j]) && Apply(ss[j], ops[j]) == (ss[j + 1], Some(HeadAt(w, c, j))) && ops[j].Dispatch?
    {
      DispatchAtHome(k, w, c, j);
      OpIsDispatch(c, w, j, f);
    }
    assert Run(ss, ops);
    forall j | 0 <= j < n ensures Spares(ops[j], f) && !Returned(ss, ops, j, f) {
      OpIsDispatch(c, w, j, f);
      DispatchAtHome(k, w, c, j);
      HeadIsAnother(i, k, w, c, j);
    }
    AllDispatches(ops, n);
    WaitsAtFirst(i, k, w, c);
  }

  // ---- The exact condition ----

  /** From counter value `c` on, a fiber at position `k` of any of `w` queues is returned within k + 1 rounds. */
  ghost predicate Guaranteed(c: nat, k: nat, w: nat) {
    forall ss: seq<WS>, ops: seq<Op>, f: FiberID, i: nat :: Waiting(ss, ops, f, i, k, c, w) ==> Fetched(ss, ops, f)
  }

  /** The same of the runs whose start a new scheduler gets to. */
  ghost predicate GuaranteedFromNew(c: nat, k: nat, w: nat) {
    forall ss: seq<WS>, ops: seq<Op>, f: FiberID, i: nat ::
      Waiting(ss, ops, f, i, k, c, w) && FromNew(ss[0]) ==> Fetched(ss, ops, f)
  }

  /**
   Bounded wait, exactly: an unfinished fiber at position k of a worker's queue, neither removed
   nor completed, is returned within (k + 1) * numWorkers calls of Next, whatever is scheduled,
   removed or completed in between and however the victims are shuffled, if and only if the
   counter keeps those rounds even.  That is so for all queues, and also for just those that a
   new scheduler gets to.
   */
  lemma BoundedWaitIff(c: nat, k: nat, w: nat)
    requires c < WORD && 0 < w
    ensures Guaranteed(c, k, w) <==> Even(c, w, k + 1)
    ensures GuaranteedFromNew(c, k, w) <==> Even(c, w, k + 1)
  {
    hide FromNew; hide Fetched; hide Even;
    if Even(c, w, k + 1) {
      forall ss: seq<WS>, ops: seq<Op>, f: FiberID, i: nat | Waiting(ss, ops, f, i, k, c, w)
        ensures Fetched(ss, ops, f)
      {
        FetchedInTime(ss, ops, f, i, k, c, w);
      }
    } else {
      var i := UnevenFallsShort(c, w, k + 1);
      var ss, ops, f := StillWaiting(i, k, w, c);
    }
  }
}
