/**
 WorkStealingScheduler (internal/scheduler/workstealing.go) with its per-worker queues, called
 by one caller at a time; WorkStealingConcurrent.dfy has the callers in parallel.  The random
 victim order of a steal is a parameter, so each result holds for every shuffle.
 */
module WorkStealing {
  import opened Fibers
  import opened Sequences

  type Taken = Option<FiberID>

  /** The round-robin counter is an unsigned 64-bit word. */
  const WORD: nat := 0x1_0000_0000_0000_0000

  datatype WS = WS(queues: seq<seq<FiberID>>, next: nat)

  ghost predicate Inv(s: WS) { 0 < |s.queues| && s.next < WORD }

  /** The unfinished fibers of a queue, in order. */
  function Live(q: seq<FiberID>, finished: set<FiberID>): (r: seq<FiberID>)
    ensures |r| <= |q| && forall k :: 0 <= k < |r| ==> r[k] !in finished
    ensures (forall k :: 0 <= k < |q| ==> q[k] !in finished) ==> r == q
  {
    if q == [] then []
    else
      var rest := Live(q[..|q| - 1], finished);
      assert q == q[..|q| - 1] + [q[|q| - 1]];
      if q[|q| - 1] in finished then rest else rest + [q[|q| - 1]]
  }

  lemma LiveNext(q: seq<FiberID>, finished: set<FiberID>, i: nat)
    requires i < |q|
    ensures Live(q[..i + 1], finished)
      == if q[i] in finished then Live(q[..i], finished) else Live(q[..i], finished) + [q[i]]
  {
    assert q[..i + 1][..i] == q[..i];
  }

  /** filterFinishedInPlace: moves the unfinished fibers to the front and clears the tail. */
  method FilterFinishedInPlace(queue: array<Taken>, finished: set<FiberID>) returns (n: nat)
    requires forall i :: 0 <= i < queue.Length ==> queue[i].Some?
    modifies queue
    ensures n <= queue.Length && forall i :: 0 <= i < n ==> queue[i].Some?
    ensures Ids(queue[..n]) == Live(Ids(old(queue[..])), finished)
    ensures forall i :: n <= i < queue.Length ==> queue[i].None?
  {
    ghost var ids := Ids(queue[..]);
    n := 0;
    assert Live(ids[..0], finished) == [];
    hide Live;
    for i := 0 to queue.Length
      invariant n <= i && |Live(ids[..i], finished)| == n
      invariant forall j :: i <= j < queue.Length ==> queue[j] == Some(ids[j])
      invariant forall j :: 0 <= j < n ==> queue[j] == Some(Live(ids[..i], finished)[j])
    {
      LiveNext(ids, finished, i);
      if queue[i].value !in finished {
        queue[n] := queue[i];
        n := n + 1;
      }
    }
    assert ids[..queue.Length] == ids;
    ghost var kept := Live(ids, finished);
    ClearTail(queue, n);
    assert forall j :: 0 <= j < n ==> queue[j] == Some(kept[j]);
  }

  method ClearTail(queue: array<Taken>, n: nat)
    requires n <= queue.Length
    modifies queue
    ensures forall j :: 0 <= j < n ==> queue[j] == old(queue[j])
    ensures forall j :: n <= j < queue.Length ==> queue[j].None?
  {
    for i := n to queue.Length
      invariant forall j :: 0 <= j < n ==> queue[j] == old(queue[j])
      invariant forall j :: n <= j < i ==> queue[j].None?
    {
      queue[i] := None;
    }
  }

  function Ids(q: seq<Taken>): (r: seq<FiberID>)
    requires forall i :: 0 <= i < |q| ==> q[i].Some?
    ensures |r| == |q|
  {
    seq(|q|, i requires 0 <= i < |q| => q[i].value)
  }

  // ---- Schedule ----

  /** The first worker with a shortest queue among the first `n`. */
  function ShortestOf(qs: seq<seq<FiberID>>, n: nat): (m: nat)
    requires 0 < n <= |qs|
    ensures m < n && forall i :: 0 <= i < n ==> |qs[m]| <= |qs[i]|
    ensures forall i :: 0 <= i < m ==> |qs[m]| < |qs[i]|
  {
    if n == 1 then 0
    else
      var m := ShortestOf(qs, n - 1);
      if |qs[n - 1]| < |qs[m]| then n - 1 else m
  }

  function Put(qs: seq<seq<FiberID>>, g: FiberID): (r: seq<seq<FiberID>>)
    requires 0 < |qs|
    ensures |r| == |qs|
  {
    var m := ShortestOf(qs, |qs|);
    qs[m := qs[m] + [g]]
  }

  /** No queue is longer than another by more than `gap`. */
  ghost predicate Within(qs: seq<seq<FiberID>>, gap: nat) {
    forall i, j :: 0 <= i < |qs| && 0 <= j < |qs| ==> |qs[i]| <= |qs[j]| + gap
  }

  /** Scheduling keeps the queues balanced. */
  lemma PutKeepsBalance(qs: seq<seq<FiberID>>, g: FiberID, gap: nat)
    requires 0 < |qs| && Within(qs, gap)
    ensures Within(Put(qs, g), if gap == 0 then 1 else gap)
  {
    var m := ShortestOf(qs, |qs|);
    forall i, j | 0 <= i < |qs| && 0 <= j < |qs|
      ensures |Put(qs, g)[i]| <= |Put(qs, g)[j]| + if gap == 0 then 1 else gap
    {
      assert |qs[i]| <= |qs[j]| + gap && |qs[m]| <= |qs[j]|;
    }
  }

  // ---- Removal ----

  /** The first worker that holds `g`, or the number of workers. */
  function Holder(qs: seq<seq<FiberID>>, g: FiberID): (v: nat)
    ensures v <= |qs| && (v < |qs| ==> g in qs[v])
    ensures forall u :: 0 <= u < v ==> g !in qs[u]
  {
    if qs == [] then 0 else if g in qs[0] then 0 else
      assert forall j :: 1 <= j < |qs| ==> qs[j] == qs[1..][j - 1];
      1 + Holder(qs[1..], g)
  }

  /** The first occurrence of `g` in the first queue that holds it is spliced out. */
  function Spliced(qs: seq<seq<FiberID>>, g: FiberID): (r: seq<seq<FiberID>>)
    ensures |r| == |qs|
  {
    var v := Holder(qs, g);
    if v == |qs| then qs else qs[v := Without(qs[v], g)]
  }

  /** Every occurrence of `g` is filtered out. */
  function Purged(qs: seq<seq<FiberID>>, g: FiberID): (r: seq<seq<FiberID>>)
    ensures |r| == |qs|
  {
    seq(|qs|, u requires 0 <= u < |qs| => Live(qs[u], {g}))
  }

  // ---- Counts ----

  /** How often the fiber is queued. */
  function Queued(qs: seq<seq<FiberID>>, g: FiberID): nat {
    if qs == [] then 0 else Queued(qs[..|qs| - 1], g) + multiset(qs[|qs| - 1])[g]
  }

  lemma {:induction false} QueuedUpdate(qs: seq<seq<FiberID>>, v: nat, q: seq<FiberID>, g: FiberID)
    requires v < |qs|
    ensures Queued(qs[v := q], g) + multiset(qs[v])[g] == Queued(qs, g) + multiset(q)[g]
    decreases |qs|
  {
    var n := |qs| - 1;
    if v == n {
      assert qs[v := q][..n] == qs[..n];
    } else {
      QueuedUpdate(qs[..n], v, q, g);
      assert qs[v := q][..n] == qs[..n][v := q];
    }
  }

  /** Filtering keeps exactly the unfinished fibers, each as often as it was there. */
  lemma {:induction false} LiveCount(q: seq<FiberID>, finished: set<FiberID>, g: FiberID)
    ensures multiset(Live(q, finished))[g] == if g in finished then 0 else multiset(q)[g]
    decreases |q|
  {
    if q != [] {
      var n := |q| - 1;
      LiveCount(q[..n], finished, g);
      assert q == q[..n] + [q[n]];
    }
  }

  lemma OneOut(all: multiset<FiberID>, rest: multiset<FiberID>, g: FiberID, x: FiberID)
    requires all == rest + multiset{g}
    ensures rest[x] + multiset{g}[x] == all[x]
  {
  }

  lemma CutCount(q: seq<FiberID>, k: nat, r: seq<FiberID>, g: FiberID, x: FiberID)
    requires k < |q| && q[k] == g && r == q[..k] + q[k + 1..]
    ensures multiset(r)[x] + multiset{g}[x] == multiset(q)[x]
  {
    assert q == q[..k] + [q[k]] + q[k + 1..];
    OneOut(multiset(q), multiset(r), g, x);
  }

  lemma SpliceCount(q: seq<FiberID>, r: seq<FiberID>, g: FiberID, x: FiberID)
    requires g in q && r == Without(q, g)
    ensures multiset(r)[x] + multiset{g}[x] == multiset(q)[x]
  {
    CutCount(q, Position(q, g), r, g, x);
  }

  lemma {:induction false} LiveConcat(a: seq<FiberID>, b: seq<FiberID>, finished: set<FiberID>)
    ensures Live(a + b, finished) == Live(a, finished) + Live(b, finished)
    decreases |b|
  {
    if b == [] {
      assert a + b == a && Live(a, finished) + [] == Live(a, finished);
    } else {
      var n := |b| - 1;
      LiveConcat(a, b[..n], finished);
      assert (a + b)[..|a| + n] == a + b[..n];
    }
  }

  /** The fibers other than `g` are in every queue as before, in the same order. */
  ghost predicate OthersStay(qs: seq<seq<FiberID>>, t: seq<seq<FiberID>>, g: FiberID) {
    |t| == |qs| && forall u :: 0 <= u < |qs| ==> Live(t[u], {g}) == Live(qs[u], {g})
  }

  lemma AloneIsFiltered(g: FiberID)
    ensures Live([g], {g}) == []
  {
  }

  lemma AroundKeepsOthers(a: seq<FiberID>, g: FiberID, b: seq<FiberID>)
    ensures Live(a + b, {g}) == Live(a + [g] + b, {g})
  {
    hide Live;
    LiveConcat(a, b, {g});
    LiveConcat(a + [g], b, {g});
    LiveConcat(a, [g], {g});
    AloneIsFiltered(g);
  }

  lemma CutKeepsOthers(q: seq<FiberID>, k: nat, g: FiberID)
    requires k < |q| && q[k] == g
    ensures Live(q[..k] + q[k + 1..], {g}) == Live(q, {g})
  {
    hide Live;
    assert q == q[..k] + [g] + q[k + 1..];
    AroundKeepsOthers(q[..k], g, q[k + 1..]);
  }

  lemma {:induction false} QueuedSomewhere(qs: seq<seq<FiberID>>, g: FiberID)
    ensures Queued(qs, g) > 0 <==> exists v :: 0 <= v < |qs| && g in qs[v]
    decreases |qs|
  {
    if qs != [] {
      var n := |qs| - 1;
      QueuedSomewhere(qs[..n], g);
      if v :| 0 <= v < |qs| && g in qs[v] { assert v < n ==> qs[..n][v] == qs[v]; }
      if v :| 0 <= v < |qs[..n]| && g in qs[..n][v] { assert qs[v] == qs[..n][v]; }
    }
  }

  /** Remove and BlockFiber take one occurrence of the fiber out, if there is one, and nothing else. */
  lemma SplicedTakesOne(qs: seq<seq<FiberID>>, g: FiberID)
    ensures Queued(Spliced(qs, g), g) == if Queued(qs, g) > 0 then Queued(qs, g) - 1 else 0
    ensures OthersStay(qs, Spliced(qs, g), g)
  {
    hide Live;
    QueuedSomewhere(qs, g);
    var v := Holder(qs, g);
    if v < |qs| {
      var k, r := Position(qs[v], g), Without(qs[v], g);
      CutCount(qs[v], k, r, g, g);
      CutKeepsOthers(qs[v], k, g);
      QueuedUpdate(qs, v, r, g);
    }
  }

  /** MarkCompleted takes every occurrence of the fiber out, and nothing else. */
  lemma PurgedTakesAll(qs: seq<seq<FiberID>>, g: FiberID)
    ensures Queued(Purged(qs, g), g) == 0 && OthersStay(qs, Purged(qs, g), g)
  {
    hide Queued;
    forall u | 0 <= u < |qs| ensures g !in Purged(qs, g)[u] && Live(Purged(qs, g)[u], {g}) == Live(qs[u], {g}) {
      LiveOfLive(qs[u], {g}, 0, |Live(qs[u], {g})|);
      var r := Live(qs[u], {g});
      assert r[0..|r|] == r;
    }
    QueuedSomewhere(Purged(qs, g), g);
  }

  /** Schedule puts the fiber once at the end of a shortest queue, and nothing else. */
  lemma PutAddsOne(qs: seq<seq<FiberID>>, g: FiberID)
    requires 0 < |qs|
    ensures Queued(Put(qs, g), g) == Queued(qs, g) + 1 && OthersStay(qs, Put(qs, g), g)
    ensures exists m ::
      && 0 <= m < |qs| && Put(qs, g)[m] == qs[m] + [g]
      && (forall i :: 0 <= i < |qs| ==> |qs[m]| <= |qs[i]|)
  {
    hide Live;
    var m := ShortestOf(qs, |qs|);
    QueuedUpdate(qs, m, qs[m] + [g], g);
    LiveConcat(qs[m], [g], {g});
    AloneIsFiltered(g);
  }

  // ---- Next ----

  /** Tries the victims in the given order and takes the last unfinished fiber of the first that has one. */
  function Steal(qs: seq<seq<FiberID>>, finished: set<FiberID>, order: seq<nat>): (r: (seq<seq<FiberID>>, Taken))
    requires forall k :: 0 <= k < |order| ==> order[k] < |qs|
    ensures |r.0| == |qs|
    decreases |order|
  {
    if order == [] then (qs, None)
    else
      var v, live := order[0], Live(qs[order[0]], finished);
      if live == [] then Steal(qs[v := []], finished, order[1..])
      else (qs[v := live[..|live| - 1]], Some(live[|live| - 1]))
  }

  /** The worker whose turn it is. */
  function Home(next: nat, w: nat): (h: nat)
    requires 0 < w
    ensures h < w
  {
    next % w
  }

  /** A shuffle of the other workers. */
  ghost predicate Shuffle(order: seq<nat>, home: nat, w: nat) {
    && (forall k :: 0 <= k < |order| ==> order[k] < w && order[k] != home)
    && forall v :: 0 <= v < w && v != home ==> v in order
  }

  function Pick(qs: seq<seq<FiberID>>, home: nat, finished: set<FiberID>, order: seq<nat>)
    : (r: (seq<seq<FiberID>>, Taken))
    requires home < |qs| && forall k :: 0 <= k < |order| ==> order[k] < |qs|
    ensures |r.0| == |qs|
  {
    var live := Live(qs[home], finished);
    if live == [] then Steal(qs[home := []], finished, order)
    else (qs[home := live[1..]], Some(live[0]))
  }

  function Next(s: WS, finished: set<FiberID>, order: seq<nat>): (r: (WS, Taken))
    requires 0 < |s.queues| && forall k :: 0 <= k < |order| ==> order[k] < |s.queues|
    ensures |r.0.queues| == |s.queues| && r.0.next < WORD
  {
    var (qs, got) := Pick(s.queues, Home(s.next, |s.queues|), finished, order);
    (WS(qs, (s.next + 1) % WORD), got)
  }

  /** Every queue but `v` kept its unfinished fibers. */
  ghost predicate SameBut(qs: seq<seq<FiberID>>, t: seq<seq<FiberID>>, finished: set<FiberID>, v: int) {
    |t| == |qs| && forall u :: 0 <= u < |qs| && u != v ==> Live(t[u], finished) == Live(qs[u], finished)
  }

  /** The first unfinished fiber of queue `v` was taken and nothing else. */
  ghost predicate TookHead(qs: seq<seq<FiberID>>, t: seq<seq<FiberID>>, finished: set<FiberID>, x: FiberID, v: nat) {
    && v < |qs| && SameBut(qs, t, finished, v)
    && Live(qs[v], finished) == [x] + Live(t[v], finished)
  }

  /** The last unfinished fiber of queue `v` was taken and nothing else. */
  ghost predicate TookTail(qs: seq<seq<FiberID>>, t: seq<seq<FiberID>>, finished: set<FiberID>, x: FiberID, v: nat) {
    && v < |qs| && SameBut(qs, t, finished, v)
    && Live(qs[v], finished) == Live(t[v], finished) + [x]
  }

  lemma LiveOfLive(q: seq<FiberID>, finished: set<FiberID>, lo: nat, hi: nat)
    requires lo <= hi <= |Live(q, finished)|
    ensures Live(Live(q, finished)[lo..hi], finished) == Live(q, finished)[lo..hi]
  {
  }

  /** A queue found empty of work is emptied, which keeps its unfinished fibers. */
  lemma EmptiedIsSame(qs: seq<seq<FiberID>>, finished: set<FiberID>, v: nat)
    requires v < |qs| && Live(qs[v], finished) == []
    ensures SameBut(qs, qs[v := []], finished, -1)
  {
  }

  /** A steal that fails finds no work with any victim; one that succeeds takes a victim's tail. */
  ghost predicate Stolen(qs: seq<seq<FiberID>>, finished: set<FiberID>, order: seq<nat>,
                         t: seq<seq<FiberID>>, got: Taken)
    requires forall k :: 0 <= k < |order| ==> order[k] < |qs|
  {
    match got
    case None => SameBut(qs, t, finished, -1) && forall v :: v in order ==> Live(qs[v], finished) == []
    case Some(x) => exists v :: v in order && TookTail(qs, t, finished, x, v)
  }

  lemma SameThenTail(qs: seq<seq<FiberID>>, qs': seq<seq<FiberID>>, t: seq<seq<FiberID>>,
                     finished: set<FiberID>, x: FiberID, v: nat)
    requires SameBut(qs, qs', finished, -1) && TookTail(qs', t, finished, x, v)
    ensures TookTail(qs, t, finished, x, v)
  {
    hide Live;
  }

  lemma StolenPastEmpty(qs: seq<seq<FiberID>>, finished: set<FiberID>, order: seq<nat>,
                        t: seq<seq<FiberID>>, got: Taken)
    requires order != [] && forall k :: 0 <= k < |order| ==> order[k] < |qs|
    requires Live(qs[order[0]], finished) == []
    requires Stolen(qs[order[0] := []], finished, order[1..], t, got)
    ensures Stolen(qs, finished, order, t, got)
  {
    hide Live; hide TookTail;
    var qs' := qs[order[0] := []];
    EmptiedIsSame(qs, finished, order[0]);
    if got.Some? {
      var u :| u in order[1..] && TookTail(qs', t, finished, got.value, u);
      SameThenTail(qs, qs', t, finished, got.value, u);
      assert u in order;
    } else {
      forall v | v in order ensures Live(qs[v], finished) == [] {
        assert v == order[0] || v in order[1..];
      }
    }
  }

  lemma {:induction false} StealTakesOne(qs: seq<seq<FiberID>>, finished: set<FiberID>, order: seq<nat>)
    requires forall k :: 0 <= k < |order| ==> order[k] < |qs|
    ensures Stolen(qs, finished, order, Steal(qs, finished, order).0, Steal(qs, finished, order).1)
    decreases |order|
  {
    hide Live;
    if order != [] {
      var v, live := order[0], Live(qs[order[0]], finished);
      var (t, got) := Steal(qs, finished, order);
      if live == [] {
        StealTakesOne(qs[v := []], finished, order[1..]);
        StolenPastEmpty(qs, finished, order, t, got);
      } else {
        LiveOfLive(qs[v], finished, 0, |live| - 1);
        assert live == live[0..|live| - 1] + [live[|live| - 1]];
        assert TookTail(qs, t, finished, got.value, v);
      }
    }
  }

  /** What Next does: the home worker's head, another worker's tail, or nothing to take anywhere. */
  ghost predicate Picked(qs: seq<seq<FiberID>>, home: nat, finished: set<FiberID>, t: seq<seq<FiberID>>, got: Taken) {
    match got
    case None => SameBut(qs, t, finished, -1) && forall v :: 0 <= v < |qs| ==> Live(qs[v], finished) == []
    case Some(x) =>
      if home < |qs| && Live(qs[home], finished) == [] then exists v :: v != home && TookTail(qs, t, finished, x, v)
      else TookHead(qs, t, finished, x, home)
  }

  lemma PickTakesOne(qs: seq<seq<FiberID>>, home: nat, finished: set<FiberID>, order: seq<nat>)
    requires home < |qs| && Shuffle(order, home, |qs|)
    ensures Picked(qs, home, finished, Pick(qs, home, finished, order).0, Pick(qs, home, finished, order).1)
  {
    var live := Live(qs[home], finished);
    var (t, got) := Pick(qs, home, finished, order);
    if live != [] {
      LiveOfLive(qs[home], finished, 1, |live|);
      hide Live;
      assert live[1..|live|] == live[1..] && live == [live[0]] + live[1..];
      assert TookHead(qs, t, finished, got.value, home);
    } else {
      var qs' := qs[home := []];
      EmptiedIsSame(qs, finished, home);
      StealTakesOne(qs', finished, order);
      hide Live;
      if got.Some? {
        var u :| u in order && TookTail(qs', t, finished, got.value, u);
        assert TookTail(qs, t, finished, got.value, u);
      }
    }
  }

  lemma NoneLeft(qs: seq<seq<FiberID>>, home: nat, finished: set<FiberID>, t: seq<seq<FiberID>>, got: Taken)
    requires Picked(qs, home, finished, t, got)
    ensures got.None? <==> forall v :: 0 <= v < |qs| ==> Live(qs[v], finished) == []
  {
  }

  /** Next fails exactly when no queue holds an unfinished fiber, and otherwise takes just one. */
  lemma NextTakesOne(s: WS, finished: set<FiberID>, order: seq<nat>)
    requires Inv(s) && Shuffle(order, Home(s.next, |s.queues|), |s.queues|)
    ensures var (t, got) := Next(s, finished, order);
      && Picked(s.queues, Home(s.next, |s.queues|), finished, t.queues, got)
      && (got.None? <==> forall v :: 0 <= v < |s.queues| ==> Live(s.queues[v], finished) == [])
  {
    var (t, got) := Next(s, finished, order);
    PickTakesOne(s.queues, Home(s.next, |s.queues|), finished, order);
    NoneLeft(s.queues, Home(s.next, |s.queues|), finished, t.queues, got);
  }
}
