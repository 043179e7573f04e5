/**
 Concurrent callers of the WorkStealingScheduler (internal/scheduler/workstealing.go).  Every
 worker queue has its own lock, so a Next call is a sequence of visits, one lock region each,
 and other calls come in between.  One step per lock region or atomic operation; a run is any
 sequence of steps, so the results hold for every interleaving, every shuffle and every choice
 that the unlocked scan of Schedule may make.
 */
module ConcurrentStealing {
  import opened Fibers
  import opened Sequences
  import opened WorkStealing

  /** A Next call: the workers in the order in which it visits them, and how far it has come. */
  datatype NextCall = NextCall(order: seq<nat>, at: nat, got: Taken)

  datatype State = State(
    queues: seq<seq<FiberID>>,
    next: nat,
    finished: set<FiberID>,                // fibers whose function has returned
    calls: map<nat, NextCall>,             // every Next call so far
    scheduled: multiset<FiberID>,          // history: appended to some queue
    returned: multiset<FiberID>,           // history: returned by some Next
    filtered: multiset<FiberID>,           // history: dropped as finished by some Next
    withdrawn: multiset<FiberID>)          // history: taken out by Remove, BlockFiber, MarkCompleted or Clear

  datatype Op =
    | Append(v: nat, g: FiberID)           // the last region of Schedule and UnblockFiber
    | Begin(c: nat, shuffle: seq<nat>)     // Next takes its turn; the victims come in this order
    | Visit(c: nat)                        // the next lock region of the call
    | Splice(v: nat, g: FiberID)           // the region of Remove or BlockFiber that finds the fiber
    | Purge(v: nat, g: FiberID)            // one region of MarkCompleted
    | Wipe(v: nat)                         // one region of Clear
    | Finish(g: FiberID)                   // a fiber function returns

  function New(w: nat): State {
    State(seq(w, _ => []), 0, {}, map[], multiset{}, multiset{}, multiset{}, multiset{})
  }

  /** The call has looked everywhere in vain. */
  predicate Failed(call: NextCall) { call.got.None? && call.at == |call.order| }

  /** What filtering `q` drops. */
  function Discarded(q: seq<FiberID>, finished: set<FiberID>): multiset<FiberID> {
    multiset(q) - multiset(Live(q, finished))
  }

  /** One visit: the head at home, the tail with a victim, or on to the next worker. */
  function VisitNext(s: State, c: nat): State
    requires c in s.calls && s.calls[c].at < |s.calls[c].order| && s.calls[c].order[s.calls[c].at] < |s.queues|
  {
    var call := s.calls[c];
    var v := call.order[call.at];
    var live := Live(s.queues[v], s.finished);
    var s0 := s.(filtered := s.filtered + Discarded(s.queues[v], s.finished));
    if live == [] then
      s0.(queues := s.queues[v := []], calls := s.calls[c := call.(at := call.at + 1)])
    else
      var n := |live| - 1;
      var (x, rest) := if call.at == 0 then (live[0], live[1..]) else (live[n], live[..n]);
      s0.(queues := s.queues[v := rest], calls := s.calls[c := call.(got := Some(x))],
          returned := s.returned + multiset{x})
  }

  ghost function Apply(s: State, op: Op): State {
    match op
    case Append(v, g) =>
      if v < |s.queues| then
        s.(queues := s.queues[v := s.queues[v] + [g]], scheduled := s.scheduled + multiset{g})
      else s
    case Begin(c, shuffle) =>
      if c !in s.calls && 0 < |s.queues| && Shuffle(shuffle, Home(s.next, |s.queues|), |s.queues|) then
        s.(next := (s.next + 1) % WORD,
           calls := s.calls[c := NextCall([Home(s.next, |s.queues|)] + shuffle, 0, None)])
      else s
    case Visit(c) =>
      if c in s.calls && s.calls[c].got.None? && s.calls[c].at < |s.calls[c].order|
         && s.calls[c].order[s.calls[c].at] < |s.queues| then
        VisitNext(s, c)
      else s
    case Splice(v, g) =>
      if v < |s.queues| && g in s.queues[v] then
        s.(queues := s.queues[v := Without(s.queues[v], g)], withdrawn := s.withdrawn + multiset{g})
      else s
    case Purge(v, g) =>
      if v < |s.queues| then
        s.(queues := s.queues[v := Live(s.queues[v], {g})],
           withdrawn := s.withdrawn + Discarded(s.queues[v], {g}))
      else s
    case Wipe(v) =>
      if v < |s.queues| then s.(queues := s.queues[v := []], withdrawn := s.withdrawn + multiset(s.queues[v])) else s
    case Finish(g) => s.(finished := s.finished + {g})
  }

  ghost function After(s: State, ops: seq<Op>): State
    decreases |ops|
  {
    if ops == [] then s else Apply(After(s, ops[..|ops| - 1]), ops[|ops| - 1])
  }

  // ---- Filtering, fiber by fiber ----

  lemma DiscardedCount(q: seq<FiberID>, finished: set<FiberID>, g: FiberID)
    ensures multiset(Live(q, finished))[g] + Discarded(q, finished)[g] == multiset(q)[g]
    ensures Discarded(q, finished)[g] > 0 ==> g in finished
  {
    LiveCount(q, finished, g);
  }

  lemma LiveMember(q: seq<FiberID>, finished: set<FiberID>, g: FiberID)
    ensures g in Live(q, finished) <==> g in q && g !in finished
  {
    LiveCount(q, finished, g);
    assert g in Live(q, finished) <==> multiset(Live(q, finished))[g] > 0;
    assert g in q <==> multiset(q)[g] > 0;
  }

  // ---- Conservation ----

  lemma {:induction false} NothingQueued(w: nat, g: FiberID)
    ensures Queued(New(w).queues, g) == 0
    decreases w
  {
    if w > 0 {
      NothingQueued(w - 1, g);
      assert New(w).queues[..w - 1] == New(w - 1).queues;
    }
  }

  /** The calls that returned the fiber. */
  function Fetchers(s: State, g: FiberID): set<nat> { set c | c in s.calls && s.calls[c].got == Some(g) }

  /** Every appended fiber is queued, was returned to one call, was dropped as finished or was taken out. */
  ghost predicate Balanced(s: State, g: FiberID) {
    && s.scheduled[g] == Queued(s.queues, g) + s.returned[g] + s.filtered[g] + s.withdrawn[g]
    && s.returned[g] == |Fetchers(s, g)|
    && (s.filtered[g] > 0 ==> g in s.finished)
  }

  /** One queue changes, and the histories account for it. */
  lemma ChangeBalances(s: State, t: State, v: nat, g: FiberID)
    requires Balanced(s, g) && v < |s.queues| == |t.queues| && t.queues == s.queues[v := t.queues[v]]
    requires t.scheduled[g] + multiset(s.queues[v])[g] + s.returned[g] + s.filtered[g] + s.withdrawn[g]
      == s.scheduled[g] + multiset(t.queues[v])[g] + t.returned[g] + t.filtered[g] + t.withdrawn[g]
    requires t.returned[g] + |Fetchers(s, g)| == s.returned[g] + |Fetchers(t, g)|
    requires t.finished >= s.finished && (t.filtered[g] > s.filtered[g] ==> g in t.finished)
    ensures Balanced(t, g)
  {
    QueuedUpdate(s.queues, v, t.queues[v], g);
    hide Queued; hide Fetchers;
  }

  lemma FetchersGrow(s: State, t: State, c: nat, x: Taken, g: FiberID)
    requires c in s.calls && c in t.calls && s.calls[c].got.None?
    requires t.calls == s.calls[c := t.calls[c]] && t.calls[c].got == x
    ensures |Fetchers(t, g)| == |Fetchers(s, g)| + if x == Some(g) then 1 else 0
  {
    assert Fetchers(t, g) == if x == Some(g) then Fetchers(s, g) + {c} else Fetchers(s, g);
  }

  lemma VisitBalances(s: State, c: nat, g: FiberID)
    requires Balanced(s, g) && c in s.calls && s.calls[c].got.None?
    requires s.calls[c].at < |s.calls[c].order| && s.calls[c].order[s.calls[c].at] < |s.queues|
    ensures Balanced(VisitNext(s, c), g)
  {
    var call, t := s.calls[c], VisitNext(s, c);
    var v := call.order[call.at];
    var live := Live(s.queues[v], s.finished);
    DiscardedCount(s.queues[v], s.finished, g);
    hide Live; hide Queued; hide Discarded; hide Balanced; hide Fetchers;
    if live != [] { TakenCount(live, call.at == 0, g); }
    FetchersGrow(s, t, c, t.calls[c].got, g);
    ChangeBalances(s, t, v, g);
  }

  /** Taking an end off a queue takes one fiber. */
  lemma TakenCount(live: seq<FiberID>, head: bool, g: FiberID)
    requires live != []
    ensures var n := |live| - 1;
      var (x, rest) := if head then (live[0], live[1..]) else (live[n], live[..n]);
      multiset(rest)[g] + multiset{x}[g] == multiset(live)[g]
  {
    var n := |live| - 1;
    assert live == [live[0]] + live[1..];
    assert live == live[..n] + [live[n]];
  }

  lemma SameCallsBalance(s: State, t: State, g: FiberID)
    requires t.calls == s.calls
    ensures |Fetchers(t, g)| == |Fetchers(s, g)|
  {
    assert Fetchers(t, g) == Fetchers(s, g);
  }

  lemma BeginBalances(s: State, t: State, c: nat, g: FiberID)
    requires Balanced(s, g) && c !in s.calls && c in t.calls && t.calls[c].got.None?
    requires t == s.(next := t.next, calls := s.calls[c := t.calls[c]])
    ensures Balanced(t, g)
  {
    assert Fetchers(t, g) == Fetchers(s, g);
    hide Queued;
  }

  lemma AppendCount(q: seq<FiberID>, x: FiberID, g: FiberID)
    ensures multiset(q + [x])[g] == multiset(q)[g] + multiset{x}[g]
  {
    assert multiset(q + [x]) == multiset(q) + multiset{x};
  }

  lemma AppendBalances(s: State, v: nat, x: FiberID, g: FiberID)
    requires Balanced(s, g) && v < |s.queues|
    ensures Balanced(Apply(s, Append(v, x)), g)
  {
    var q := s.queues[v] + [x];
    var t := s.(queues := s.queues[v := q], scheduled := s.scheduled + multiset{x});
    assert t == Apply(s, Append(v, x));
    hide Apply; hide Balanced; hide Fetchers;
    AppendCount(s.queues[v], x, g);
    assert (s.scheduled + multiset{x})[g] == s.scheduled[g] + multiset{x}[g];
    assert t.queues[v] == q;
    SameCallsBalance(s, t, g);
    ChangeBalances(s, t, v, g);
  }

  lemma SpliceBalances(s: State, v: nat, x: FiberID, g: FiberID)
    requires Balanced(s, g) && v < |s.queues| && x in s.queues[v]
    ensures Balanced(Apply(s, Splice(v, x)), g)
  {
    var q := Without(s.queues[v], x);
    var t := s.(queues := s.queues[v := q], withdrawn := s.withdrawn + multiset{x});
    assert t == Apply(s, Splice(v, x));
    hide Apply; hide Balanced; hide Fetchers; hide Without;
    SpliceCount(s.queues[v], q, x, g);
    assert (s.withdrawn + multiset{x})[g] == s.withdrawn[g] + multiset{x}[g];
    assert t.queues[v] == q;
    SameCallsBalance(s, t, g);
    ChangeBalances(s, t, v, g);
  }

  lemma PurgeBalances(s: State, v: nat, x: FiberID, g: FiberID)
    requires Balanced(s, g) && v < |s.queues|
    ensures Balanced(Apply(s, Purge(v, x)), g)
  {
    var q, d := Live(s.queues[v], {x}), Discarded(s.queues[v], {x});
    var t := s.(queues := s.queues[v := q], withdrawn := s.withdrawn + d);
    assert t == Apply(s, Purge(v, x));
    hide Apply; hide Balanced; hide Fetchers; hide Live; hide Discarded;
    DiscardedCount(s.queues[v], {x}, g);
    assert (s.withdrawn + d)[g] == s.withdrawn[g] + d[g];
    assert t.queues[v] == q;
    SameCallsBalance(s, t, g);
    ChangeBalances(s, t, v, g);
  }

  lemma WipeBalances(s: State, v: nat, g: FiberID)
    requires Balanced(s, g) && v < |s.queues|
    ensures Balanced(Apply(s, Wipe(v)), g)
  {
    var d := multiset(s.queues[v]);
    var t := s.(queues := s.queues[v := []], withdrawn := s.withdrawn + d);
    assert t == Apply(s, Wipe(v));
    hide Apply; hide Balanced; hide Fetchers;
    assert (s.withdrawn + d)[g] == s.withdrawn[g] + d[g];
    assert t.queues[v] == [];
    SameCallsBalance(s, t, g);
    ChangeBalances(s, t, v, g);
  }

  lemma StepBalances(s: State, op: Op, g: FiberID)
    requires Balanced(s, g)
    ensures Balanced(Apply(s, op), g)
  {
    if Apply(s, op) != s {
      hide Live; hide Queued; hide Discarded; hide Without; hide VisitNext; hide Balanced; hide Fetchers; hide Shuffle;
      match op
      case Append(v, x) => AppendBalances(s, v, x, g);
      case Begin(c, shuffle) => BeginBalances(s, Apply(s, op), c, g);
      case Visit(c) => VisitBalances(s, c, g);
      case Splice(v, x) => SpliceBalances(s, v, x, g);
      case Purge(v, x) => PurgeBalances(s, v, x, g);
      case Wipe(v) => WipeBalances(s, v, g);
      case Finish(x) => FinishBalances(s, x, g);
    }
  }

  lemma FinishBalances(s: State, x: FiberID, g: FiberID)
    requires Balanced(s, g)
    ensures Balanced(s.(finished := s.finished + {x}), g)
  {
    SameCallsBalance(s, s.(finished := s.finished + {x}), g);
    hide Queued; hide Fetchers;
  }

  /**
   Over every interleaving nothing is lost or duplicated: each fiber is in the queues and
   returned, all told, as often as it was scheduled, less what was dropped as finished or
   taken out; a fiber is returned to as many Next calls as `returned` counts.
   */
  lemma {:induction false} NothingLostOrDuplicated(w: nat, ops: seq<Op>, g: FiberID)
    ensures Balanced(After(New(w), ops), g)
    decreases |ops|
  {
    hide Apply;
    if ops == [] {
      NothingQueued(w, g);
      assert Fetchers(New(w), g) == {};
    } else {
      NothingLostOrDuplicated(w, ops[..|ops| - 1], g);
      StepBalances(After(New(w), ops[..|ops| - 1]), ops[|ops| - 1], g);
    }
  }

  lemma TwoOf(a: nat, b: nat, s: set<nat>)
    requires a in s && b in s
    ensures a != b ==> |s| >= 2
  {
    if a != b { assert s == {a, b} + (s - {a, b}); }
  }

  /** A fiber scheduled once is returned to one call at most, however many call Next at a time. */
  lemma NoTwoCallsShare(w: nat, ops: seq<Op>, g: FiberID, c: nat, d: nat)
    ensures var s := After(New(w), ops);
      s.scheduled[g] <= 1 && c in Fetchers(s, g) && d in Fetchers(s, g) ==> c == d
  {
    hide After; hide Queued;
    NothingLostOrDuplicated(w, ops, g);
    var s := After(New(w), ops);
    if s.scheduled[g] <= 1 && c in Fetchers(s, g) && d in Fetchers(s, g) { TwoOf(c, d, Fetchers(s, g)); }
  }

  // ---- What a failing Next can have missed ----

  /** The call visits every worker. */
  ghost predicate CallOk(call: NextCall, w: nat) {
    && call.at <= |call.order| && (forall k :: 0 <= k < |call.order| ==> call.order[k] < w)
    && forall v :: 0 <= v < w ==> v in call.order
  }

  /** What is unfinished in the queues that the call has visited was appended along `ops`. */
  ghost predicate CameLater(s: State, c: nat, ops: seq<Op>) {
    c in s.calls ==>
      && CallOk(s.calls[c], |s.queues|)
      && (s.calls[c].got.None? ==> forall k :: 0 <= k < s.calls[c].at ==> NewIn(s, s.calls[c].order[k], ops))
  }

  ghost predicate NewIn(s: State, v: nat, ops: seq<Op>) {
    v < |s.queues| ==> forall g :: g in s.queues[v] && g !in s.finished ==> Append(v, g) in ops
  }

  /** No step but an Append puts a fiber into a queue. */
  lemma OnlyAppends(s: State, op: Op, v: nat, g: FiberID)
    requires v < |s.queues| && g in Apply(s, op).queues[v] && g !in Apply(s, op).finished
    ensures |Apply(s, op).queues| == |s.queues| && g !in s.finished && (g in s.queues[v] || op == Append(v, g))
  {
    hide Discarded; hide Live;
    match op
    case Visit(c) =>
      if c in s.calls && s.calls[c].at < |s.calls[c].order| && s.calls[c].order[s.calls[c].at] < |s.queues| {
        LiveMember(s.queues[s.calls[c].order[s.calls[c].at]], s.finished, g);
      }
    case Purge(u, x) => if u < |s.queues| { LiveMember(s.queues[u], {x}, g); }
    case _ =>
  }

  lemma StaysNew(s: State, op: Op, v: nat, ops: seq<Op>)
    requires NewIn(s, v, ops)
    ensures NewIn(Apply(s, op), v, ops + [op])
  {
    var t := Apply(s, op);
    SameWorkers(s, op);
    if v < |t.queues| {
      forall g | g in t.queues[v] && g !in t.finished ensures Append(v, g) in ops + [op] { OnlyAppends(s, op, v, g); }
    }
  }

  lemma SameWorkers(s: State, op: Op)
    ensures |Apply(s, op).queues| == |s.queues|
  {
    hide Live; hide Discarded; hide Without;
  }

  /** What a step does to the call itself. */
  lemma CallGoesOn(s: State, op: Op, c: nat)
    requires c in s.calls
    ensures var t := Apply(s, op); c in t.calls && t.calls[c].order == s.calls[c].order
    ensures var t := Apply(s, op);
      t.calls[c] == s.calls[c] || (s.calls[c].got.None? && t.calls[c].got.Some? && t.calls[c].at == s.calls[c].at)
      || (op == Visit(c) && s.calls[c].at < |s.calls[c].order| && t.calls[c] == s.calls[c].(at := s.calls[c].at + 1)
          && s.calls[c].order[s.calls[c].at] < |t.queues| && t.queues[s.calls[c].order[s.calls[c].at]] == [])
  {
    hide Live; hide Discarded; hide Without;
  }

  lemma BeginsOk(s: State, op: Op, c: nat)
    requires c !in s.calls && c in Apply(s, op).calls
    ensures var t := Apply(s, op); CallOk(t.calls[c], |t.queues|) && t.calls[c].at == 0 < |t.calls[c].order|
  {
    hide Live; hide Discarded; hide Without;
    assert op.Begin? && op.c == c;
    var w := |s.queues|;
    var home := Home(s.next, w);
    var order := [home] + op.shuffle;
    forall v | 0 <= v < w ensures v in order {
      if v == home { assert order[0] == v; } else { assert v in op.shuffle; }
    }
  }

  lemma EmptyIsNew(s: State, v: nat, ops: seq<Op>)
    requires v < |s.queues| ==> s.queues[v] == []
    ensures NewIn(s, v, ops)
  {
  }

  lemma StepCameLater(s: State, op: Op, c: nat, ops: seq<Op>)
    requires CameLater(s, c, ops)
    ensures CameLater(Apply(s, op), c, ops + [op])
  {
    var t := Apply(s, op);
    hide Apply; hide NewIn;
    SameWorkers(s, op);
    if c in s.calls {
      CallGoesOn(s, op, c);
      forall k | t.calls[c].got.None? && 0 <= k < t.calls[c].at
        ensures NewIn(t, t.calls[c].order[k], ops + [op])
      {
        if k < s.calls[c].at {
          StaysNew(s, op, s.calls[c].order[k], ops);
        } else {
          EmptyIsNew(t, s.calls[c].order[k], ops + [op]);
        }
      }
    } else if c in t.calls {
      BeginsOk(s, op, c);
    }
  }

  lemma {:induction false} RunCameLater(s: State, ops: seq<Op>, c: nat)
    requires c !in s.calls
    ensures CameLater(After(s, ops), c, ops)
    decreases |ops|
  {
    hide Apply; hide CameLater;
    if ops == [] {
      NotBegun(s, c);
    } else {
      var n := |ops| - 1;
      RunCameLater(s, ops[..n], c);
      StepCameLater(After(s, ops[..n]), ops[n], c, ops[..n]);
      assert ops == ops[..n] + [ops[n]];
    }
  }

  lemma NotBegun(s: State, c: nat)
    requires c !in s.calls
    ensures CameLater(s, c, [])
  {
  }

  lemma {:induction false} WorkersStay(s: State, ops: seq<Op>)
    ensures |After(s, ops).queues| == |s.queues|
    decreases |ops|
  {
    hide Apply;
    if ops != [] {
      WorkersStay(s, ops[..|ops| - 1]);
      SameWorkers(After(s, ops[..|ops| - 1]), ops[|ops| - 1]);
    }
  }

  /**
   Over every interleaving: an unfinished fiber that is in a queue when a Next call has failed
   was put there during the call.  So a call that fails has missed no fiber that stood in a
   queue all along, and with nothing appended meanwhile there is none left anywhere.
   */
  lemma FailedMissesOnlyNewcomers(s: State, ops: seq<Op>, c: nat, v: nat, g: FiberID)
    requires c !in s.calls
    ensures var t := After(s, ops);
      c in t.calls && Failed(t.calls[c]) && v < |t.queues| && g in t.queues[v] && g !in t.finished ==>
        Append(v, g) in ops
  {
    RunCameLater(s, ops, c);
    hide After;
    var t := After(s, ops);
    if c in t.calls && Failed(t.calls[c]) && v < |t.queues| {
      assert v in t.calls[c].order;
      var k :| 0 <= k < |t.calls[c].order| && t.calls[c].order[k] == v;
      assert NewIn(t, t.calls[c].order[k], ops);
    }
  }

  // ---- A call that nobody interrupts ----

  /** `n` visits of one call. */
  function Visits(c: nat, n: nat): seq<Op> { seq(n, _ => Visit(c)) }

  lemma AfterVisits(s: State, c: nat, n: nat)
    ensures After(s, Visits(c, n + 1)) == Apply(After(s, Visits(c, n)), Visit(c))
  {
    assert Visits(c, n + 1)[..n] == Visits(c, n);
  }

  lemma {:induction false} AfterConcat(s: State, a: seq<Op>, b: seq<Op>)
    ensures After(s, a + b) == After(After(s, a), b)
    decreases |b|
  {
    hide Apply;
    if b == [] {
      assert a + b == a;
    } else {
      var n := |b| - 1;
      AfterConcat(s, a, b[..n]);
      assert (a + b)[..|a| + n] == a + b[..n] && (a + b)[|a| + n] == b[n];
    }
  }

  lemma AfterOne(s: State, op: Op, ops: seq<Op>)
    ensures After(s, [op] + ops) == After(Apply(s, op), ops)
  {
    AfterConcat(s, [op], ops);
    hide Apply;
    assert [op][..0] == [] && After(s, [op]) == Apply(After(s, []), op);
  }

  lemma {:induction false} DoneStays(s: State, c: nat, n: nat)
    requires c in s.calls && (s.calls[c].got.Some? || s.calls[c].at == |s.calls[c].order|)
    ensures After(s, Visits(c, n)) == s
    decreases n
  {
    if n > 0 {
      AfterVisits(s, c, n - 1);
      DoneStays(s, c, n - 1);
    }
  }

  lemma VisitsSplit(c: nat, n: nat)
    requires n > 0
    ensures Visits(c, n) == [Visit(c)] + Visits(c, n - 1)
  {
  }

  lemma StealStep(qs: seq<seq<FiberID>>, finished: set<FiberID>, order: seq<nat>)
    requires order != [] && forall k :: 0 <= k < |order| ==> order[k] < |qs|
    ensures var v, live := order[0], Live(qs[order[0]], finished);
      Steal(qs, finished, order) ==
        if live == [] then Steal(qs[v := []], finished, order[1..])
        else (qs[v := live[..|live| - 1]], Some(live[|live| - 1]))
  {
    hide Live;
  }

  /** What one visit of a victim does. */
  lemma VictimVisit(s: State, c: nat)
    requires c in s.calls && s.calls[c].got.None? && 0 < s.calls[c].at < |s.calls[c].order|
    requires s.calls[c].order[s.calls[c].at] < |s.queues|
    ensures var call, t := s.calls[c], Apply(s, Visit(c));
      var v := call.order[call.at];
      var live := Live(s.queues[v], s.finished);
      && t.next == s.next && t.finished == s.finished && c in t.calls
      && t.queues == s.queues[v := if live == [] then [] else live[..|live| - 1]]
      && t.calls[c] == if live == [] then call.(at := call.at + 1) else call.(got := Some(live[|live| - 1]))
  {
    hide Live; hide Discarded;
  }

  /** The same in terms of the steal from the victims still to be visited. */
  lemma VisitIsStealStep(s: State, c: nat, todo: seq<nat>)
    requires c in s.calls && s.calls[c].got.None? && 0 < s.calls[c].at < |s.calls[c].order|
    requires todo != [] && todo[0] == s.calls[c].order[s.calls[c].at]
    requires forall k :: 0 <= k < |todo| ==> todo[k] < |s.queues|
    ensures var call, t := s.calls[c], Apply(s, Visit(c));
      && t.next == s.next && t.finished == s.finished && |t.queues| == |s.queues| && c in t.calls
      && (if t.calls[c].got.None? then
            && t.calls[c] == call.(at := call.at + 1)
            && Steal(s.queues, s.finished, todo) == Steal(t.queues, s.finished, todo[1..])
          else Steal(s.queues, s.finished, todo) == (t.queues, t.calls[c].got))
  {
    VictimVisit(s, c);
    StealStep(s.queues, s.finished, todo);
    hide Live; hide Apply; hide Steal;
  }

  lemma NobodyLeft(s: State, c: nat)
    ensures After(s, Visits(c, 0)) == s && Steal(s.queues, s.finished, []) == (s.queues, None)
  {
  }

  /** The victims still to be visited, without interruption, are a steal. */
  lemma {:induction false} VisitsAreSteal(s: State, c: nat, todo: seq<nat>)
    requires c in s.calls && s.calls[c].got.None? && 0 < s.calls[c].at <= |s.calls[c].order|
    requires todo == s.calls[c].order[s.calls[c].at..] && forall k :: 0 <= k < |todo| ==> todo[k] < |s.queues|
    ensures var t, r := After(s, Visits(c, |todo|)), Steal(s.queues, s.finished, todo);
      t.queues == r.0 && t.next == s.next && c in t.calls && t.calls[c].got == r.1
    decreases |todo|
  {
    hide Steal; hide After; hide Apply; hide Visits;
    if todo == [] {
      NobodyLeft(s, c);
    } else {
      var n, t := |todo|, Apply(s, Visit(c));
      VisitsSplit(c, n);
      AfterOne(s, Visit(c), Visits(c, n - 1));
      VisitIsStealStep(s, c, todo);
      if t.calls[c].got.None? {
        assert todo[1..] == t.calls[c].order[t.calls[c].at..];
        VisitsAreSteal(t, c, todo[1..]);
      } else {
        DoneStays(t, c, n - 1);
      }
    }
  }

  /** A call that no other step interrupts does what the sequential Next does. */
  lemma UninterruptedIsNext(s: State, c: nat, shuffle: seq<nat>)
    requires c !in s.calls && 0 < |s.queues| && Shuffle(shuffle, Home(s.next, |s.queues|), |s.queues|)
    ensures var t := After(s, [Begin(c, shuffle)] + Visits(c, |shuffle| + 1));
      var (ws, got) := Next(WS(s.queues, s.next), s.finished, shuffle);
      t.queues == ws.queues && t.next == ws.next && c in t.calls && t.calls[c].got == got
  {
    hide Live; hide Discarded; hide After; hide Home; hide Steal;
    var n := |shuffle|;
    var s1 := Apply(s, Begin(c, shuffle));
    var s2 := Apply(s1, Visit(c));
    AfterOne(s, Begin(c, shuffle), Visits(c, n + 1));
    VisitsSplit(c, n + 1);
    AfterOne(s1, Visit(c), Visits(c, n));
    if Live(s.queues[Home(s.next, |s.queues|)], s.finished) == [] {
      assert s2.calls[c].order[1..] == shuffle;
      VisitsAreSteal(s2, c, shuffle);
    } else {
      DoneStays(s2, c, n);
    }
  }
}
