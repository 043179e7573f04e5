/**
 Anti-starvation of the priority scheduler: how long a queued fiber can wait while others
 keep arriving, and exactly when the cap on aging leaves room for that bound.
 */
module Starvation {
  import opened Fibers
  import opened Heaps
  import opened PriorityQueues
  import opened PriorityRuns

  /** An entry of fiber `f` with priority at least `p` is queued. */
  ghost predicate Waits(es: seq<Entry>, f: FiberID, p: int) {
    exists k :: 0 <= k < |es| && es[k].id == f && es[k].priority >= p
  }

  /** The step neither returns nor removes nor rekeys fiber `f`, which has not finished. */
  predicate Spares(st: Step, f: FiberID) {
    match st
    case Insert(_) => true
    case Next(finished, got) => f !in finished && got.id != f
    case NextEmpty(finished) => f !in finished
    case Rekey(x, _) => x.id != f
    case Drop(x) => x.id != f
    case Keep => true
  }

  /** Priorities that the step brings in are at most `top`. */
  predicate Bounded(st: Step, top: int) {
    match st
    case Insert(e) => e.priority <= top
    case Rekey(_, priority) => priority <= top
    case _ => true
  }

  function CountAbove(es: seq<Entry>, level: int): (c: nat)
    ensures c <= |es|
  {
    if es == [] then 0
    else CountAbove(es[..|es| - 1], level) + if es[|es| - 1].priority > level then 1 else 0
  }

  lemma CountPush(es: seq<Entry>, x: Entry, level: int)
    ensures CountAbove(es + [x], level) == CountAbove(es, level) + if x.priority > level then 1 else 0
  {
    assert (es + [x])[..|es|] == es;
  }

  lemma {:induction false} CountWithout(es: seq<Entry>, k: nat, level: int)
    requires k < |es|
    ensures CountAbove(es, level)
      == CountAbove(es[..k] + es[k + 1..], level) + if es[k].priority > level then 1 else 0
    decreases |es|
  {
    var n := |es| - 1;
    if k == n {
      assert es[..k] + es[k + 1..] == es[..n];
    } else {
      CountWithout(es[..n], k, level);
      assert es[..k] + es[k + 1..] == (es[..n][..k] + es[..n][k + 1..]) + [es[n]];
      CountPush(es[..n][..k] + es[..n][k + 1..], es[n], level);
    }
  }

  /** Counting does not depend on the heap's arrangement. */
  lemma {:induction false} CountPermutes(a: seq<Entry>, b: seq<Entry>, level: int)
    requires multiset(a) == multiset(b)
    ensures CountAbove(a, level) == CountAbove(b, level)
    decreases |a|
  {
    if a == [] {
      assert |b| == |multiset(b)| == |multiset(a)| == 0;
    } else {
      var n := |a| - 1;
      assert a[n] in multiset(b);
      var k :| 0 <= k < |b| && b[k] == a[n];
      TakeOut(b, k);
      TakeOut(a, n);
      assert a[..n] + a[n + 1..] == a[..n];
      Cancel(multiset(a[..n]), multiset(b[..k] + b[k + 1..]), a[n]);
      CountPermutes(a[..n], b[..k] + b[k + 1..], level);
      CountWithout(b, k, level);
    }
  }

  lemma CountPlus(a: seq<Entry>, b: seq<Entry>, x: Entry, level: int)
    requires multiset(a) == multiset(b) + multiset{x}
    ensures CountAbove(a, level) == CountAbove(b, level) + if x.priority > level then 1 else 0
  {
    CountPermutes(a, b + [x], level);
    CountPush(b, x, level);
  }

  lemma {:induction false} CountUnfinished(es: seq<Entry>, finished: set<FiberID>, level: int)
    ensures CountAbove(Unfinished(es, finished), level) <= CountAbove(es, level)
    decreases |es|
  {
    if es != [] {
      var n := |es| - 1;
      var live := Unfinished(es[..n], finished);
      CountUnfinished(es[..n], finished, level);
      if es[n].id in finished {
        assert Unfinished(es, finished) == live;
      } else {
        assert Unfinished(es, finished) == live + [es[n]];
        CountPush(live, es[n], level);
      }
    }
  }

  lemma {:induction false} CountAged(es: seq<Entry>, level: int)
    ensures CountAbove(Aged(es), level + 1) <= CountAbove(es, level)
    decreases |es|
  {
    if es != [] {
      var n := |es| - 1;
      CountAged(es[..n], level);
      assert Aged(es)[..n] == Aged(es[..n]);
    }
  }

  /** At the cap or above nothing rises. */
  lemma {:induction false} CountAgedAtCap(es: seq<Entry>, level: int)
    requires level >= MAX_PRIORITY
    ensures CountAbove(Aged(es), level) <= CountAbove(es, level)
    decreases |es|
  {
    if es != [] {
      var n := |es| - 1;
      CountAgedAtCap(es[..n], level);
      assert Aged(es)[..n] == Aged(es[..n]);
    }
  }

  lemma {:induction false} CountWaiting(es: seq<Entry>, f: FiberID, level: int)
    requires Waits(es, f, level + 1)
    ensures CountAbove(es, level) >= 1
  {
    var k :| 0 <= k < |es| && es[k].id == f && es[k].priority >= level + 1;
    CountWithout(es, k, level);
  }

  lemma {:induction false} UnfinishedKeeps(es: seq<Entry>, finished: set<FiberID>, x: Entry)
    requires x in es && x.id !in finished
    ensures x in Unfinished(es, finished)
    decreases |es|
  {
    var n := |es| - 1;
    if es[n] != x {
      UnfinishedKeeps(es[..n], finished, x);
    }
  }

  /**
   How far a level is lifted by a step that raises priorities by `rise`: with the entries while
   there is room below the cap, not at all from the cap on.
   */
  predicate Lifts(level: int, up: int, rise: int) {
    (up == rise && level + 1 + rise <= MAX_PRIORITY) || (up == 0 && level >= MAX_PRIORITY)
  }

  lemma CandidatesWait(s: Q, finished: set<FiberID>, f: FiberID, p: int, up: int)
    requires Waits(s.entries, f, p) && f !in finished && 0 <= up && (up > 0 ==> p + up <= MAX_PRIORITY)
    requires up <= if (s.pops + 1) % AGE_EVERY == 0 then 1 else 0
    ensures Waits(Candidates(s, finished), f, p + up)
  {
    var k :| 0 <= k < |s.entries| && s.entries[k].id == f && s.entries[k].priority >= p;
    UnfinishedKeeps(s.entries, finished, s.entries[k]);
    var live := Unfinished(s.entries, finished);
    var j :| 0 <= j < |live| && live[j] == s.entries[k];
    assert Candidates(s, finished)[j].id == f;
  }

  /** Whoever is in `a` but is not `x` is in `b`. */
  lemma WaitsBeside(a: seq<Entry>, b: seq<Entry>, x: Entry, f: FiberID, p: int)
    requires multiset(a) <= multiset(b) + multiset{x} && x.id != f && Waits(a, f, p)
    ensures Waits(b, f, p)
  {
    var k :| 0 <= k < |a| && a[k].id == f && a[k].priority >= p;
    assert a[k] in multiset(a) && a[k] in multiset(b);
    var j :| 0 <= j < |b| && b[j] == a[k];
  }

  /** A spared fiber stays queued, never falls, and rises with every aging up to the cap. */
  lemma StepRaises(s: Q, st: Step, t: Q, f: FiberID, p: int, up: int)
    requires StepOk(s, st, t) && Spares(st, f) && Waits(s.entries, f, p)
    requires 0 <= up <= Rise(s, t) && (up > 0 ==> p + up <= MAX_PRIORITY)
    ensures Waits(t.entries, f, p + up)
  {
    RiseOfStep(s, st, t);
    match st
    case Insert(e) =>
      var k :| 0 <= k < |s.entries| && s.entries[k].id == f && s.entries[k].priority >= p;
      assert s.entries[k] in multiset(t.entries);
      var j :| 0 <= j < |t.entries| && t.entries[j] == s.entries[k];
    case Next(finished, got) =>
      CandidatesWait(s, finished, f, p, up);
      WaitsBeside(Candidates(s, finished), t.entries, got, f, p + up);
    case NextEmpty(finished) =>
      var k :| 0 <= k < |s.entries| && s.entries[k].id == f && s.entries[k].priority >= p;
      UnfinishedKeeps(s.entries, finished, s.entries[k]);
    case Rekey(x, priority) => WaitsBeside(s.entries, t.entries, x, f, p);
    case Drop(x) => WaitsBeside(s.entries, t.entries, x, f, p);
    case Keep =>
  }

  lemma CandidatesCount(s: Q, finished: set<FiberID>, level: int, up: int)
    requires Lifts(level, up, if (s.pops + 1) % AGE_EVERY == 0 then 1 else 0)
    ensures CountAbove(Candidates(s, finished), level + up) <= CountAbove(s.entries, level)
  {
    hide CountAbove; hide Unfinished; hide Aged;
    var live := Unfinished(s.entries, finished);
    CountUnfinished(s.entries, finished, level);
    CountAged(live, level);
    if level >= MAX_PRIORITY { CountAgedAtCap(live, level); }
  }

  /** A first entry is at least as high as any that waits. */
  lemma FirstIsAhead(es: seq<Entry>, x: Entry, f: FiberID, p: int)
    requires First(es, x) && Waits(es, f, p)
    ensures x.priority >= p
  {
    var k :| 0 <= k < |es| && es[k].id == f && es[k].priority >= p;
    assert !Less(es[k], x);
  }

  /** Every pop takes an entry that is ahead of fiber `f`. */
  lemma NextTakesOneAhead(s: Q, st: Step, t: Q, f: FiberID, level: int, up: int)
    requires st.Next? && StepOk(s, st, t) && Spares(st, f) && Waits(s.entries, f, level + 1)
    requires Lifts(level, up, Rise(s, t))
    ensures CountAbove(t.entries, level + up) + 1 <= CountAbove(s.entries, level)
  {
    RiseOfStep(s, st, t);
    var queue := Candidates(s, st.finished);
    hide CountAbove; hide Candidates; hide First; hide Waits; hide Rise;
    CandidatesWait(s, st.finished, f, level + 1, up);
    FirstIsAhead(queue, st.got, f, level + 1 + up);
    CountPlus(queue, t.entries, st.got, level + up);
    CandidatesCount(s, st.finished, level, up);
  }

  lemma StepKeepsAhead(s: Q, st: Step, t: Q, f: FiberID, level: int, top: int, up: int)
    requires StepOk(s, st, t) && Spares(st, f) && Bounded(st, top) && top <= level
    requires Waits(s.entries, f, level + 1) && Lifts(level, up, Rise(s, t))
    ensures CountAbove(t.entries, level + up) + (t.pops - s.pops) <= CountAbove(s.entries, level)
  {
    RiseOfStep(s, st, t);
    match st
    case Insert(e) => CountPlus(t.entries, s.entries, e, level);
    case Next(_, _) => NextTakesOneAhead(s, st, t, f, level, up);
    case NextEmpty(_) =>
    case Rekey(x, priority) =>
      CountPush(t.entries, x, level);
      CountPlus(t.entries + [x], s.entries, x.(priority := priority), level);
    case Drop(x) => CountPlus(s.entries, t.entries, x, level);
    case Keep =>
  }

  ghost predicate AllSpare(steps: seq<Step>, i: nat, k: nat, f: FiberID) {
    forall j :: i <= j < k && j < |steps| ==> Spares(steps[j], f)
  }

  ghost predicate AllBounded(steps: seq<Step>, top: int) {
    forall j :: 0 <= j < |steps| ==> Bounded(steps[j], top)
  }

  /** How far a level is lifted while the pop counter goes from `a` to `b`. */
  function Lift(level: int, a: nat, b: nat): int { if level >= MAX_PRIORITY then 0 else Agings(a, b) }

  lemma {:induction false} RunRaises(ss: seq<Q>, steps: seq<Step>, f: FiberID, p: int, i: nat, k: nat)
    requires Run(ss, steps) && i <= k <= |steps| && AllSpare(steps, i, k, f) && Waits(ss[i].entries, f, p)
    requires p > MAX_PRIORITY || p + Agings(ss[i].pops, ss[k].pops) <= MAX_PRIORITY
    ensures Waits(ss[k].entries, f, p + Lift(p - 1, ss[i].pops, ss[k].pops))
    decreases k
  {
    hide Agings; hide Waits; hide StepOk;
    if i == k {
      NoAging(ss[i].pops);
    } else {
      PopsGrow(ss, steps, k - 1, k);
      AgingsAdd(ss[i].pops, ss[k - 1].pops, ss[k].pops);
      RunRaises(ss, steps, f, p, i, k - 1);
      var up := if p > MAX_PRIORITY then 0 else Rise(ss[k - 1], ss[k]);
      StepRaises(ss[k - 1], steps[k - 1], ss[k], f, p + Lift(p - 1, ss[i].pops, ss[k - 1].pops), up);
    }
  }

  lemma {:induction false} RunKeepsAhead(ss: seq<Q>, steps: seq<Step>, f: FiberID, top: int, level: int, i: nat, k: nat)
    requires Run(ss, steps) && i <= k <= |steps| && AllSpare(steps, i, k, f) && AllBounded(steps, top)
    requires Waits(ss[i].entries, f, level + 1) && top <= level
    requires level >= MAX_PRIORITY || level + 1 + Agings(ss[i].pops, ss[k].pops) <= MAX_PRIORITY
    ensures CountAbove(ss[k].entries, level + Lift(level, ss[i].pops, ss[k].pops)) + (ss[k].pops - ss[i].pops)
      <= CountAbove(ss[i].entries, level)
    decreases k
  {
    hide Agings; hide Waits; hide StepOk; hide CountAbove;
    if i == k {
      NoAging(ss[i].pops);
    } else {
      PopsGrow(ss, steps, i, k - 1);
      PopsGrow(ss, steps, k - 1, k);
      AgingsAdd(ss[i].pops, ss[k - 1].pops, ss[k].pops);
      RunKeepsAhead(ss, steps, f, top, level, i, k - 1);
      RunRaises(ss, steps, f, level + 1, i, k - 1);
      var now := level + Lift(level, ss[i].pops, ss[k - 1].pops);
      var up := if level >= MAX_PRIORITY then 0 else Rise(ss[k - 1], ss[k]);
      StepKeepsAhead(ss[k - 1], steps[k - 1], ss[k], f, now, top, up);
    }
  }

  /** Above every arrival's priority, a fiber waits for fewer pops than the queue is long. */
  lemma WaitsLessThanQueue(ss: seq<Q>, steps: seq<Step>, f: FiberID, top: int, level: int, i: nat, k: nat)
    requires Run(ss, steps) && i <= k <= |steps| && AllSpare(steps, i, k, f) && AllBounded(steps, top)
    requires Waits(ss[i].entries, f, level + 1) && top <= level
    requires level >= MAX_PRIORITY || level + 1 + Agings(ss[i].pops, ss[k].pops) <= MAX_PRIORITY
    ensures ss[k].pops - ss[i].pops < |ss[i].entries|
  {
    RunKeepsAhead(ss, steps, f, top, level, i, k);
    RunRaises(ss, steps, f, level + 1, i, k);
    CountWaiting(ss[k].entries, f, level + Lift(level, ss[i].pops, ss[k].pops));
  }

  // ---- The bound ----

  /** Agings that lift priority `p` above `top`. */
  function Gap(p: int, top: int): nat { if p <= top then top - p + 1 else 0 }

  /**
   A run in which fiber `f` is queued with priority at least p, no arriving or updated priority
   exceeds `top`, and from `t` on, 100 pops for each step of the gap later, as many pops follow
   as the queue is long then.
   */
  ghost predicate LongRun(ss: seq<Q>, steps: seq<Step>, f: FiberID, p: int, top: int, t: nat) {
    && Run(ss, steps) && t <= |steps| && AllBounded(steps, top) && Waits(ss[0].entries, f, p)
    && ss[t].pops - ss[0].pops >= AGE_EVERY * Gap(p, top)
    && ss[|steps|].pops - ss[t].pops >= |ss[t].entries|
  }

  /** Some step returns, removes or rekeys `f`, or finds it finished. */
  ghost predicate Met(steps: seq<Step>, f: FiberID) { exists j :: 0 <= j < |steps| && !Spares(steps[j], f) }

  /**
   From pop count `a` and `n` queued fibers on, the cap does not let arrivals catch up with
   the fiber; a fiber above the cap is out of their reach anyway.
   */
  predicate Room(a: nat, n: nat, top: int, p: int) {
    top + Agings(a, a + n) < MAX_PRIORITY || (p > top && p > MAX_PRIORITY)
  }

  lemma {:induction false} ReturnedInTime(ss: seq<Q>, steps: seq<Step>, f: FiberID, p: int, top: int, t: nat)
    requires LongRun(ss, steps, f, p, top, t) && Room(ss[t].pops, |ss[t].entries|, top, p)
    ensures Met(steps, f)
  {
    if forall j :: 0 <= j < |steps| ==> Spares(steps[j], f) {
      var a, n := ss[t].pops, |ss[t].entries|;
      var k := ReachesPops(ss, steps, t, |steps|, a + n);
      if p > top && p > MAX_PRIORITY {
        RunRaises(ss, steps, f, p, 0, t);
        WaitsLessThanQueue(ss, steps, f, top, p - 1, t, k);
      } else {
        PopsGrow(ss, steps, 0, t);
        PopsGrow(ss, steps, t, k);
        var risen := Agings(ss[0].pops, a);
        AgingsOfPops(ss[0].pops, a, Gap(p, top));
        var from := if p + risen <= MAX_PRIORITY then p else MAX_PRIORITY - risen;
        RunRaises(ss, steps, f, from, 0, t);
        assert Waits(ss[t].entries, f, top + 1);
        WaitsLessThanQueue(ss, steps, f, top, top, t, k);
      }
      assert false;
    }
  }

  // ---- Where the cap leaves no room ----

  const FIBER: FiberID := 1
  const LATE: FiberID := 2

  /** Older fibers, as high as any arrival and at least at the cap. */
  function Filler(high: int, i: nat): Entry { Entry(3 + i, high, 0) }

  function Fillers(high: int, c: nat): (r: seq<Entry>)
    ensures |r| == c
  {
    seq(c, i requires 0 <= i => Filler(high, i))
  }

  /** Entries that fillers at `high` come before, aged or not. */
  ghost predicate Younger(rest: seq<Entry>, high: int) {
    forall i :: 0 <= i < |rest| ==> rest[i].priority <= high && rest[i].created > 0
  }

  lemma FillersDoNotAge(high: int, c: nat, rest: seq<Entry>, pops: nat)
    requires high >= MAX_PRIORITY
    ensures Candidates(Q(Fillers(high, c) + rest, pops), {})
      == Fillers(high, c) + AgedIf(rest, (pops + 1) % AGE_EVERY == 0)
  {
    var es := Fillers(high, c) + rest;
    CandidatesPlain(es, pops);
    assert Aged(es) == Fillers(high, c) + Aged(rest);
  }

  lemma FillerIsFirst(high: int, c: nat, aged: seq<Entry>)
    requires high >= MAX_PRIORITY && Younger(aged, high)
    ensures First(Fillers(high, c + 1) + aged, Filler(high, c))
  {
    var queue := Fillers(high, c + 1) + aged;
    forall k | 0 <= k < |queue| ensures !Less(queue[k], Filler(high, c)) {
      assert k > c ==> queue[k] == aged[k - c - 1];
    }
  }

  lemma FillerOut(high: int, c: nat, aged: seq<Entry>)
    ensures multiset(Fillers(high, c) + aged) + multiset{Filler(high, c)} == multiset(Fillers(high, c + 1) + aged)
  {
    assert Fillers(high, c + 1) + aged == Fillers(high, c) + [Filler(high, c)] + aged;
  }

  /** A pop that takes a filler. */
  lemma FillerGoes(high: int, c: nat, rest: seq<Entry>, pops: nat)
    requires high >= MAX_PRIORITY && Younger(rest, high)
    ensures StepOk(Q(Fillers(high, c + 1) + rest, pops), Next({}, Filler(high, c)),
                   Q(Fillers(high, c) + AgedIf(rest, (pops + 1) % AGE_EVERY == 0), pops + 1))
  {
    var aged := AgedIf(rest, (pops + 1) % AGE_EVERY == 0);
    assert Younger(aged, high);
    hide Candidates; hide First; hide Fillers; hide Younger; hide AgedIf;
    FillersDoNotAge(high, c + 1, rest, pops);
    FillerIsFirst(high, c, aged);
    FillerOut(high, c, aged);
  }

  /** The queue after `j` of `total` fillers are gone, starting at pop count `b`. */
  function Drawn(high: int, total: nat, rest: seq<Entry>, b: nat, j: nat): (q: Q)
    requires j <= total
  {
    Q(Fillers(high, total - j) + GrownAll(rest, AgingsIn(b, j)), b + j)
  }

  lemma GrownStaysYounger(rest: seq<Entry>, high: int, d: nat)
    requires high >= MAX_PRIORITY && Younger(rest, high)
    ensures Younger(GrownAll(rest, d), high)
  {
  }

  lemma DrawnStep(high: int, total: nat, rest: seq<Entry>, b: nat, j: nat)
    requires j < total && high >= MAX_PRIORITY && Younger(rest, high)
    ensures StepOk(Drawn(high, total, rest, b, j), Next({}, Filler(high, total - j - 1)),
                   Drawn(high, total, rest, b, j + 1))
  {
    hide StepOk; hide Fillers; hide GrownAll; hide Younger; hide AgedIf; hide AgingsIn;
    var d := AgingsIn(b, j);
    AgingsInNext(b, j);
    GrownAgain(rest, d, (b + j + 1) % AGE_EVERY == 0);
    GrownStaysYounger(rest, high, d);
    FillerGoes(high, total - j - 1, GrownAll(rest, d), b + j);
  }

  /** Draws `j` fillers, one Next each. */
  lemma {:induction false} Draw(high: int, total: nat, rest: seq<Entry>, b: nat, j: nat)
    returns (ss: seq<Q>, steps: seq<Step>)
    requires j <= total && high >= MAX_PRIORITY && Younger(rest, high)
    ensures Run(ss, steps) && |steps| == j
    ensures ss[0] == Drawn(high, total, rest, b, 0) && ss[j] == Drawn(high, total, rest, b, j)
    ensures forall i :: 0 <= i < j ==> steps[i].Next? && steps[i].finished == {} && steps[i].got.id > LATE
    decreases j
  {
    hide StepOk; hide Drawn;
    if j == 0 {
      ss, steps := [Drawn(high, total, rest, b, 0)], [];
    } else {
      var ss', steps' := Draw(high, total, rest, b, j - 1);
      DrawnStep(high, total, rest, b, j - 1);
      var st := Next({}, Filler(high, total - j));
      RunPush(ss', steps', st, Drawn(high, total, rest, b, j));
      ss, steps := ss' + [Drawn(high, total, rest, b, j)], steps' + [st];
    }
  }

  lemma SecondOut(f: Entry, y: Entry)
    ensures multiset([f]) + multiset{y} == multiset([f, y])
  {
  }

  /** At the end the late arrival, caught up and older, goes before the fiber. */
  lemma LateOvertakes(f: Entry, y: Entry, pops: nat, f': Entry, y': Entry)
    requires AgedIf([f, y], (pops + 1) % AGE_EVERY == 0) == [f', y']
    requires y'.priority >= f'.priority && y'.created < f'.created
    ensures StepOk(Q([f, y], pops), Next({}, y'), Q([f'], pops + 1))
  {
    assert First([f', y'], y');
    CandidatesPlain([f, y], pops);
    SecondOut(f', y');
    hide Candidates; hide AgedIf; hide First;
  }

  /** The first part: the fiber rises to just above `top`, if the cap lets it, while fillers are popped. */
  lemma FirstPart(a: nat, n: nat, top: int, p: int, high: int) returns (ss: seq<Q>, steps: seq<Step>)
    requires n >= 1 && a >= AGE_EVERY * Gap(p, top) && high >= MAX_PRIORITY && high >= p
    ensures var m := AGE_EVERY * Gap(p, top); var f := Entry(FIBER, p, 2);
      && Run(ss, steps) && |steps| == m
      && ss[0] == Drawn(high, m + n - 1, [f], a - m, 0)
      && ss[m] == Q(Fillers(high, n - 1) + [Grown(f, Gap(p, top))], a)
    ensures AllSpare(steps, 0, |steps|, FIBER) && AllBounded(steps, top)
  {
    var g, f := Gap(p, top), Entry(FIBER, p, 2);
    var m := AGE_EVERY * g;
    ss, steps := Draw(high, m + n - 1, [f], a - m, m);
    assert AgingsIn(a - m, m) == g;
    assert GrownAll([f], g) == [Grown(f, g)];
  }

  /** The second part: the late arrival comes, the other fillers go, and it is returned before the fiber. */
  lemma SecondPart(a: nat, n: nat, top: int, f: Entry, high: int) returns (ss: seq<Q>, steps: seq<Step>)
    requires n >= 1 && high >= MAX_PRIORITY && high >= f.priority && high >= top && f.id == FIBER && f.created == 2
    requires Grown(Entry(LATE, top, 1), AgingsIn(a, n)).priority >= Grown(f, AgingsIn(a, n)).priority
    ensures Run(ss, steps) && AllSpare(steps, 0, |steps|, FIBER) && AllBounded(steps, top)
    ensures ss[0] == Q(Fillers(high, n - 1) + [f], a) && ss[|steps|].pops == a + n
  {
    hide StepOk; hide Drawn; hide Fillers; hide Grown; hide AgingsIn; hide Candidates;
    var y := Entry(LATE, top, 1);
    assert Younger([f, y], high);
    var start := Q(Fillers(high, n - 1) + [f], a);
    var ss', steps' := Draw(high, n - 1, [f, y], a, n - 1);
    LateArrives(high, n, f, y, a);
    var ss1, steps1 := Prepend(start, Insert(y), ss', steps');
    var f', y' := Grown(f, AgingsIn(a, n)), Grown(y, AgingsIn(a, n));
    LastPop(high, n, f, y, a);
    RunPush(ss1, steps1, Next({}, y'), Q([f'], a + n));
    ss, steps := ss1 + [Q([f'], a + n)], steps1 + [Next({}, y')];
  }

  lemma LastPop(high: int, n: nat, f: Entry, y: Entry, a: nat)
    requires n >= 1 && y.created < f.created
    requires Grown(y, AgingsIn(a, n)).priority >= Grown(f, AgingsIn(a, n)).priority
    ensures var f', y' := Grown(f, AgingsIn(a, n)), Grown(y, AgingsIn(a, n));
      StepOk(Drawn(high, n - 1, [f, y], a, n - 1), Next({}, y'), Q([f'], a + n)) && y'.id == y.id
  {
    hide StepOk; hide AgingsIn; hide AgedIf;
    var d := AgingsIn(a, n - 1);
    var f', y' := Grown(f, AgingsIn(a, n)), Grown(y, AgingsIn(a, n));
    AgingsInNext(a, n - 1);
    GrownAgain([f, y], d, (a + n) % AGE_EVERY == 0);
    assert GrownAll([f, y], d) == [Grown(f, d), Grown(y, d)] && GrownAll([f, y], AgingsIn(a, n)) == [f', y'];
    assert Fillers(high, 0) + GrownAll([f, y], d) == GrownAll([f, y], d);
    LateOvertakes(Grown(f, d), Grown(y, d), a + n - 1, f', y');
  }

  lemma LateArrives(high: int, n: nat, f: Entry, y: Entry, a: nat)
    requires n >= 1
    ensures StepOk(Q(Fillers(high, n - 1) + [f], a), Insert(y), Drawn(high, n - 1, [f, y], a, 0))
  {
    AgingsInNext(a, 0);
    GrownOnce(f, 0);
    GrownOnce(y, 0);
    assert GrownAll([f, y], 0) == [f] + [y];
    assert Fillers(high, n - 1) + [f] + [y] == Fillers(high, n - 1) + ([f] + [y]);
  }

  /** Without room, a fiber can be passed over for longer than the bound. */
  lemma PassedOver(a: nat, n: nat, top: int, p: int) returns (ss: seq<Q>, steps: seq<Step>, t: nat)
    requires n >= 1 && a >= AGE_EVERY * Gap(p, top) && !Room(a, n, top, p)
    ensures LongRun(ss, steps, FIBER, p, top, t) && ss[t].pops == a && |ss[t].entries| == n
    ensures !Met(steps, FIBER)
  {
    var high := if top >= MAX_PRIORITY then top else MAX_PRIORITY;
    var f := Entry(FIBER, p, 2);
    var f' := Grown(f, Gap(p, top));
    var ss1, steps1 := FirstPart(a, n, top, p, high);
    var ss2, steps2 := SecondPart(a, n, top, f', high);
    ss, steps := Join(ss1, steps1, ss2, steps2);
    t := |steps1|;
    AgingsInNext(a - t, 0);
    GrownOnce(f, 0);
    var first := Drawn(high, t + n - 1, [f], a - t, 0);
    assert first.entries[t + n - 1] == f;
    assert ss[0].entries[t + n - 1].id == FIBER;
  }

  ghost predicate LongRunAt(ss: seq<Q>, steps: seq<Step>, f: FiberID, p: int, top: int, t: nat, a: nat, n: nat) {
    LongRun(ss, steps, f, p, top, t) && ss[t].pops == a && |ss[t].entries| == n
  }

  /** From pop count `a` and queue length `n` on, the bound holds in every run. */
  ghost predicate Guaranteed(a: nat, n: nat, top: int, p: int) {
    forall ss: seq<Q>, steps: seq<Step>, f: FiberID, t: nat ::
      LongRunAt(ss, steps, f, p, top, t, a, n) ==> Met(steps, f)
  }

  /**
   No starvation, exactly.  While no arriving or updated priority exceeds `top`, a fiber queued
   with priority p is returned (or removed, rekeyed or finished) within 100 * max(0, top - p + 1)
   pops and as many more as the queue, at pop count `a` then, is long, whatever happens in
   between, if and only if the cap leaves room.
   */
  lemma NoStarvationIff(a: nat, n: nat, top: int, p: int)
    requires n >= 1 && a >= AGE_EVERY * Gap(p, top)
    ensures Guaranteed(a, n, top, p) <==> Room(a, n, top, p)
  {
    hide LongRun; hide Met; hide Room;
    if Room(a, n, top, p) {
      forall ss: seq<Q>, steps: seq<Step>, f: FiberID, t: nat | LongRunAt(ss, steps, f, p, top, t, a, n)
        ensures Met(steps, f)
      {
        ReturnedInTime(ss, steps, f, p, top, t);
      }
    } else {
      var ss, steps, t := PassedOver(a, n, top, p);
      assert LongRunAt(ss, steps, FIBER, p, top, t, a, n);
    }
  }
}
