/**
 Runs of the priority scheduler (internal/scheduler/priority.go): a state is the heap's array
 and the pop counter, a run any interleaving of scheduler calls.  The heap's order inside the
 array is left open, so every result holds for any heap that returns a first entry.
 */
module PriorityRuns {
  import opened Fibers
  import opened Heaps
  import opened PriorityQueues

  const AGE_EVERY: nat := 100

  datatype Q = Q(entries: seq<Entry>, pops: nat)

  datatype Step =
    | Insert(e: Entry)
    | Next(finished: set<FiberID>, got: Entry)
    | NextEmpty(finished: set<FiberID>)
    | Rekey(x: Entry, priority: int)
    | Drop(x: Entry)
    | Keep

  /** The queue that Next pops from: finished fibers gone, aged on every hundredth pop. */
  function Candidates(s: Q, finished: set<FiberID>): seq<Entry> {
    var live := Unfinished(s.entries, finished);
    if (s.pops + 1) % AGE_EVERY == 0 then Aged(live) else live
  }

  ghost predicate StepOk(s: Q, st: Step, t: Q) {
    match st
    case Insert(e) => multiset(t.entries) == multiset(s.entries) + multiset{e} && t.pops == s.pops
    case Next(finished, got) =>
      && First(Candidates(s, finished), got) && t.pops == s.pops + 1
      && multiset(t.entries) + multiset{got} == multiset(Candidates(s, finished))
    case NextEmpty(finished) => Unfinished(s.entries, finished) == [] && t == Q([], s.pops)
    case Rekey(x, priority) =>
      && x in s.entries && t.pops == s.pops
      && multiset(t.entries) + multiset{x} == multiset(s.entries) + multiset{x.(priority := priority)}
    case Drop(x) => multiset(t.entries) + multiset{x} == multiset(s.entries) && t.pops == s.pops
    case Keep => t == s
  }

  ghost predicate Run(ss: seq<Q>, steps: seq<Step>) {
    && |ss| == |steps| + 1
    && forall k :: 0 <= k < |steps| ==> StepOk(ss[k], steps[k], ss[k + 1])
  }

  /** How often aging ran while the pop counter went from `a` to `b`. */
  function Agings(a: nat, b: nat): int { b / AGE_EVERY - a / AGE_EVERY }

  /** What a step does to aging. */
  function Rise(s: Q, t: Q): int { Agings(s.pops, t.pops) }

  lemma RiseOfStep(s: Q, st: Step, t: Q)
    requires StepOk(s, st, t)
    ensures Rise(s, t) == if st.Next? && (s.pops + 1) % AGE_EVERY == 0 then 1 else 0
  {
  }

  lemma {:induction false} PopsGrow(ss: seq<Q>, steps: seq<Step>, i: nat, k: nat)
    requires Run(ss, steps) && i <= k <= |steps|
    ensures ss[i].pops <= ss[k].pops && Agings(ss[i].pops, ss[k].pops) >= 0
    decreases k
  {
    if i < k {
      PopsGrow(ss, steps, i, k - 1);
      assert StepOk(ss[k - 1], steps[k - 1], ss[k]);
    }
  }

  lemma AgingsAdd(a: nat, b: nat, c: nat)
    ensures Agings(a, c) == Agings(a, b) + Agings(b, c)
  {
  }

  lemma NoAging(a: nat)
    ensures Agings(a, a) == 0
  {
  }

  lemma AgingsOfPops(a: nat, b: nat, c: nat)
    requires b >= a + AGE_EVERY * c
    ensures Agings(a, b) >= c
  {
  }

  lemma {:induction false} ReachesPops(ss: seq<Q>, steps: seq<Step>, t: nat, k: nat, goal: nat) returns (j: nat)
    requires Run(ss, steps) && t <= k <= |steps| && ss[t].pops <= goal <= ss[k].pops
    ensures t <= j <= k && ss[j].pops == goal
    decreases k
  {
    if ss[k].pops == goal || t == k {
      j := k;
    } else {
      assert StepOk(ss[k - 1], steps[k - 1], ss[k]);
      j := ReachesPops(ss, steps, t, k - 1, goal);
    }
  }

  lemma RunPush(ss: seq<Q>, steps: seq<Step>, st: Step, t: Q)
    requires Run(ss, steps) && StepOk(ss[|steps|], st, t)
    ensures Run(ss + [t], steps + [st])
  {
    hide StepOk;
  }

  /** An entry after `d` agings. */
  function Grown(e: Entry, d: nat): Entry {
    if e.priority >= MAX_PRIORITY then e
    else e.(priority := if e.priority + d <= MAX_PRIORITY then e.priority + d else MAX_PRIORITY)
  }

  lemma GrownOnce(e: Entry, d: nat)
    ensures AgedEntry(Grown(e, d)) == Grown(e, d + 1) && Grown(e, 0) == e
  {
  }

  function AgedIf(es: seq<Entry>, aging: bool): (r: seq<Entry>)
    ensures |r| == |es|
  {
    if aging then Aged(es) else es
  }

  /** With nothing finished, Next pops from the queue itself, aged on every hundredth pop. */
  lemma CandidatesPlain(es: seq<Entry>, pops: nat)
    ensures Candidates(Q(es, pops), {}) == AgedIf(es, (pops + 1) % AGE_EVERY == 0)
  {
    assert Unfinished(es, {}) == es;
  }

  function GrownAll(rest: seq<Entry>, d: nat): (r: seq<Entry>)
    ensures |r| == |rest|
  {
    seq(|rest|, i requires 0 <= i < |rest| => Grown(rest[i], d))
  }

  lemma GrownAgain(rest: seq<Entry>, d: nat, aging: bool)
    ensures AgedIf(GrownAll(rest, d), aging) == GrownAll(rest, d + if aging then 1 else 0)
  {
    forall i | 0 <= i < |rest| ensures AgedEntry(Grown(rest[i], d)) == Grown(rest[i], d + 1) { GrownOnce(rest[i], d); }
  }

  /** Agings in the next `j` pops. */
  function AgingsIn(b: nat, j: nat): nat { (b + j) / AGE_EVERY - b / AGE_EVERY }

  lemma AgingsInNext(b: nat, j: nat)
    ensures AgingsIn(b, j + 1) == AgingsIn(b, j) + if (b + j + 1) % AGE_EVERY == 0 then 1 else 0
    ensures AgingsIn(b, 0) == 0
  {
  }

  lemma Prepend(s: Q, st: Step, ss: seq<Q>, steps: seq<Step>) returns (ss': seq<Q>, steps': seq<Step>)
    requires Run(ss, steps) && StepOk(s, st, ss[0])
    ensures ss' == [s] + ss && steps' == [st] + steps && Run(ss', steps')
  {
    hide StepOk;
    ss', steps' := [s] + ss, [st] + steps;
  }

  /** Two runs, one from where the other ends. */
  lemma Join(a: seq<Q>, asteps: seq<Step>, b: seq<Q>, bsteps: seq<Step>) returns (ss: seq<Q>, steps: seq<Step>)
    requires Run(a, asteps) && Run(b, bsteps) && a[|asteps|] == b[0]
    ensures ss == a[..|asteps|] + b && steps == asteps + bsteps && Run(ss, steps)
  {
    hide StepOk;
    ss, steps := a[..|asteps|] + b, asteps + bsteps;
    forall k | 0 <= k < |steps| ensures StepOk(ss[k], steps[k], ss[k + 1]) {
      if k >= |asteps| { assert StepOk(b[k - |asteps|], bsteps[k - |asteps|], b[k - |asteps| + 1]); }
    }
  }

  // ---- Bags of entries ----

  lemma TakeOut(es: seq<Entry>, k: nat)
    requires k < |es|
    ensures multiset(es) == multiset(es[..k] + es[k + 1..]) + multiset{es[k]}
  {
    assert es == es[..k] + [es[k]] + es[k + 1..];
  }

  lemma Cancel(a: multiset<Entry>, b: multiset<Entry>, x: Entry)
    requires a + multiset{x} == b + multiset{x}
    ensures a == b
  {
    assert a == a + multiset{x} - multiset{x};
    assert b == b + multiset{x} - multiset{x};
  }

  lemma {:induction false} AgedPermutes(a: seq<Entry>, b: seq<Entry>)
    requires multiset(a) == multiset(b)
    ensures multiset(Aged(a)) == multiset(Aged(b))
    decreases |a|
  {
    assert |a| == |multiset(a)| == |multiset(b)| == |b|;
    if a != [] {
      assert a[0] in multiset(b);
      var k :| 0 <= k < |b| && b[k] == a[0];
      var a', b' := a[..0] + a[1..], b[..k] + b[k + 1..];
      TakeOut(a, 0);
      TakeOut(b, k);
      Cancel(multiset(a'), multiset(b'), a[0]);
      AgedPermutes(a', b');
      AgedTakeOut(a, 0);
      AgedTakeOut(b, k);
    }
  }

  lemma AgedTakeOut(es: seq<Entry>, k: nat)
    requires k < |es|
    ensures multiset(Aged(es)) == multiset(Aged(es[..k] + es[k + 1..])) + multiset{AgedEntry(es[k])}
  {
    TakeOut(Aged(es), k);
    assert Aged(es[..k] + es[k + 1..]) == Aged(es)[..k] + Aged(es)[k + 1..];
  }

  lemma FirstPermutes(a: seq<Entry>, b: seq<Entry>, x: Entry)
    requires multiset(a) == multiset(b) && First(a, x)
    ensures First(b, x)
  {
    forall k | 0 <= k < |b| ensures !Less(b[k], x) {
      assert b[k] in multiset(a);
    }
  }

  lemma PermutationLength(a: seq<Entry>, b: seq<Entry>)
    requires multiset(a) == multiset(b)
    ensures |a| == |b|
  {
    assert |a| == |multiset(a)| && |b| == |multiset(b)|;
  }

  lemma FirstPermutesIf(a: seq<Entry>, b: seq<Entry>)
    requires multiset(a) == multiset(b)
    ensures forall x :: First(a, x) ==> First(b, x)
  {
    forall x | First(a, x) ensures First(b, x) { FirstPermutes(a, b, x); }
  }
}
