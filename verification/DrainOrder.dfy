/**
 The order in which repeated Next drains the priority queue: it follows a sorted listing of
 the queue exactly unless the cap on aging lets a listed fiber be displaced.
 */
module DrainOrder {
  import opened Fibers
  import opened Heaps
  import opened PriorityQueues
  import opened PriorityRuns

  ghost predicate Sorted(es: seq<Entry>) { forall j, k :: 0 <= j < k < |es| ==> !Less(es[k], es[j]) }

  /** A listing of the queue in priority order. */
  ghost predicate Listing(listed: seq<Entry>, es: seq<Entry>) { Sorted(listed) && multiset(listed) == multiset(es) }

  /** `m` calls of Next on the queue `es` at pop count `a`, with nothing finished. */
  ghost predicate Drain(ss: seq<Q>, steps: seq<Step>, es: seq<Entry>, a: nat, m: nat) {
    && Run(ss, steps) && |steps| == m && ss[0] == Q(es, a)
    && forall k :: 0 <= k < |steps| ==>
      steps[k].Next? && Unfinished(ss[k].entries, steps[k].finished) == ss[k].entries
  }

  /** The first `k` calls returned the first `k` listed fibers. */
  ghost predicate Matches(steps: seq<Step>, listed: seq<Entry>, a: nat, k: nat) {
    && k <= |steps| && k <= |listed|
    && forall i :: 0 <= i < k ==> steps[i].Next? && steps[i].got == Grown(listed[i], AgingsIn(a, i + 1))
  }

  /** What is returned is the listing, entry by entry, each as aged by then. */
  ghost predicate Follows(steps: seq<Step>, listed: seq<Entry>, a: nat) {
    Matches(steps, listed, a, |steps|)
  }

  /** The fibers come out in the order of some listing of the queue. */
  ghost predicate InOrder(steps: seq<Step>, es: seq<Entry>, a: nat) {
    exists listed :: Listing(listed, es) && Follows(steps, listed, a)
  }

  /** After `d` agings `y`, listed behind `x`, has caught up with it at the cap and is not younger. */
  predicate Passes(x: Entry, y: Entry, d: nat) {
    y.priority < x.priority <= MAX_PRIORITY && y.created <= x.created && y.priority + d >= MAX_PRIORITY
  }

  /** A fiber with the key of the head is the one at `j`, queued twice: its early return goes unnoticed. */
  ghost predicate Doubled(rest: seq<Entry>, j: nat)
    requires j < |rest|
  {
    exists k :: 0 <= k < |rest| && SameKey(rest[k], rest[0]) && rest[k].id == rest[j].id
                && rest[k].created == rest[j].created
  }

  /** After `d` agings fiber `j` can be returned in place of the head of what is left, and is noticed. */
  ghost predicate Displaces(rest: seq<Entry>, j: nat, d: nat) {
    0 < j < |rest| && Passes(rest[0], rest[j], d) && !Doubled(rest, j)
  }

  ghost predicate Displaced(rest: seq<Entry>, d: nat) { exists j: nat :: Displaces(rest, j, d) }

  /** In some listing one of the first `m` fibers is displaced by the time it would be returned. */
  ghost predicate DisplacedIn(es: seq<Entry>, a: nat, m: nat) {
    exists listed, i: nat :: Listing(listed, es) && i < m && i < |listed| && Displaced(listed[i..], AgingsIn(a, i + 1))
  }

  /** One of the first `m` listed fibers is caught up with by the time it would be returned. */
  ghost predicate Overtaken(listed: seq<Entry>, a: nat, m: nat) {
    exists i, j :: 0 <= i < m && i < j < |listed| && Passes(listed[i], listed[j], AgingsIn(a, i + 1))
  }

  predicate SameKey(x: Entry, y: Entry) { x.priority == y.priority && x.created == y.created }

  /** Aging keeps two fibers in order if and only if the second does not catch up. */
  lemma AgingKeepsOrderIff(x: Entry, y: Entry, d: nat)
    requires Less(x, y)
    ensures Less(Grown(x, d), Grown(y, d)) <==> !Passes(x, y, d)
  {
  }

  lemma GrownSameKey(x: Entry, y: Entry, d: nat)
    requires SameKey(x, y)
    ensures SameKey(Grown(x, d), Grown(y, d))
  {
  }

  // ---- Not displaced: in order ----

  ghost predicate SameKeys(a: seq<Entry>, b: seq<Entry>) {
    |a| == |b| && forall k :: 0 <= k < |a| ==> SameKey(a[k], b[k])
  }

  /** Swapping two fibers with the same key gives another listing. */
  lemma SwapSameKey(listed: seq<Entry>, i: nat, j: nat)
    requires i < |listed| && j < |listed| && SameKey(listed[i], listed[j]) && Sorted(listed)
    ensures Sorted(SwapEntries(listed, i, j)) && SameKeys(SwapEntries(listed, i, j), listed)
  {
    var r := SwapEntries(listed, i, j);
    assert forall k :: 0 <= k < |r| ==> SameKey(r[k], listed[k]);
  }

  /** What is left after some calls of a drain, and what it looks like aged. */
  lemma DrainCandidates(s: Q, st: Step, rest: seq<Entry>, d: nat, d': nat)
    requires st.Next? && Unfinished(s.entries, st.finished) == s.entries
    requires multiset(s.entries) == multiset(GrownAll(rest, d))
    requires d' == d + if (s.pops + 1) % AGE_EVERY == 0 then 1 else 0
    ensures multiset(Candidates(s, st.finished)) == multiset(GrownAll(rest, d'))
  {
    hide Aged; hide GrownAll; hide Unfinished;
    AgedPermutes(s.entries, GrownAll(rest, d));
    GrownAgain(rest, d, (s.pops + 1) % AGE_EVERY == 0);
  }

  lemma GrownSwap(rest: seq<Entry>, i: nat, j: nat, d: nat)
    requires i < |rest| && j < |rest|
    ensures multiset(GrownAll(SwapEntries(rest, i, j), d)) == multiset(GrownAll(rest, d))
  {
    assert GrownAll(SwapEntries(rest, i, j), d) == SwapEntries(GrownAll(rest, d), i, j);
    SwapPermutes(GrownAll(rest, d), i, j);
  }

  lemma GrownTail(rest: seq<Entry>, d: nat)
    requires rest != []
    ensures multiset(GrownAll(rest, d)) == multiset(GrownAll(rest[1..], d)) + multiset{Grown(rest[0], d)}
  {
    assert GrownAll(rest, d) == [Grown(rest[0], d)] + GrownAll(rest[1..], d);
  }

  /** A first entry that is not overtaking has the key at the head of the listing. */
  lemma FirstIsHead(rest: seq<Entry>, d: nat, q: nat)
    requires Sorted(rest) && q < |rest| && First(GrownAll(rest, d), Grown(rest[q], d))
    requires q > 0 ==> !Passes(rest[0], rest[q], d)
    ensures SameKey(rest[0], rest[q])
  {
    assert GrownAll(rest, d)[0] == Grown(rest[0], d);
    if Less(rest[0], rest[q]) { AgingKeepsOrderIff(rest[0], rest[q], d); }
  }

  lemma TwinsGrowAlike(rest: seq<Entry>, j: nat, k: nat, d: nat)
    requires j < |rest| && k < |rest| && Passes(rest[0], rest[j], d) && SameKey(rest[k], rest[0])
    requires rest[k].id == rest[j].id && rest[k].created == rest[j].created
    ensures Grown(rest[k], d) == Grown(rest[j], d)
  {
  }

  /** What is returned is, or looks like, a fiber with the key of the head. */
  lemma HeadOrTwin(rest: seq<Entry>, d: nat, j: nat) returns (q: nat)
    requires Sorted(rest) && j < |rest| && First(GrownAll(rest, d), Grown(rest[j], d)) && !Displaced(rest, d)
    ensures q < |rest| && SameKey(rest[0], rest[q]) && Grown(rest[q], d) == Grown(rest[j], d)
  {
    hide Sorted; hide First; hide GrownAll; hide Grown; hide Passes;
    if j > 0 && Passes(rest[0], rest[j], d) {
      assert !Displaces(rest, j, d);
      q :| 0 <= q < |rest| && SameKey(rest[q], rest[0]) && rest[q].id == rest[j].id
        && rest[q].created == rest[j].created;
      TwinsGrowAlike(rest, j, q, d);
    } else {
      FirstIsHead(rest, d, j);
      q := j;
    }
  }

  /** One call: a listing of what was left that starts with what was returned. */
  lemma CallFollows(s: Q, st: Step, t: Q, rest: seq<Entry>, d: nat, d': nat) returns (q: nat)
    requires st.Next? && StepOk(s, st, t) && Unfinished(s.entries, st.finished) == s.entries
    requires multiset(s.entries) == multiset(GrownAll(rest, d)) && Sorted(rest)
    requires d' == d + if (s.pops + 1) % AGE_EVERY == 0 then 1 else 0
    requires !Displaced(rest, d')
    ensures q < |rest| && SameKey(rest[0], rest[q]) && st.got == Grown(rest[q], d')
    ensures multiset(t.entries) == multiset(GrownAll(SwapEntries(rest, 0, q)[1..], d'))
  {
    hide Candidates; hide Sorted; hide Passes; hide Unfinished; hide Displaced;
    DrainCandidates(s, st, rest, d, d');
    var queue := GrownAll(rest, d');
    assert st.got in multiset(queue);
    var j :| 0 <= j < |queue| && queue[j] == st.got;
    FirstPermutes(Candidates(s, st.finished), queue, st.got);
    q := HeadOrTwin(rest, d', j);
    GrownSwap(rest, 0, q, d');
    GrownTail(SwapEntries(rest, 0, q), d');
    Cancel(multiset(t.entries), multiset(GrownAll(SwapEntries(rest, 0, q)[1..], d')), st.got);
  }

  /** A listing that the first `k` calls followed. */
  ghost predicate Followed(ss: seq<Q>, steps: seq<Step>, es: seq<Entry>, a: nat, k: nat, own: seq<Entry>)
    requires k < |ss| && k <= |steps|
  {
    && Listing(own, es) && k <= |own| && Matches(steps, own, a, k)
    && multiset(ss[k].entries) == multiset(GrownAll(own[k..], AgingsIn(a, k)))
  }

  lemma FollowedAtFirst(ss: seq<Q>, steps: seq<Step>, listed: seq<Entry>, es: seq<Entry>, a: nat)
    requires |ss| > 0 && ss[0] == Q(es, a) && Listing(listed, es)
    ensures Followed(ss, steps, es, a, 0, listed)
  {
    AgingsInNext(a, 0);
    assert GrownAll(listed, 0) == listed && listed[0..] == listed;
  }

  lemma SortedSuffix(own: seq<Entry>, k: nat)
    requires k <= |own| && Sorted(own)
    ensures Sorted(own[k..])
  {
  }

  lemma SwapInSuffix(own: seq<Entry>, k: nat, q: nat)
    requires k < |own| && k + q < |own|
    ensures SwapEntries(own, k, k + q)[k + 1..] == SwapEntries(own[k..], 0, q)[1..]
  {
  }

  lemma DrainPops(ss: seq<Q>, steps: seq<Step>, es: seq<Entry>, a: nat, m: nat, k: nat)
    requires Drain(ss, steps, es, a, m) && k <= m
    ensures ss[k].pops == a + k
  {
    if k > 0 {
      DrainPops(ss, steps, es, a, m, k - 1);
      assert StepOk(ss[k - 1], steps[k - 1], ss[k]);
    }
  }

  /** The listing with what call `k` returned moved to its place. */
  lemma Relisted(ss: seq<Q>, steps: seq<Step>, es: seq<Entry>, a: nat, k: nat, own: seq<Entry>, q: nat)
    requires k + 1 < |ss| && k < |steps| && Followed(ss, steps, es, a, k, own)
    requires k + q < |own| && SameKey(own[k], own[k + q])
    requires steps[k].Next? && steps[k].got == Grown(own[k + q], AgingsIn(a, k + 1))
    requires multiset(ss[k + 1].entries) == multiset(GrownAll(SwapEntries(own[k..], 0, q)[1..], AgingsIn(a, k + 1)))
    ensures Followed(ss, steps, es, a, k + 1, SwapEntries(own, k, k + q))
  {
    hide GrownAll; hide AgingsIn; hide Grown; hide Sorted; hide SameKeys; hide SwapEntries; hide Matches;
    var r := SwapEntries(own, k, k + q);
    SwapSameKey(own, k, k + q);
    SwapPermutes(own, k, k + q);
    SwapInSuffix(own, k, q);
    SwapForward(own, k, q);
    MatchesOn(steps, own, r, a, k);
  }

  lemma MatchesOn(steps: seq<Step>, own: seq<Entry>, r: seq<Entry>, a: nat, k: nat)
    requires Matches(steps, own, a, k) && |r| == |own| && k < |r| && k < |steps|
    requires (forall i :: 0 <= i < k ==> r[i] == own[i])
    requires steps[k].Next? && steps[k].got == Grown(r[k], AgingsIn(a, k + 1))
    ensures Matches(steps, r, a, k + 1)
  {
  }

  lemma SameKeysTwice(x: seq<Entry>, y: seq<Entry>, z: seq<Entry>)
    requires SameKeys(x, y) && SameKeys(y, z)
    ensures SameKeys(x, z)
  {
  }

  lemma SwapForward(own: seq<Entry>, k: nat, q: nat)
    requires k + q < |own|
    ensures var r := SwapEntries(own, k, k + q); r[k] == own[k + q] && forall i :: 0 <= i < k ==> r[i] == own[i]
  {
  }

  lemma EnoughLeft(s: Q, st: Step, t: Q, rest: seq<Entry>, d: nat)
    requires st.Next? && StepOk(s, st, t) && Unfinished(s.entries, st.finished) == s.entries
    requires multiset(s.entries) == multiset(GrownAll(rest, d))
    ensures rest != []
  {
    assert |multiset(s.entries)| == |s.entries| && |multiset(GrownAll(rest, d))| == |rest|;
    assert |multiset(Candidates(s, st.finished))| == |s.entries|;
    assert |multiset(t.entries) + multiset{st.got}| == |t.entries| + 1;
  }

  lemma FollowOn(ss: seq<Q>, steps: seq<Step>, es: seq<Entry>, a: nat, m: nat, k: nat, own: seq<Entry>)
    returns (own': seq<Entry>)
    requires k + 1 < |ss| && k < |steps| && k < m && !DisplacedIn(es, a, m)
    requires steps[k].Next? && StepOk(ss[k], steps[k], ss[k + 1])
    requires Unfinished(ss[k].entries, steps[k].finished) == ss[k].entries
    requires Followed(ss, steps, es, a, k, own) && ss[k].pops == a + k
    ensures Followed(ss, steps, es, a, k + 1, own')
  {
    hide StepOk; hide Sorted; hide GrownAll; hide AgingsIn; hide Unfinished; hide Displaced;
    hide SwapEntries; hide Grown; hide Matches; hide SameKey;
    var s, st, t, rest := ss[k], steps[k], ss[k + 1], own[k..];
    AgingsInNext(a, k);
    EnoughLeft(s, st, t, rest, AgingsIn(a, k));
    SortedSuffix(own, k);
    assert !Displaced(own[k..], AgingsIn(a, k + 1));
    var q := CallFollows(s, st, t, rest, AgingsIn(a, k), AgingsIn(a, k + 1));
    assert rest[0] == own[k] && rest[q] == own[k + q];
    Relisted(ss, steps, es, a, k, own, q);
    own' := SwapEntries(own, k, k + q);
  }

  lemma {:induction false} DrainFollows(ss: seq<Q>, steps: seq<Step>, es: seq<Entry>, listed: seq<Entry>,
                                        a: nat, m: nat, k: nat)
    returns (own: seq<Entry>)
    requires Drain(ss, steps, es, a, m) && Listing(listed, es) && !DisplacedIn(es, a, m) && k <= m
    ensures Followed(ss, steps, es, a, k, own)
    decreases k
  {
    hide Followed; hide DisplacedIn; hide StepOk; hide Unfinished; hide Listing;
    if k == 0 {
      FollowedAtFirst(ss, steps, listed, es, a);
      own := listed;
    } else {
      var before := DrainFollows(ss, steps, es, listed, a, m, k - 1);
      DrainPops(ss, steps, es, a, m, k - 1);
      assert StepOk(ss[k - 1], steps[k - 1], ss[k]);
      own := FollowOn(ss, steps, es, a, m, k - 1, before);
    }
  }

  lemma DrainInOrder(ss: seq<Q>, steps: seq<Step>, es: seq<Entry>, a: nat, m: nat)
    requires Drain(ss, steps, es, a, m) && !DisplacedIn(es, a, m)
    ensures InOrder(steps, es, a)
  {
    hide DisplacedIn;
    var listed := ListingExists(es);
    var own := DrainFollows(ss, steps, es, listed, a, m, m);
    assert Listing(own, es) && Follows(steps, own, a);
  }

  lemma FirstInFront(z: Entry, rest: seq<Entry>, es: seq<Entry>)
    requires Sorted(rest) && First(es, z) && multiset(rest) + multiset{z} == multiset(es)
    ensures Listing([z] + rest, es)
  {
    var r := [z] + rest;
    forall k | 0 < k < |r| ensures !Less(r[k], z) {
      assert r[k] in multiset(rest) && r[k] in multiset(es);
      var i :| 0 <= i < |es| && es[i] == r[k];
    }
    assert r[1..] == rest;
    assert multiset(r) == multiset{z} + multiset(rest);
  }

  lemma {:induction false} ListingExists(es: seq<Entry>) returns (listed: seq<Entry>)
    ensures Listing(listed, es)
    decreases |es|
  {
    if es == [] {
      listed := [];
    } else {
      hide First; hide Sorted;
      var z := FirstExists(es);
      var without := es[..z] + es[z + 1..];
      var rest := ListingExists(without);
      TakeOut(es, z);
      FirstInFront(es[z], rest, es);
      listed := [es[z]] + rest;
    }
  }

  // ---- Listings share their keys ----

  /** A listing with the same head as another. */
  lemma HeadForward(a: seq<Entry>, b: seq<Entry>) returns (r: seq<Entry>)
    requires a != [] && Sorted(a) && Sorted(b) && multiset(a) == multiset(b)
    ensures |r| > 0 && r[0] == a[0] && Sorted(r) && multiset(r) == multiset(b) && SameKeys(r, b)
  {
    PermutationLength(a, b);
    assert a[0] in multiset(b) && b[0] in multiset(a);
    var p :| 0 <= p < |b| && b[p] == a[0];
    var i :| 0 <= i < |a| && a[i] == b[0];
    assert i == 0 || !Less(a[i], a[0]);
    assert p == 0 || !Less(b[p], b[0]);
    SwapSameKey(b, 0, p);
    SwapPermutes(b, 0, p);
    r := SwapEntries(b, 0, p);
  }

  lemma {:induction false} ListingsShareKeys(a: seq<Entry>, b: seq<Entry>)
    requires Sorted(a) && Sorted(b) && multiset(a) == multiset(b)
    ensures SameKeys(a, b)
    decreases |a|
  {
    hide Sorted; hide SameKeys;
    PermutationLength(a, b);
    if a == [] {
      NoKeys(a, b);
    } else {
      var r := HeadForward(a, b);
      SortedTail(a);
      SortedTail(r);
      TailPermutes(a, r);
      ListingsShareKeys(a[1..], r[1..]);
      KeysFromTails(a, r);
      SameKeysTwice(a, r, b);
    }
  }

  lemma NoKeys(a: seq<Entry>, b: seq<Entry>)
    requires |a| == |b| == 0
    ensures SameKeys(a, b)
  {
  }

  lemma KeysFromTails(a: seq<Entry>, b: seq<Entry>)
    requires a != [] && b != [] && a[0] == b[0] && SameKeys(a[1..], b[1..])
    ensures SameKeys(a, b)
  {
    forall k | 0 <= k < |a| ensures SameKey(a[k], b[k]) {
      if k > 0 { assert SameKey(a[1..][k - 1], b[1..][k - 1]); }
    }
  }

  lemma NotDisplacedHere(listed: seq<Entry>, own: seq<Entry>, a: nat, m: nat, i: nat)
    requires SameKeys(own, listed) && !Overtaken(listed, a, m) && i < m && i < |own|
    ensures !Displaced(own[i..], AgingsIn(a, i + 1))
  {
    var rest, d := own[i..], AgingsIn(a, i + 1);
    forall j: nat ensures !Displaces(rest, j, d) {
      if 0 < j < |own| - i {
        assert SameKey(own[i], listed[i]) && SameKey(own[i + j], listed[i + j]);
        assert !Passes(listed[i], listed[i + j], AgingsIn(a, i + 1));
      }
    }
  }

  /** What nobody catches up with in one listing is displaced in none. */
  lemma NotOvertakenIsNotDisplaced(es: seq<Entry>, listed: seq<Entry>, a: nat, m: nat)
    requires Listing(listed, es) && !Overtaken(listed, a, m)
    ensures !DisplacedIn(es, a, m)
  {
    hide Sorted; hide Displaced; hide Overtaken; hide SameKeys; hide AgingsIn;
    if DisplacedIn(es, a, m) {
      var own, i: nat :| Listing(own, es) && i < m && i < |own| && Displaced(own[i..], AgingsIn(a, i + 1));
      ListingsShareKeys(own, listed);
      NotDisplacedHere(listed, own, a, m, i);
      assert false;
    }
  }

  // ---- Displaced: some drain is out of order ----

  lemma {:induction false} FirstExists(es: seq<Entry>) returns (z: nat)
    requires es != []
    ensures z < |es| && First(es, es[z])
    decreases |es|
  {
    var n := |es| - 1;
    if n == 0 {
      z := 0;
    } else {
      z := FirstExists(es[..n]);
      if Less(es[n], es[z]) {
        forall k | 0 <= k < |es| ensures !Less(es[k], es[n]) {
          assert k < n ==> !Less(es[..n][k], es[z]);
          LessIsStrictWeakOrder(es[n], es[z], es[k]);
        }
        z := n;
      } else {
        forall k | 0 <= k < |es| ensures !Less(es[k], es[z]) {
          assert k < n ==> !Less(es[..n][k], es[z]);
        }
      }
    }
  }

  lemma CandidatesOf(rest: seq<Entry>, d: nat, pops: nat, d': nat)
    requires d' == d + if (pops + 1) % AGE_EVERY == 0 then 1 else 0
    ensures Candidates(Q(GrownAll(rest, d), pops), {}) == GrownAll(rest, d')
  {
    hide GrownAll; hide Candidates; hide AgedIf;
    GrownAgain(rest, d, (pops + 1) % AGE_EVERY == 0);
    CandidatesPlain(GrownAll(rest, d), pops);
  }

  lemma GrownWithout(rest: seq<Entry>, d: nat, q: nat)
    requires q < |rest|
    ensures multiset(GrownAll(rest[..q] + rest[q + 1..], d)) + multiset{Grown(rest[q], d)}
      == multiset(GrownAll(rest, d))
  {
    var g := GrownAll(rest, d);
    TakeOut(g, q);
    assert GrownAll(rest[..q] + rest[q + 1..], d) == g[..q] + g[q + 1..];
  }

  /** Next can return any first candidate. */
  lemma NextReturns(rest: seq<Entry>, d: nat, pops: nat, d': nat, q: nat)
    requires q < |rest| && d' == d + if (pops + 1) % AGE_EVERY == 0 then 1 else 0
    requires First(GrownAll(rest, d'), Grown(rest[q], d'))
    ensures StepOk(Q(GrownAll(rest, d), pops), Next({}, Grown(rest[q], d')),
                   Q(GrownAll(rest[..q] + rest[q + 1..], d'), pops + 1))
  {
    hide First; hide Candidates; hide GrownAll; hide Grown;
    CandidatesOf(rest, d, pops, d');
    GrownWithout(rest, d', q);
  }

  /** Any drain can be continued. */
  lemma {:induction false} AnyDrain(rest: seq<Entry>, a: nat, k: nat, m: nat) returns (ss: seq<Q>, steps: seq<Step>)
    requires m <= |rest|
    ensures Drain(ss, steps, GrownAll(rest, AgingsIn(a, k)), a + k, m)
    decreases m
  {
    var s := Q(GrownAll(rest, AgingsIn(a, k)), a + k);
    if m == 0 {
      ss, steps := [s], [];
    } else {
      hide StepOk; hide GrownAll; hide AgingsIn; hide Grown;
      var q := AnyStep(rest, a, k);
      var d', rest' := AgingsIn(a, k + 1), rest[..q] + rest[q + 1..];
      var ss', steps' := AnyDrain(rest', a, k + 1, m - 1);
      ss, steps := StartsWith(rest, AgingsIn(a, k), a + k, Next({}, Grown(rest[q], d')), ss', steps', rest', d', m - 1);
    }
  }

  lemma AnyStep(rest: seq<Entry>, a: nat, k: nat) returns (q: nat)
    requires rest != []
    ensures q < |rest| && StepOk(Q(GrownAll(rest, AgingsIn(a, k)), a + k), Next({}, Grown(rest[q], AgingsIn(a, k + 1))),
                   Q(GrownAll(rest[..q] + rest[q + 1..], AgingsIn(a, k + 1)), a + k + 1))
  {
    hide StepOk; hide First; hide GrownAll; hide AgingsIn; hide Grown;
    AgingsInNext(a, k);
    q := FirstExists(GrownAll(rest, AgingsIn(a, k + 1)));
    GrownAt(rest, AgingsIn(a, k + 1), q);
    NextReturns(rest, AgingsIn(a, k), a + k, AgingsIn(a, k + 1), q);
  }

  lemma GrownAt(rest: seq<Entry>, d: nat, q: nat)
    requires q < |rest|
    ensures GrownAll(rest, d)[q] == Grown(rest[q], d)
  {
  }

  lemma DrainBefore(s: Q, st: Step, ss: seq<Q>, steps: seq<Step>, m: nat) returns (ss': seq<Q>, steps': seq<Step>)
    requires |ss| > 0 && Drain(ss, steps, ss[0].entries, ss[0].pops, m)
    requires st.Next? && st.finished == {} && StepOk(s, st, ss[0])
    ensures ss' == [s] + ss && steps' == [st] + steps && Drain(ss', steps', s.entries, s.pops, m + 1)
  {
    ss', steps' := Prepend(s, st, ss, steps);
    hide StepOk;
    assert Unfinished(s.entries, {}) == s.entries;
    forall k | 0 <= k < |steps'|
      ensures steps'[k].Next? && Unfinished(ss'[k].entries, steps'[k].finished) == ss'[k].entries
    {
      if k > 0 { assert steps'[k] == steps[k - 1] && ss'[k] == ss[k - 1]; }
    }
  }

  /** A fiber that precedes the head by creation time is none with the head's key. */
  lemma OlderDisplaces(rest: seq<Entry>, d: nat, z: nat)
    requires Sorted(rest) && z < |rest| && Less(Grown(rest[z], d), Grown(rest[0], d))
    ensures Displaces(rest, z, d)
  {
    assert z > 0;
    if Less(rest[0], rest[z]) {
      AgingKeepsOrderIff(rest[0], rest[z], d);
      LessIsStrictWeakOrder(Grown(rest[0], d), Grown(rest[z], d), rest[0]);
    } else {
      GrownSameKey(rest[0], rest[z], d);
    }
  }

  /** Where the head is displaced, some fiber that displaces it can be returned. */
  lemma Displacer(rest: seq<Entry>, d: nat) returns (q: nat)
    requires Sorted(rest) && Displaced(rest, d)
    ensures Displaces(rest, q, d) && First(GrownAll(rest, d), Grown(rest[q], d))
  {
    var j: nat :| Displaces(rest, j, d);
    var g := GrownAll(rest, d);
    var z := FirstExists(g);
    assert g[z] == Grown(rest[z], d) && g[j] == Grown(rest[j], d) && g[0] == Grown(rest[0], d);
    if Less(g[z], g[0]) {
      OlderDisplaces(rest, d, z);
      q := z;
    } else {
      q := j;
      AgingKeepsOrderIff(rest[0], rest[j], d);
      forall k | 0 <= k < |g| ensures !Less(g[k], g[j]) {
        assert !Less(g[k], g[z]);
        LessIsStrictWeakOrder(g[0], g[z], g[k]);
        LessIsStrictWeakOrder(g[j], g[0], g[k]);
      }
    }
  }

  /** Otherwise the head of the listing is a first candidate. */
  lemma HeadIsFirst(rest: seq<Entry>, d: nat)
    requires rest != [] && Sorted(rest) && !Displaced(rest, d)
    ensures First(GrownAll(rest, d), Grown(rest[0], d))
  {
    var g := GrownAll(rest, d);
    forall k | 0 <= k < |g| ensures !Less(g[k], Grown(rest[0], d)) {
      assert g[k] == Grown(rest[k], d);
      if Less(g[k], Grown(rest[0], d)) { OlderDisplaces(rest, d, k); }
    }
  }

  /** Fiber `k` of the listing is displaced by the time it would be returned. */
  ghost predicate DisplacedAt(listed: seq<Entry>, a: nat, k: nat) {
    k < |listed| && Displaced(listed[k..], AgingsIn(a, k + 1))
  }

  /** Calls, the first of them number `k`, that follow the listing up to `i` and then return `q` too early. */
  ghost predicate Strays(steps: seq<Step>, listed: seq<Entry>, a: nat, k: nat, i: nat, q: nat) {
    && k <= i < q < |listed| && i - k < |steps| && Displaces(listed[i..], q - i, AgingsIn(a, i + 1))
    && (forall l :: 0 <= l <= i - k ==> steps[l].Next?)
    && (forall l :: k <= l < i ==> steps[l - k].got == Grown(listed[l], AgingsIn(a, l + 1)))
    && steps[i - k].got == Grown(listed[q], AgingsIn(a, i + 1))
  }

  lemma SuffixWithoutHead(listed: seq<Entry>, k: nat)
    requires k < |listed|
    ensures listed[k..][..0] + listed[k..][1..] == listed[k + 1..]
  {
  }

  lemma StraysLater(steps: seq<Step>, listed: seq<Entry>, a: nat, k: nat, i: nat, q: nat, st: Step)
    requires Strays(steps, listed, a, k + 1, i, q) && st.Next? && st.got == Grown(listed[k], AgingsIn(a, k + 1))
    ensures Strays([st] + steps, listed, a, k, i, q)
  {
    hide Displaces; hide Grown; hide AgingsIn;
    var all := [st] + steps;
    forall l | k <= l < i ensures all[l - k].got == Grown(listed[l], AgingsIn(a, l + 1)) {
      if l > k { assert all[l - k] == steps[l - (k + 1)]; }
    }
    forall l | 0 <= l <= i - k ensures all[l].Next? {
      if l > 0 { assert all[l] == steps[l - 1]; }
    }
    assert all[i - k] == steps[i - (k + 1)];
  }

  /** Call `k` returns a fiber that displaces the listed one. */
  lemma StrayNow(listed: seq<Entry>, a: nat, k: nat, m: nat) returns (ss: seq<Q>, steps: seq<Step>, q: nat)
    requires Sorted(listed) && k < m <= |listed| && DisplacedAt(listed, a, k)
    ensures Drain(ss, steps, GrownAll(listed[k..], AgingsIn(a, k)), a + k, m - k) && steps[0].finished == {}
    ensures Strays(steps, listed, a, k, k, q)
  {
    hide StepOk; hide First; hide GrownAll; hide Passes; hide AgingsIn; hide Sorted; hide Less; hide Displaced;
    hide Doubled;
    var rest, d, d' := listed[k..], AgingsIn(a, k), AgingsIn(a, k + 1);
    AgingsInNext(a, k);
    SortedSuffix(listed, k);
    var p := Displacer(rest, d');
    var st := Next({}, Grown(rest[p], d'));
    NextReturns(rest, d, a + k, d', p);
    var ss', steps' := AnyDrain(rest[..p] + rest[p + 1..], a, k + 1, m - k - 1);
    ss, steps := StartsWith(rest, d, a + k, st, ss', steps', rest[..p] + rest[p + 1..], d', m - k - 1);
    q := k + p;
    assert rest[p] == listed[q];
  }

  /** Call `k` can return the listed fiber when that is not displaced. */
  lemma ListedStep(listed: seq<Entry>, a: nat, k: nat)
    requires Sorted(listed) && k < |listed| && !DisplacedAt(listed, a, k)
    ensures StepOk(Q(GrownAll(listed[k..], AgingsIn(a, k)), a + k), Next({}, Grown(listed[k], AgingsIn(a, k + 1))),
                   Q(GrownAll(listed[k + 1..], AgingsIn(a, k + 1)), a + k + 1))
  {
    hide StepOk; hide First; hide GrownAll; hide AgingsIn; hide Sorted; hide Displaced;
    var rest, d' := listed[k..], AgingsIn(a, k + 1);
    AgingsInNext(a, k);
    SortedSuffix(listed, k);
    HeadIsFirst(rest, d');
    NextReturns(rest, AgingsIn(a, k), a + k, d', 0);
    SuffixWithoutHead(listed, k);
  }

  /** Follow the listing until a fiber can be displaced, and let that happen. */
  lemma {:induction false} StrayingDrain(listed: seq<Entry>, a: nat, k: nat, m: nat, at: nat)
    returns (ss: seq<Q>, steps: seq<Step>, i: nat, q: nat)
    requires Sorted(listed) && k <= at < m <= |listed| && DisplacedAt(listed, a, at)
    ensures Drain(ss, steps, GrownAll(listed[k..], AgingsIn(a, k)), a + k, m - k) && steps[0].finished == {}
    ensures Strays(steps, listed, a, k, i, q)
    decreases at - k
  {
    hide StepOk; hide GrownAll; hide DisplacedAt; hide AgingsIn; hide Sorted; hide Strays;
    if DisplacedAt(listed, a, k) {
      ss, steps, q := StrayNow(listed, a, k, m);
      i := k;
    } else {
      ListedStep(listed, a, k);
      var d' := AgingsIn(a, k + 1);
      var st := Next({}, Grown(listed[k], d'));
      var ss', steps';
      ss', steps', i, q := StrayingDrain(listed, a, k + 1, m, at);
      ss, steps := StartsWith(listed[k..], AgingsIn(a, k), a + k, st, ss', steps', listed[k + 1..], d', m - k - 1);
      StraysLater(steps', listed, a, k, i, q, st);
    }
  }

  lemma StartsWith(rest: seq<Entry>, d: nat, pops: nat, st: Step, ss: seq<Q>, steps: seq<Step>,
                   rest': seq<Entry>, d': nat, m: nat) returns (ss': seq<Q>, steps': seq<Step>)
    requires Drain(ss, steps, GrownAll(rest', d'), pops + 1, m) && st.Next? && st.finished == {}
    requires StepOk(Q(GrownAll(rest, d), pops), st, Q(GrownAll(rest', d'), pops + 1))
    ensures Drain(ss', steps', GrownAll(rest, d), pops, m + 1) && steps' == [st] + steps
  {
    hide StepOk;
    ss', steps' := DrainBefore(Q(GrownAll(rest, d), pops), st, ss, steps, m);
  }

  /** A drain of the listing is one of the queue. */
  lemma DrainOfQueue(ss: seq<Q>, steps: seq<Step>, listed: seq<Entry>, es: seq<Entry>, a: nat, m: nat)
    returns (ss': seq<Q>)
    requires Drain(ss, steps, listed, a, m) && m > 0 && multiset(listed) == multiset(es)
    requires steps[0].finished == {}
    ensures Drain(ss', steps, es, a, m)
  {
    ss' := ss[0 := Q(es, a)];
    assert StepOk(ss[0], steps[0], ss[1]);
    StepFromQueue(listed, es, a, steps[0], ss[1]);
    hide StepOk;
    forall k | 0 <= k < |steps| ensures StepOk(ss'[k], steps[k], ss'[k + 1]) {
      if k > 0 { assert StepOk(ss[k], steps[k], ss[k + 1]); }
    }
  }

  lemma StepFromQueue(listed: seq<Entry>, es: seq<Entry>, a: nat, st: Step, t: Q)
    requires st.Next? && st.finished == {} && multiset(listed) == multiset(es) && StepOk(Q(listed, a), st, t)
    ensures StepOk(Q(es, a), st, t)
  {
    hide First; hide Aged; hide Candidates;
    CandidatesPlain(listed, a);
    CandidatesPlain(es, a);
    AgedPermutes(listed, es);
    FirstPermutes(Candidates(Q(listed, a), {}), Candidates(Q(es, a), {}), st.got);
  }

  /** Grown entries with one key agree only if they were the same. */
  lemma GrownTellsApart(x: Entry, y: Entry, d: nat)
    requires SameKey(x, y) && Grown(x, d) == Grown(y, d)
    ensures x == y
  {
  }

  /** Listings that agree up to `i` hold the same fibers from there on. */
  lemma SameRest(own: seq<Entry>, listed: seq<Entry>, i: nat)
    requires multiset(own) == multiset(listed) && i <= |own| == |listed| && own[..i] == listed[..i]
    ensures multiset(own[i..]) == multiset(listed[i..])
  {
    assert own == own[..i] + own[i..] && listed == listed[..i] + listed[i..];
    assert multiset(own[i..]) == multiset(own) - multiset(own[..i]);
    assert multiset(listed[i..]) == multiset(listed) - multiset(listed[..i]);
  }

  /** Calls that stray follow no listing at all. */
  lemma StrayingIsNotInOrder(steps: seq<Step>, listed: seq<Entry>, es: seq<Entry>, a: nat, i: nat, q: nat,
                             own: seq<Entry>)
    requires Strays(steps, listed, a, 0, i, q) && Listing(listed, es) && Listing(own, es)
    ensures !Follows(steps, own, a)
  {
    hide AgingsIn; hide Sorted; hide Grown; hide Doubled;
    if Follows(steps, own, a) {
      ListingsShareKeys(own, listed);
      var d := AgingsIn(a, i + 1);
      forall k | 0 <= k < i ensures own[k] == listed[k] {
        GrownTellsApart(own[k], listed[k], AgingsIn(a, k + 1));
      }
      assert own[..i] == listed[..i];
      SameRest(own, listed, i);
      assert own[i] == own[i..][0] && own[i] in multiset(listed[i..]);
      StandInIsDoubled(listed[i..], own[i], q - i, d);
      assert false;
    }
  }

  lemma StandInIsDoubled(rest: seq<Entry>, x: Entry, j: nat, d: nat)
    requires j < |rest| && x in multiset(rest) && SameKey(x, rest[0]) && Grown(x, d) == Grown(rest[j], d)
    ensures Doubled(rest, j)
  {
    var k :| 0 <= k < |rest| && rest[k] == x;
  }

  // ---- The exact condition ----

  /** Every way of draining `m` fibers from the queue returns them in order. */
  ghost predicate AlwaysInOrder(es: seq<Entry>, a: nat, m: nat) {
    forall ss: seq<Q>, steps: seq<Step> :: Drain(ss, steps, es, a, m) ==> InOrder(steps, es, a)
  }

  lemma {:induction false} DrainShrinks(ss: seq<Q>, steps: seq<Step>, es: seq<Entry>, a: nat, m: nat, k: nat)
    requires Drain(ss, steps, es, a, m) && k <= m
    ensures |ss[k].entries| == |es| - k
  {
    if k > 0 {
      DrainShrinks(ss, steps, es, a, m, k - 1);
      assert StepOk(ss[k - 1], steps[k - 1], ss[k]);
      OneFewer(ss[k - 1], steps[k - 1], ss[k]);
    }
  }

  lemma OneFewer(s: Q, st: Step, t: Q)
    requires st.Next? && StepOk(s, st, t) && Unfinished(s.entries, st.finished) == s.entries
    ensures |t.entries| == |s.entries| - 1
  {
    assert |multiset(Candidates(s, st.finished))| == |s.entries|;
    assert |multiset(t.entries) + multiset{st.got}| == |t.entries| + 1;
  }

  /**
   Repeated Next drains the queue in priority order if and only if none of the fibers to be
   returned is displaced at the cap, in any sorted listing of the queue.
   */
  lemma DrainInOrderIff(es: seq<Entry>, a: nat, m: nat)
    ensures AlwaysInOrder(es, a, m) <==> m > |es| || !DisplacedIn(es, a, m)
  {
    hide InOrder; hide DisplacedIn; hide StepOk;
    if m > |es| {
      forall ss: seq<Q>, steps: seq<Step> ensures !Drain(ss, steps, es, a, m) {
        if Drain(ss, steps, es, a, m) { DrainShrinks(ss, steps, es, a, m, m); }
      }
    } else if DisplacedIn(es, a, m) {
      var ss, steps := DrainOutOfOrder(es, a, m);
    } else {
      forall ss: seq<Q>, steps: seq<Step> | Drain(ss, steps, es, a, m) ensures InOrder(steps, es, a) {
        DrainInOrder(ss, steps, es, a, m);
      }
    }
  }

  lemma UngrownAtFirst(listed: seq<Entry>, a: nat)
    ensures GrownAll(listed[0..], AgingsIn(a, 0)) == listed
  {
    AgingsInNext(a, 0);
  }

  lemma DrainOutOfOrder(es: seq<Entry>, a: nat, m: nat) returns (ss: seq<Q>, steps: seq<Step>)
    requires DisplacedIn(es, a, m) && m <= |es|
    ensures Drain(ss, steps, es, a, m) && !InOrder(steps, es, a)
  {
    hide Displaced; hide Strays; hide AgingsIn; hide GrownAll; hide Follows; hide StepOk; hide Sorted; hide Unfinished;
    var listed, at: nat :| Listing(listed, es) && at < m && at < |listed|
      && Displaced(listed[at..], AgingsIn(a, at + 1));
    PermutationLength(listed, es);
    UngrownAtFirst(listed, a);
    var ss', i, q;
    ss', steps, i, q := StrayingDrain(listed, a, 0, m, at);
    ss := DrainOfQueue(ss', steps, listed, es, a, m);
    forall own | Listing(own, es) ensures !Follows(steps, own, a) {
      StrayingIsNotInOrder(steps, listed, es, a, i, q, own);
    }
  }

  /** Each fiber is queued once. */
  ghost predicate DistinctIds(es: seq<Entry>) { forall i, j :: 0 <= i < j < |es| ==> es[i].id != es[j].id }

  /** With each fiber queued once, the condition can be read off any one listing. */
  lemma DisplacedIffOvertaken(es: seq<Entry>, a: nat, m: nat, listed: seq<Entry>)
    requires Listing(listed, es) && DistinctIds(listed) && m <= |listed|
    ensures DisplacedIn(es, a, m) <==> Overtaken(listed, a, m)
  {
    hide Listing;
    if Overtaken(listed, a, m) {
      var i: nat, j: nat :| i < m && i < j < |listed| && Passes(listed[i], listed[j], AgingsIn(a, i + 1));
      var rest := listed[i..];
      assert rest[j - i] == listed[j] && rest[0] == listed[i];
      forall k | 0 <= k < |rest| && rest[k].id == rest[j - i].id ensures !SameKey(rest[k], rest[0]) {
        assert rest[k] == listed[i + k];
        assert k == j - i;
      }
      assert Displaces(rest, j - i, AgingsIn(a, i + 1));
    } else {
      NotOvertakenIsNotDisplaced(es, listed, a, m);
    }
  }

  /** Below the cap nothing is overtaken. */
  lemma NotOvertakenBelowCap(listed: seq<Entry>, a: nat, m: nat)
    requires forall k :: 0 <= k < |listed| ==> listed[k].priority + AgingsIn(a, m) <= MAX_PRIORITY
    ensures !Overtaken(listed, a, m)
  {
    forall i, j | 0 <= i < m && i < j < |listed| ensures !Passes(listed[i], listed[j], AgingsIn(a, i + 1)) {
      assert AgingsIn(a, i + 1) <= AgingsIn(a, m);
    }
  }

  /** No two entries share priority and creation time. */
  ghost predicate DistinctKeys(es: seq<Entry>) {
    forall i, j :: 0 <= i < j < |es| ==> es[i].priority != es[j].priority || es[i].created != es[j].created
  }

  lemma SortedHeadsAgree(a: seq<Entry>, b: seq<Entry>)
    requires a != [] && b != [] && Sorted(a) && Sorted(b) && multiset(a) == multiset(b) && DistinctKeys(a)
    ensures a[0] == b[0]
  {
    assert b[0] in multiset(a) && a[0] in multiset(b);
    var i :| 0 <= i < |a| && a[i] == b[0];
    var j :| 0 <= j < |b| && b[j] == a[0];
    assert i == 0 || !Less(a[i], a[0]);
    assert j == 0 || !Less(b[j], b[0]);
  }

  lemma SortedTail(a: seq<Entry>)
    requires a != [] && Sorted(a)
    ensures Sorted(a[1..]) && (DistinctKeys(a) ==> DistinctKeys(a[1..]))
  {
  }

  lemma HeadOut(a: seq<Entry>)
    requires a != []
    ensures multiset(a) == multiset(a[1..]) + multiset{a[0]}
  {
    assert a == [a[0]] + a[1..];
  }

  lemma TailPermutes(a: seq<Entry>, b: seq<Entry>)
    requires a != [] && b != [] && a[0] == b[0] && multiset(a) == multiset(b)
    ensures multiset(a[1..]) == multiset(b[1..])
  {
    HeadOut(a);
    HeadOut(b);
    Cancel(multiset(a[1..]), multiset(b[1..]), a[0]);
  }

  lemma SameHeadAndTail(a: seq<Entry>, b: seq<Entry>)
    requires a != [] && b != [] && a[0] == b[0] && a[1..] == b[1..]
    ensures a == b
  {
    assert a == [a[0]] + a[1..] && b == [b[0]] + b[1..];
  }

  lemma {:induction false} SortedIsUnique(a: seq<Entry>, b: seq<Entry>)
    requires Sorted(a) && Sorted(b) && multiset(a) == multiset(b) && DistinctKeys(a)
    ensures a == b
    decreases |a|
  {
    hide Sorted; hide DistinctKeys;
    PermutationLength(a, b);
    if a != [] {
      SortedHeadsAgree(a, b);
      TailPermutes(a, b);
      SortedTail(a);
      SortedTail(b);
      SortedIsUnique(a[1..], b[1..]);
      SameHeadAndTail(a, b);
    }
  }

  /** With distinct keys what is returned is the listed run queue itself. */
  lemma DrainIsListedOrder(ss: seq<Q>, steps: seq<Step>, es: seq<Entry>, a: nat, m: nat, listed: seq<Entry>)
    requires Drain(ss, steps, es, a, m) && Listing(listed, es) && DistinctKeys(listed) && !Overtaken(listed, a, m)
    ensures Follows(steps, listed, a)
  {
    NotOvertakenIsNotDisplaced(es, listed, a, m);
    DrainInOrder(ss, steps, es, a, m);
    hide Follows; hide Sorted; hide DistinctKeys; hide DisplacedIn;
    var own :| Listing(own, es) && Follows(steps, own, a);
    SortedIsUnique(listed, own);
  }
}
