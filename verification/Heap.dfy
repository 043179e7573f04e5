/**
 The order of the priority scheduler's heap (internal/scheduler/priority.go) and Go's
 container/heap algorithms as functions.  Each gives the new arrangement and the positions
 it touched by swaps, since a swap also rewrites the index fields of the two items.
 */
module Heaps {
  import opened Fibers

  /** A queued fiber with its cached priority and creation time. */
  datatype Entry = Entry(id: FiberID, priority: int, created: int)

  /** Higher priorities first, earlier creation first among equals. */
  predicate Less(a: Entry, b: Entry) {
    if a.priority == b.priority then a.created < b.created else a.priority > b.priority
  }

  lemma LessIsStrictWeakOrder(a: Entry, b: Entry, c: Entry)
    ensures !(Less(a, b) && Less(b, a))
    ensures !Less(b, a) && !Less(c, b) ==> !Less(c, a)
  {
  }

  /** Parent position; Go's (j-1)/2 is 0 for the root. */
  function Parent(k: nat): nat { if k == 0 then 0 else (k - 1) / 2 }

  /** Position `k` does not precede its parent. */
  predicate EdgeOk(es: seq<Entry>, k: int)
    requires 0 < k < |es|
  {
    !Less(es[k], es[Parent(k)])
  }

  /** Heap order on the first `n` positions, below parents at `lo` or later. */
  predicate Ordered(es: seq<Entry>, n: int, lo: int)
    requires n <= |es|
  {
    forall k :: 0 < k < n && lo <= Parent(k) ==> EdgeOk(es, k)
  }

  /** Heap order but for the edge above `i`. */
  predicate OrderedBut(es: seq<Entry>, n: int, lo: int, i: int)
    requires n <= |es|
  {
    forall k :: 0 < k < n && lo <= Parent(k) && k != i ==> EdgeOk(es, k)
  }

  /** Heap order but for the edges above and below `i`. */
  predicate OrderedAround(es: seq<Entry>, n: int, lo: int, i: int)
    requires n <= |es|
  {
    forall k :: 0 < k < n && lo <= Parent(k) && k != i && Parent(k) != i ==> EdgeOk(es, k)
  }

  /** The children of `i` do not precede its parent. */
  predicate Bridged(es: seq<Entry>, n: int, lo: int, i: nat)
    requires n <= |es|
  {
    forall k :: 0 < k < n && Parent(k) == i && i > 0 && lo <= Parent(i) ==> !Less(es[k], es[Parent(i)])
  }

  predicate HeapOrder(es: seq<Entry>) { Ordered(es, |es|, 0) }

  function SwapEntries(es: seq<Entry>, i: nat, j: nat): (r: seq<Entry>)
    requires i < |es| && j < |es|
    ensures |r| == |es|
  {
    es[i := es[j]][j := es[i]]
  }

  lemma SwapPermutes(es: seq<Entry>, i: nat, j: nat)
    requires i < |es| && j < |es|
    ensures multiset(SwapEntries(es, i, j)) == multiset(es)
  {
  }

  /** A new arrangement and the positions that were swapped to get there. */
  datatype Moved = Moved(es: seq<Entry>, touched: set<nat>)

  // ---- Sifting up ----

  /** One step of sifting up: the child `j` preceded its parent. */
  lemma SwapUp(es: seq<Entry>, n: int, j: nat)
    requires 0 < j < n <= |es| && Less(es[j], es[Parent(j)])
    requires OrderedBut(es, n, 0, j) && Bridged(es, n, 0, j)
    ensures var r := SwapEntries(es, Parent(j), j);
      OrderedBut(r, n, 0, Parent(j)) && Bridged(r, n, 0, Parent(j))
  {
    var i := Parent(j);
    var r := SwapEntries(es, i, j);
    forall k | 0 < k < n && k != i ensures EdgeOk(r, k) {
      assert k != j ==> EdgeOk(es, k);
      LessIsStrictWeakOrder(es[j], es[i], es[k]);
    }
    forall k | 0 < k < n && Parent(k) == i && i > 0 ensures !Less(r[k], r[Parent(i)]) {
      assert EdgeOk(es, i);
      assert k != j ==> EdgeOk(es, k);
      LessIsStrictWeakOrder(es[Parent(i)], es[i], es[k]);
    }
  }

  /** The two agree from position `n` on. */
  predicate SameFrom(es: seq<Entry>, was: seq<Entry>, n: int) {
    |es| == |was| && forall k :: 0 <= k < |es| && n <= k ==> es[k] == was[k]
  }

  /** Position `j` does not precede its parent, or is the root. */
  predicate UpSettled(es: seq<Entry>, j: nat)
    requires j < |es|
  {
    j == Parent(j) || !Less(es[j], es[Parent(j)])
  }

  lemma UpDone(es: seq<Entry>, n: int, j: nat)
    requires j < n <= |es| && OrderedBut(es, n, 0, j)
    requires UpSettled(es, j)
    ensures Ordered(es, n, 0)
  {
  }

  /** container/heap's up. */
  function SiftUp(es: seq<Entry>, j: nat): (r: Moved)
    requires j < |es|
    ensures |r.es| == |es|
    ensures forall k :: k in r.touched ==> k <= j
    decreases j
  {
    if UpSettled(es, j) then Moved(es, {})
    else
      var rest := SiftUp(SwapEntries(es, Parent(j), j), Parent(j));
      Moved(rest.es, rest.touched + {Parent(j), j})
  }

  /** Sifting up repairs the edge above `j` if that is all that is wrong. */
  lemma {:induction false} SiftUpOrders(es: seq<Entry>, n: int, j: nat)
    requires j < n <= |es| && OrderedBut(es, n, 0, j) && Bridged(es, n, 0, j)
    ensures Ordered(SiftUp(es, j).es, n, 0)
    decreases j
  {
    hide OrderedBut; hide Ordered; hide Bridged;
    if UpSettled(es, j) {
      UpDone(es, n, j);
    } else {
      SwapUp(es, n, j);
      SiftUpOrders(SwapEntries(es, Parent(j), j), n, Parent(j));
    }
  }

  lemma {:induction false} SiftUpPermutes(es: seq<Entry>, j: nat)
    requires j < |es|
    ensures multiset(SiftUp(es, j).es) == multiset(es)
    decreases j
  {
    if !UpSettled(es, j) {
      SwapPermutes(es, Parent(j), j);
      SiftUpPermutes(SwapEntries(es, Parent(j), j), Parent(j));
    }
  }

  lemma {:induction false} SiftUpSameFrom(es: seq<Entry>, n: int, j: nat)
    requires j < n <= |es|
    ensures SameFrom(SiftUp(es, j).es, es, n)
    decreases j
  {
    if !UpSettled(es, j) { SiftUpSameFrom(SwapEntries(es, Parent(j), j), n, Parent(j)); }
  }

  // ---- Sifting down ----

  /** The child of `i` that comes first. */
  predicate BestChild(es: seq<Entry>, n: int, i: nat, j: nat)
    requires n <= |es|
  {
    && i < j < n && Parent(j) == i
    && forall k :: 0 < k < n && Parent(k) == i ==> !Less(es[k], es[j])
  }

  /** One step of sifting down: the best child `j` precedes `i`. */
  lemma SwapDown(es: seq<Entry>, n: int, lo: int, i: nat, j: nat)
    requires n <= |es| && BestChild(es, n, i, j) && Less(es[j], es[i]) && lo <= i
    requires OrderedAround(es, n, lo, i) && Bridged(es, n, lo, i)
    ensures var r := SwapEntries(es, i, j);
      && OrderedAround(r, n, lo, j) && Bridged(r, n, lo, j)
      && EdgeOk(r, j) && (i > 0 && lo <= Parent(i) ==> EdgeOk(r, i))
  {
    var r := SwapEntries(es, i, j);
    forall k | 0 < k < n && lo <= Parent(k) && Parent(k) != j ensures EdgeOk(r, k) {
      assert k != i && Parent(k) != i ==> EdgeOk(es, k);
      assert k == i ==> !Less(es[j], es[Parent(i)]);
    }
    forall k | 0 < k < n && Parent(k) == j ensures !Less(r[k], r[i]) {
      assert EdgeOk(es, k);
    }
  }

  /** The first of the children of `i`, the left one among equals. */
  function FirstChild(es: seq<Entry>, n: int, i: nat): (j: nat)
    requires 2 * i + 1 < n <= |es|
    ensures BestChild(es, n, i, j)
  {
    LessIsStrictWeakOrder(es[2 * i + 1], es[2 * i + 1], es[2 * i + 1]);
    if 2 * i + 2 < n && Less(es[2 * i + 2], es[2 * i + 1]) then 2 * i + 2 else 2 * i + 1
  }

  /** No child of `i` precedes it. */
  predicate Settled(es: seq<Entry>, n: int, i: nat)
    requires i < n <= |es|
  {
    2 * i + 1 < n ==> !Less(es[FirstChild(es, n, i)], es[i])
  }

  /** Sifting down from `i0` has reached `i`. */
  predicate Sifting(es: seq<Entry>, n: int, lo: int, i0: nat, i: nat)
    requires i < n <= |es|
  {
    && OrderedAround(es, n, lo, i) && Bridged(es, n, lo, i)
    && (i != i0 ==> 0 < i && EdgeOk(es, i))
  }

  lemma SiftStep(es: seq<Entry>, n: int, lo: int, i0: nat, i: nat)
    requires lo <= i0 <= i < n <= |es| && Sifting(es, n, lo, i0, i) && !Settled(es, n, i)
    ensures Sifting(SwapEntries(es, i, FirstChild(es, n, i)), n, lo, i0, FirstChild(es, n, i))
  {
    SwapDown(es, n, lo, i, FirstChild(es, n, i));
  }

  lemma SiftDone(es: seq<Entry>, n: int, lo: int, i0: nat, i: nat)
    requires i < n <= |es| && Sifting(es, n, lo, i0, i) && Settled(es, n, i)
    ensures OrderedBut(es, n, lo, i) && (i != i0 ==> Ordered(es, n, lo))
  {
    forall k | 0 < k < n && Parent(k) == i ensures EdgeOk(es, k) {
      var j := FirstChild(es, n, i);
      LessIsStrictWeakOrder(es[i], es[j], es[k]);
    }
  }

  /** container/heap's down on the first `n` positions. */
  function SiftDown(es: seq<Entry>, n: int, i: nat): (r: Moved)
    requires i < n <= |es|
    ensures |r.es| == |es|
    ensures forall k :: k in r.touched ==> i <= k < n
    decreases n - i
  {
    if Settled(es, n, i) then Moved(es, {})
    else
      var j := FirstChild(es, n, i);
      var rest := SiftDown(SwapEntries(es, i, j), n, j);
      Moved(rest.es, rest.touched + {i, j})
  }

  lemma SettledStays(es: seq<Entry>, n: int, i: nat)
    requires i < n <= |es| && Settled(es, n, i)
    ensures SiftDown(es, n, i) == Moved(es, {})
  {
  }

  /** Sifting down repairs the edges below `i`, and those above if it moved anything. */
  lemma {:induction false} SiftDownOrders(es: seq<Entry>, n: int, lo: int, i0: nat, i: nat)
    requires lo <= i0 <= i < n <= |es| && Sifting(es, n, lo, i0, i)
    ensures var r := SiftDown(es, n, i);
      if i == i0 && Settled(es, n, i) then OrderedBut(r.es, n, lo, i) else Ordered(r.es, n, lo)
    decreases n - i
  {
    hide OrderedBut; hide Ordered; hide Sifting;
    if Settled(es, n, i) {
      SiftDone(es, n, lo, i0, i);
    } else {
      var j := FirstChild(es, n, i);
      SiftStep(es, n, lo, i0, i);
      SiftDownOrders(SwapEntries(es, i, j), n, lo, i0, j);
    }
  }

  lemma {:induction false} SiftDownPermutes(es: seq<Entry>, n: int, i: nat)
    requires i < n <= |es|
    ensures multiset(SiftDown(es, n, i).es) == multiset(es)
    decreases n - i
  {
    if !Settled(es, n, i) {
      var j := FirstChild(es, n, i);
      SwapPermutes(es, i, j);
      SiftDownPermutes(SwapEntries(es, i, j), n, j);
    }
  }

  lemma {:induction false} SiftDownSameFrom(es: seq<Entry>, n: int, i: nat)
    requires i < n <= |es|
    ensures SameFrom(SiftDown(es, n, i).es, es, n)
    decreases n - i
  {
    if !Settled(es, n, i) {
      var j := FirstChild(es, n, i);
      SiftDownSameFrom(SwapEntries(es, i, j), n, j);
    }
  }

  /** Writing position `i` of a heap disturbs only the edges at `i`. */
  lemma ReplacedAt(es: seq<Entry>, r: seq<Entry>, n: int, i: nat)
    requires i < n <= |es| == |r| && HeapOrder(es)
    requires forall k :: 0 <= k < n && k != i ==> r[k] == es[k]
    ensures OrderedAround(r, n, 0, i) && Bridged(r, n, 0, i)
  {
    forall k | 0 < k < n && k != i && Parent(k) != i ensures EdgeOk(r, k) {
      assert EdgeOk(es, k);
    }
    forall k | 0 < k < n && Parent(k) == i && i > 0 ensures !Less(r[k], r[Parent(i)]) {
      assert EdgeOk(es, k) && EdgeOk(es, i);
      LessIsStrictWeakOrder(es[Parent(i)], es[i], es[k]);
    }
  }

  /** Swapping item `i` of a heap with the last disturbs only the edges at `i`, the last left aside. */
  lemma SwappedOut(es: seq<Entry>, i: nat)
    requires i < |es|
    ensures SwapEntries(es, i, |es| - 1)[|es| - 1] == es[i]
    ensures HeapOrder(es) && i < |es| - 1 ==>
      var r := SwapEntries(es, i, |es| - 1); OrderedAround(r, |es| - 1, 0, i) && Bridged(r, |es| - 1, 0, i)
  {
    if HeapOrder(es) && i < |es| - 1 { ReplacedAt(es, SwapEntries(es, i, |es| - 1), |es| - 1, i); }
  }

  lemma PrefixOrder(es: seq<Entry>, n: nat)
    requires n <= |es| && Ordered(es, n, 0)
    ensures HeapOrder(es[..n])
  {
    forall k | 0 < k < n ensures EdgeOk(es[..n], k) {
      assert EdgeOk(es, k);
    }
  }

  lemma HeapPrefix(es: seq<Entry>, n: nat)
    requires n <= |es| && HeapOrder(es)
    ensures Ordered(es, n, 0)
  {
  }

  lemma RootHasNoParent(es: seq<Entry>, n: int)
    requires n <= |es| && OrderedBut(es, n, 0, 0)
    ensures Ordered(es, n, 0)
  {
  }

  lemma NothingToOrder(es: seq<Entry>)
    ensures Ordered(es, 0, 0)
  {
  }

  /** In heap order the root comes first. */
  lemma {:induction false} RootIsFirst(es: seq<Entry>, k: nat)
    requires HeapOrder(es) && k < |es|
    ensures !Less(es[k], es[0])
  {
    if k > 0 {
      RootIsFirst(es, Parent(k));
      assert EdgeOk(es, k);
      LessIsStrictWeakOrder(es[0], es[Parent(k)], es[k]);
    }
  }

  /** No entry of `es` precedes `x`. */
  ghost predicate First(es: seq<Entry>, x: Entry) { forall k :: 0 <= k < |es| ==> !Less(es[k], x) }

  lemma RootComesFirst(es: seq<Entry>)
    requires HeapOrder(es) && es != []
    ensures First(es, es[0])
  {
    forall k | 0 <= k < |es| ensures !Less(es[k], es[0]) { RootIsFirst(es, k); }
  }

  // ---- Fix, Init, Push, Pop and Remove ----

  /** container/heap's Fix on the first `n` positions. */
  function FixAt(es: seq<Entry>, n: int, i: nat): (r: Moved)
    requires i < n <= |es|
    ensures |r.es| == |es|
  {
    if Settled(es, n, i) then SiftUp(es, i) else SiftDown(es, n, i)
  }

  /** Fixing repairs the order if it is wrong only at `i`. */
  lemma FixOrders(es: seq<Entry>, n: int, i: nat)
    requires i < n <= |es| && OrderedAround(es, n, 0, i) && Bridged(es, n, 0, i)
    ensures Ordered(FixAt(es, n, i).es, n, 0)
  {
    hide OrderedBut; hide Ordered; hide Settled; hide Bridged; hide OrderedAround; hide SiftDown; hide SiftUp;
    SiftDownOrders(es, n, 0, i, i);
    if Settled(es, n, i) {
      SiftDone(es, n, 0, i, i);
      SiftUpOrders(es, n, i);
    }
  }

  lemma FixPermutes(es: seq<Entry>, n: int, i: nat)
    requires i < n <= |es|
    ensures multiset(FixAt(es, n, i).es) == multiset(es)
  {
    SiftDownPermutes(es, n, i);
    SiftUpPermutes(es, i);
  }

  lemma FixSameFrom(es: seq<Entry>, n: int, i: nat)
    requires i < n <= |es|
    ensures SameFrom(FixAt(es, n, i).es, es, n)
  {
    SiftDownSameFrom(es, n, i);
    SiftUpSameFrom(es, n, i);
  }

  /** The part of container/heap's Init that sifts down positions i-1 to 0. */
  function Build(es: seq<Entry>, i: nat): (r: Moved)
    requires i <= |es|
    ensures |r.es| == |es|
    decreases i
  {
    if i == 0 then Moved(es, {})
    else
      var d := SiftDown(es, |es|, i - 1);
      var rest := Build(d.es, i - 1);
      Moved(rest.es, d.touched + rest.touched)
  }

  /** container/heap's Init. */
  function Heapified(es: seq<Entry>): (r: Moved)
    ensures |r.es| == |es|
  {
    Build(es, |es| / 2)
  }

  lemma {:induction false} BuildOrders(es: seq<Entry>, i: nat)
    requires i <= |es| && Ordered(es, |es|, i)
    ensures HeapOrder(Build(es, i).es)
    decreases i
  {
    if i > 0 {
      var d := SiftDown(es, |es|, i - 1);
      assert Sifting(es, |es|, i - 1, i - 1, i - 1);
      SiftDownOrders(es, |es|, i - 1, i - 1, i - 1);
      assert Ordered(d.es, |es|, i - 1);
      BuildOrders(d.es, i - 1);
    }
  }

  lemma {:induction false} BuildPermutes(es: seq<Entry>, i: nat)
    requires i <= |es|
    ensures multiset(Build(es, i).es) == multiset(es)
    decreases i
  {
    if i > 0 {
      SiftDownPermutes(es, |es|, i - 1);
      BuildPermutes(SiftDown(es, |es|, i - 1).es, i - 1);
    }
  }

  lemma HeapifiedPermutes(es: seq<Entry>)
    ensures multiset(Heapified(es).es) == multiset(es)
  {
    BuildPermutes(es, |es| / 2);
  }

  lemma HeapifiedOrders(es: seq<Entry>)
    ensures HeapOrder(Heapified(es).es)
  {
    assert Ordered(es, |es|, |es| / 2);
    BuildOrders(es, |es| / 2);
  }

  lemma HeapIsSettled(es: seq<Entry>, i: nat)
    requires HeapOrder(es) && i < |es|
    ensures Settled(es, |es|, i)
  {
    assert 2 * i + 1 < |es| ==> EdgeOk(es, FirstChild(es, |es|, i));
  }

  /** Init leaves a heap alone. */
  lemma {:induction false} BuildKeepsHeap(es: seq<Entry>, i: nat)
    requires i <= |es| && HeapOrder(es)
    ensures Build(es, i) == Moved(es, {})
    decreases i
  {
    hide HeapOrder; hide SiftDown; hide Settled;
    if i > 0 {
      HeapIsSettled(es, i - 1);
      SettledStays(es, |es|, i - 1);
      BuildKeepsHeap(es, i - 1);
    }
  }

  /** container/heap's Push. */
  function Pushed(es: seq<Entry>, e: Entry): (r: Moved)
    ensures |r.es| == |es| + 1
  {
    SiftUp(es + [e], |es|)
  }

  /** An entry appended to a heap is out of order at most with its parent. */
  lemma PushedAtEnd(es: seq<Entry>, e: Entry)
    requires HeapOrder(es)
    ensures OrderedBut(es + [e], |es| + 1, 0, |es|) && Bridged(es + [e], |es| + 1, 0, |es|)
  {
    forall k | 0 < k < |es| ensures EdgeOk(es + [e], k) { assert EdgeOk(es, k); }
  }

  lemma PushAddsOne(es: seq<Entry>, e: Entry)
    ensures multiset(Pushed(es, e).es) == multiset(es) + multiset{e}
  {
    SiftUpPermutes(es + [e], |es|);
  }

  lemma PushOrders(es: seq<Entry>, e: Entry)
    requires HeapOrder(es)
    ensures HeapOrder(Pushed(es, e).es)
  {
    PushedAtEnd(es, e);
    SiftUpOrders(es + [e], |es| + 1, |es|);
  }

  /** container/heap's Pop. */
  function Popped(es: seq<Entry>): (r: Moved)
    requires es != []
    ensures |r.es| == |es| - 1
  {
    var n := |es| - 1;
    if n == 0 then Moved([], {})
    else
      var d := SiftDown(SwapEntries(es, 0, n), n, 0);
      Moved(d.es[..n], {0, n} + d.touched)
  }

  /** container/heap's Remove at position `i`. */
  function Removed(es: seq<Entry>, i: nat): (r: Moved)
    requires i < |es|
    ensures |r.es| == |es| - 1
  {
    var n := |es| - 1;
    if i == n then Moved(es[..n], {})
    else
      var f := FixAt(SwapEntries(es, i, n), n, i);
      Moved(f.es[..n], {i, n} + f.touched)
  }

  /** Cutting off the last item takes out just that. */
  lemma CutLast(es: seq<Entry>, x: Entry)
    requires es != [] && es[|es| - 1] == x
    ensures multiset(es[..|es| - 1]) + multiset{x} == multiset(es)
  {
    assert es == es[..|es| - 1] + [x];
  }

  lemma PopTakesRoot(es: seq<Entry>)
    requires es != []
    ensures multiset(Popped(es).es) + multiset{es[0]} == multiset(es)
    ensures HeapOrder(es) ==> HeapOrder(Popped(es).es) && First(es, es[0])
  {
    hide SiftDown; hide HeapOrder; hide First; hide Ordered; hide OrderedBut; hide SwapEntries;
    hide OrderedAround; hide Bridged;
    var n := |es| - 1;
    var s := SwapEntries(es, 0, n);
    SwappedOut(es, 0);
    if HeapOrder(es) { RootComesFirst(es); }
    if n == 0 {
      NothingToOrder([]);
      PrefixOrder([], 0);
      CutLast(es, es[0]);
    } else {
      var d := SiftDown(s, n, 0);
      SwapPermutes(es, 0, n);
      SiftDownPermutes(s, n, 0);
      SiftDownSameFrom(s, n, 0);
      CutLast(d.es, es[0]);
      if HeapOrder(es) {
        SiftDownOrders(s, n, 0, 0, 0);
        if Settled(s, n, 0) { RootHasNoParent(d.es, n); }
        PrefixOrder(d.es, n);
      }
    }
  }

  lemma RemoveTakesOne(es: seq<Entry>, i: nat)
    requires i < |es|
    ensures multiset(Removed(es, i).es) + multiset{es[i]} == multiset(es)
    ensures HeapOrder(es) ==> HeapOrder(Removed(es, i).es)
  {
    hide FixAt; hide HeapOrder; hide Ordered; hide SwapEntries; hide OrderedAround; hide Bridged;
    var n := |es| - 1;
    if i == n {
      CutLast(es, es[i]);
      if HeapOrder(es) {
        HeapPrefix(es, n);
        PrefixOrder(es, n);
      }
    } else {
      var s := SwapEntries(es, i, n);
      var f := FixAt(s, n, i);
      SwapPermutes(es, i, n);
      FixPermutes(s, n, i);
      SwappedOut(es, i);
      FixSameFrom(s, n, i);
      CutLast(f.es, es[i]);
      if HeapOrder(es) {
        FixOrders(s, n, i);
        PrefixOrder(f.es, n);
      }
    }
  }
}
