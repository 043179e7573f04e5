/**
 PriorityQueue (internal/scheduler/priority.go).  An item is a cached key and an index field;
 `entries[k]` is the key and `index[k]` the index field of the item at position k.  The
 methods carry out the heap algorithms in place, index fields included.
 */
module PriorityQueues {
  import opened Fibers
  import opened Heaps

  // ---- Index fields ----

  /** Index fields agree with positions. */
  predicate Positions(index: seq<nat>) { forall k :: 0 <= k < |index| ==> index[k] == k }

  /** No index field is below its position: items move towards the front without a rewrite, never back. */
  predicate NotBelow(index: seq<nat>) { forall k :: 0 <= k < |index| ==> index[k] >= k }

  /** The index fields after swaps that touched the positions `t`. */
  function Touch(index: seq<nat>, t: set<nat>): (r: seq<nat>)
    ensures |r| == |index|
    ensures forall k :: 0 <= k < |r| ==> r[k] == if k in t then k else index[k]
  {
    seq(|index|, k requires 0 <= k < |index| => if k in t then k else index[k])
  }

  lemma TouchTwice(index: seq<nat>, a: set<nat>, b: set<nat>)
    ensures Touch(Touch(index, a), b) == Touch(index, a + b)
  {
  }

  lemma TouchNothing(index: seq<nat>)
    ensures Touch(index, {}) == index
  {
  }

  lemma TouchKeepsPositions(index: seq<nat>, t: set<nat>)
    requires Positions(index)
    ensures Touch(index, t) == index
  {
  }

  lemma PositionsPrefix(index: seq<nat>, n: nat)
    requires n <= |index|
    ensures Positions(index) ==> Positions(index[..n])
  {
  }

  lemma PushKeepsPositions(index: seq<nat>)
    ensures Positions(index) ==> Positions(index + [|index|])
  {
  }

  // ---- Finished fibers ----

  /** The entries of fibers that have not finished, in order. */
  function Unfinished(es: seq<Entry>, finished: set<FiberID>): (r: seq<Entry>)
    ensures |r| <= |es|
    ensures (forall k :: 0 <= k < |es| ==> es[k].id !in finished) ==> r == es
    ensures |r| == |es| ==> forall k :: 0 <= k < |es| ==> es[k].id !in finished
    ensures forall k :: 0 <= k < |r| ==> r[k].id !in finished
  {
    if es == [] then []
    else
      var last := es[|es| - 1];
      assert es == es[..|es| - 1] + [last];
      Unfinished(es[..|es| - 1], finished) + (if last.id in finished then [] else [last])
  }

  /** The index fields that stay with those entries. */
  function UnfinishedIndex(es: seq<Entry>, index: seq<nat>, finished: set<FiberID>): (r: seq<nat>)
    requires |es| == |index|
    ensures |r| == |Unfinished(es, finished)|
    ensures (forall k :: 0 <= k < |es| ==> es[k].id !in finished) ==> r == index
  {
    if es == [] then []
    else
      var n := |es| - 1;
      assert index == index[..n] + [index[n]];
      UnfinishedIndex(es[..n], index[..n], finished) + (if es[n].id in finished then [] else [index[n]])
  }

  lemma {:induction false} UnfinishedNext(es: seq<Entry>, index: seq<nat>, finished: set<FiberID>, i: nat)
    requires i < |es| == |index|
    ensures Unfinished(es[..i + 1], finished)
      == Unfinished(es[..i], finished) + if es[i].id in finished then [] else [es[i]]
    ensures UnfinishedIndex(es[..i + 1], index[..i + 1], finished)
      == UnfinishedIndex(es[..i], index[..i], finished) + if es[i].id in finished then [] else [index[i]]
  {
    assert es[..i + 1][..i] == es[..i] && index[..i + 1][..i] == index[..i];
  }

  /** Position of the first finished fiber, or the length. */
  function FirstFinished(es: seq<Entry>, finished: set<FiberID>): (f: nat)
    ensures f <= |es| && (f < |es| ==> es[f].id in finished)
    ensures forall k :: 0 <= k < f ==> es[k].id !in finished
  {
    if es == [] || es[0].id in finished then 0
    else
      assert forall k :: 1 <= k < |es| ==> es[k] == es[1..][k - 1];
      1 + FirstFinished(es[1..], finished)
  }

  /** What compaction of the first `n` items leaves: index fields are right before the first finished fiber. */
  ghost predicate StaleBehind(at: seq<nat>, first: nat, n: nat) {
    && (if n <= first then |at| == n else first <= |at| < n)
    && forall k :: 0 <= k < |at| ==> at[k] >= k && (at[k] == k <==> k < first)
  }

  lemma {:induction false} StalePrefix(es: seq<Entry>, index: seq<nat>, finished: set<FiberID>, n: nat)
    requires n <= |es| == |index| && Positions(index)
    ensures StaleBehind(UnfinishedIndex(es[..n], index[..n], finished), FirstFinished(es, finished), n)
  {
    hide Unfinished; hide UnfinishedIndex; hide FirstFinished;
    if n > 0 {
      var at, first := UnfinishedIndex(es[..n - 1], index[..n - 1], finished), FirstFinished(es, finished);
      StalePrefix(es, index, finished, n - 1);
      UnfinishedNext(es, index, finished, n - 1);
      if es[n - 1].id in finished { assert at + [] == at; }
    }
  }

  /** Compaction leaves index = position exactly before the first finished fiber. */
  lemma StaleFromFirstFinished(es: seq<Entry>, index: seq<nat>, finished: set<FiberID>)
    requires |es| == |index| && Positions(index)
    ensures StaleBehind(UnfinishedIndex(es, index, finished), FirstFinished(es, finished), |es|)
  {
    StalePrefix(es, index, finished, |es|);
    assert es[..|es|] == es && index[..|es|] == index;
  }

  /** When just the root has finished, the other items move up with their index fields. */
  lemma {:induction false} RootGone(es: seq<Entry>, index: seq<nat>, finished: set<FiberID>, n: nat)
    requires 0 < n <= |es| == |index| && es[0].id in finished
    requires forall k :: 1 <= k < |es| ==> es[k].id !in finished
    ensures Unfinished(es[..n], finished) == es[1..n]
    ensures UnfinishedIndex(es[..n], index[..n], finished) == index[1..n]
  {
    hide Unfinished; hide UnfinishedIndex;
    UnfinishedNext(es, index, finished, n - 1);
    if n > 1 {
      RootGone(es, index, finished, n - 1);
      assert es[1..n] == es[1..n - 1] + [es[n - 1]] && index[1..n] == index[1..n - 1] + [index[n - 1]];
    }
  }

  // ---- Aging ----

  const MAX_PRIORITY: int := 0x4000_0000

  function AgedEntry(e: Entry): Entry { if e.priority < MAX_PRIORITY then e.(priority := e.priority + 1) else e }

  /** Every entry aged by one, up to the cap. */
  function Aged(es: seq<Entry>): (r: seq<Entry>)
    ensures |r| == |es|
  {
    seq(|es|, i requires 0 <= i < |es| => AgedEntry(es[i]))
  }

  function Rekeyed(es: seq<Entry>, k: nat, priority: int): (r: seq<Entry>)
    requires k < |es|
    ensures |r| == |es|
  {
    es[k := es[k].(priority := priority)]
  }

  // ---- A new key, and a Fix somewhere ----

  /** Entry `x` at position `k` would precede neither its parent nor be preceded by a child. */
  predicate Fits(es: seq<Entry>, k: nat, x: Entry)
    requires k < |es|
  {
    && (k > 0 ==> !Less(x, es[Parent(k)]))
    && (forall c :: 0 < c < |es| && Parent(c) == k ==> !Less(es[c], x))
  }

  /** The child `i` of `k` comes up for `x`: it is a first child, and `x` fits where it was. */
  predicate Trades(es: seq<Entry>, k: nat, x: Entry, i: nat)
    requires k < |es|
  {
    && 0 < i < |es| && Parent(i) == k && Less(es[i], x)
    && (forall c :: 0 < c < |es| && Parent(c) == k ==> !Less(es[c], es[i]))
    && (forall c :: 0 < c < |es| && Parent(c) == i ==> !Less(es[c], x))
  }

  /** What Fix at `i` needs to leave a heap in order whose key at `k` was rewritten. */
  predicate FixSuffices(es: seq<Entry>, k: nat, priority: int, i: nat)
    requires k < |es|
  {
    var x := es[k].(priority := priority);
    i == k || Fits(es, k, x) || Trades(es, k, x, i)
  }

  /** Without a Fix: the new key must fit where it is. */
  lemma RekeyedOrderIff(es: seq<Entry>, k: nat, priority: int)
    requires HeapOrder(es) && k < |es|
    ensures HeapOrder(Rekeyed(es, k, priority)) <==> Fits(es, k, es[k].(priority := priority))
  {
    var r, x := Rekeyed(es, k, priority), es[k].(priority := priority);
    if HeapOrder(r) {
      assert k > 0 ==> EdgeOk(r, k);
      forall c | 0 < c < |es| && Parent(c) == k ensures !Less(es[c], x) { assert EdgeOk(r, c); }
    }
    if Fits(es, k, x) {
      forall c | 0 < c < |es| ensures EdgeOk(r, c) { assert EdgeOk(es, c); }
    }
  }

  /** Fix behind `k` finds nothing to do below, and above at most the edge to `k`. */
  lemma FixBehind(es: seq<Entry>, k: nat, priority: int, i: nat)
    requires HeapOrder(es) && k < i < |es|
    ensures var r, x := Rekeyed(es, k, priority), es[k].(priority := priority);
      FixAt(r, |r|, i).es == if Parent(i) == k && Less(es[i], x) then SwapEntries(r, k, i) else r
  {
    var r, x := Rekeyed(es, k, priority), es[k].(priority := priority);
    assert Settled(r, |r|, i) by { if 2 * i + 1 < |r| { assert EdgeOk(es, FirstChild(r, |r|, i)); } }
    assert EdgeOk(es, i);
    if Parent(i) == k && Less(es[i], x) {
      var t := SwapEntries(r, k, i);
      assert UpSettled(t, k) by {
        if k > 0 {
          assert EdgeOk(es, k);
          LessIsStrictWeakOrder(es[Parent(k)], es[k], es[i]);
        }
      }
      assert SiftUp(t, k).es == t;
    }
  }

  /** The child has come up: in order exactly if it is a first child and `x` fits below. */
  lemma TradedOrderIff(es: seq<Entry>, k: nat, priority: int, i: nat)
    requires HeapOrder(es) && k < i < |es| && Parent(i) == k && Less(es[i], es[k].(priority := priority))
    ensures var x := es[k].(priority := priority);
      HeapOrder(SwapEntries(Rekeyed(es, k, priority), k, i)) <==> Trades(es, k, x, i)
  {
    var x := es[k].(priority := priority);
    var t := SwapEntries(Rekeyed(es, k, priority), k, i);
    LessIsStrictWeakOrder(es[i], x, x);
    if HeapOrder(t) {
      forall c | 0 < c < |es| && (Parent(c) == k || Parent(c) == i) ensures EdgeOk(t, c) {}
    }
    if Trades(es, k, x, i) {
      forall c | 0 < c < |es| ensures EdgeOk(t, c) {
        assert EdgeOk(es, c);
        if c == k {
          assert EdgeOk(es, i);
          LessIsStrictWeakOrder(es[Parent(k)], es[k], es[i]);
        }
      }
    }
  }

  /** A heap with a new key at `k`, fixed at `k` or behind it, is in order if and only if that suffices. */
  lemma FixSufficesIff(es: seq<Entry>, k: nat, priority: int, i: nat)
    requires HeapOrder(es) && k <= i && k < |es|
    ensures var r := Rekeyed(es, k, priority);
      HeapOrder(if i < |es| then FixAt(r, |r|, i).es else r) <==> FixSuffices(es, k, priority, i)
  {
    var r, x := Rekeyed(es, k, priority), es[k].(priority := priority);
    hide HeapOrder; hide FixAt;
    if i == k {
      ReplacedAt(es, r, |r|, i);
      FixOrders(r, |r|, i);
      OrderedIsHeap(FixAt(r, |r|, i).es);
    } else if i >= |es| {
      RekeyedOrderIff(es, k, priority);
    } else {
      FixBehind(es, k, priority, i);
      RekeyedOrderIff(es, k, priority);
      if Parent(i) == k && Less(es[i], x) { TradedOrderIff(es, k, priority, i); }
    }
  }

  lemma OrderedIsHeap(es: seq<Entry>)
    requires Ordered(es, |es|, 0)
    ensures HeapOrder(es)
  {
  }

  lemma NothingToBuild(index: seq<nat>)
    requires index == []
    ensures Heapified([]) == Moved([], {}) && Touch(index, {}) == []
  {
  }

  // ---- Next ----

  /** What Next does to a queue of unfinished items before the pop: Init, and aging with Init. */
  function Refreshed(live: seq<Entry>, aging: bool): (r: Moved)
    ensures |r.es| == |live|
  {
    var a := Heapified(live);
    if aging then
      var b := Heapified(Aged(a.es));
      Moved(b.es, a.touched + b.touched)
    else a
  }

  /** And with the pop. */
  function Served(live: seq<Entry>, aging: bool): (r: Moved)
    requires live != []
    ensures |r.es| == |live| - 1
  {
    var b := Refreshed(live, aging);
    var c := Popped(b.es);
    Moved(c.es, b.touched + c.touched)
  }

  /** The index fields after Next. */
  function ServedIndex(es: seq<Entry>, index: seq<nat>, finished: set<FiberID>, aging: bool): (r: seq<nat>)
    requires |es| == |index| && Unfinished(es, finished) != []
    ensures |r| == |Unfinished(es, finished)| - 1
  {
    var live := Unfinished(es, finished);
    Touch(UnfinishedIndex(es, index, finished), Served(live, aging).touched)[..|live| - 1]
  }

  /**
   Next keeps index = position if and only if its swaps touch every position, but the last,
   from the first finished fiber on.
   */
  lemma NextKeepsPositionsIff(es: seq<Entry>, index: seq<nat>, finished: set<FiberID>, aging: bool)
    requires |es| == |index| && Positions(index) && Unfinished(es, finished) != []
    ensures var live := Unfinished(es, finished);
      Positions(ServedIndex(es, index, finished, aging)) <==>
        forall k: nat :: FirstFinished(es, finished) <= k < |live| - 1 ==> k in Served(live, aging).touched
  {
    hide Unfinished; hide UnfinishedIndex; hide FirstFinished; hide Served;
    StaleFromFirstFinished(es, index, finished);
    var live, at := Unfinished(es, finished), UnfinishedIndex(es, index, finished);
    var t, r := Served(live, aging).touched, ServedIndex(es, index, finished, aging);
    assert forall k :: 0 <= k < |r| ==> r[k] == Touch(at, t)[k];
  }

  /**
   What a caller can see beforehand: Next keeps index = position if no unfinished fiber, but
   perhaps the last, stands behind a finished one; so it does when nothing queued has finished.
   */
  lemma NextKeepsPositionsUnlessBehind(es: seq<Entry>, index: seq<nat>, finished: set<FiberID>, aging: bool)
    requires |es| == |index| && Positions(index) && Unfinished(es, finished) != []
    ensures |Unfinished(es, finished)| <= FirstFinished(es, finished) + 1 ==>
      Positions(ServedIndex(es, index, finished, aging))
    ensures (forall k :: 0 <= k < |es| ==> es[k].id !in finished) ==>
      Positions(ServedIndex(es, index, finished, aging))
  {
    NextKeepsPositionsIff(es, index, finished, aging);
    hide Unfinished; hide ServedIndex; hide Served;
  }

  class PriorityQueue {
    var entries: seq<Entry>
    var index: seq<nat>

    /** Every item has an index field, which is never below its position. */
    predicate Placed() reads this { |index| == |entries| && NotBelow(index) }

    predicate Valid() reads this { Placed() && HeapOrder(entries) }

    predicate Indexed() reads this { Positions(index) }

    /** The queue is what `r` says after the arrangement with index fields `was`. */
    predicate Became(r: Moved, was: seq<nat>) reads this { entries == r.es && index == Touch(was, r.touched) }

    constructor ()
      ensures Valid() && Indexed() && entries == []
    {
      entries, index := [], [];
    }

    method Swap(i: nat, j: nat)
      requires Placed() && i < |entries| && j < |entries|
      modifies this
      ensures Placed() && Became(Moved(SwapEntries(old(entries), i, j), {i, j}), old(index))
    {
      entries := entries[i := entries[j]][j := entries[i]];
      index := index[i := i][j := j];
    }

    /** container/heap's up. */
    method Up(j0: nat)
      requires Placed() && j0 < |entries|
      modifies this
      ensures Placed() && Became(SiftUp(old(entries), j0), old(index))
    {
      var j: nat := j0;
      ghost var done: set<nat> := {};
      while true
        invariant Placed() && 0 <= j < |entries| == |old(entries)| && index == Touch(old(index), done)
        invariant var r, was := SiftUp(entries, j), SiftUp(old(entries), j0);
          was.es == r.es && was.touched == done + r.touched
        decreases j
      {
        var i := Parent(j);
        if i == j || !Less(entries[j], entries[i]) { return; }
        TouchTwice(old(index), done, {i, j});
        Swap(i, j);
        done := done + {i, j};
        j := i;
      }
    }

    /** container/heap's down; says whether it moved anything. */
    method Down(i0: nat, n: nat) returns (moved: bool)
      requires Placed() && i0 < n <= |entries|
      modifies this
      ensures Placed() && Became(SiftDown(old(entries), n, i0), old(index))
      ensures moved == !Settled(old(entries), n, i0)
    {
      var i: nat := i0;
      ghost var done: set<nat> := {};
      while true
        invariant Placed() && i0 <= i < n <= |entries| == |old(entries)| && index == Touch(old(index), done)
        invariant var r, was := SiftDown(entries, n, i), SiftDown(old(entries), n, i0);
          was.es == r.es && was.touched == done + r.touched
        invariant if i == i0 then entries == old(entries) else !Settled(old(entries), n, i0)
        decreases n - i
      {
        if Settled(entries, n, i) { return i > i0; }
        var j := FirstChild(entries, n, i);
        TouchTwice(old(index), done, {i, j});
        Swap(i, j);
        done := done + {i, j};
        i := j;
      }
    }

    /** container/heap's Fix on the first `n` positions. */
    method Fix(i: nat, n: nat)
      requires Placed() && i < n <= |entries|
      modifies this
      ensures Placed() && Became(FixAt(old(entries), n, i), old(index))
    {
      var moved := Down(i, n);
      if !moved {
        TouchTwice(old(index), {}, SiftUp(old(entries), i).touched);
        Up(i);
      }
    }

    /** container/heap's Init. */
    method Init()
      requires Placed()
      modifies this
      ensures Valid() && Became(Heapified(old(entries)), old(index))
    {
      hide SiftDown; hide HeapOrder; hide Positions; hide Settled; hide Touch;
      TouchNothing(index);
      var n := |entries|;
      ghost var done: set<nat> := {};
      HeapifiedOrders(entries);
      for i := n / 2 downto 0
        invariant Placed() && |entries| == n && index == Touch(old(index), done)
        invariant var r, was := Build(entries, i), Heapified(old(entries));
          was.es == r.es && was.touched == done + r.touched
      {
        ghost var d := SiftDown(entries, n, i);
        TouchTwice(old(index), done, d.touched);
        assert done + (d.touched + Build(d.es, i).touched) == done + d.touched + Build(d.es, i).touched;
        done := done + d.touched;
        var _ := Down(i, n);
      }
    }

    method Push(e: Entry)
      requires Placed()
      modifies this
      ensures Placed() && Became(Pushed(old(entries), e), old(index) + [|old(index)|])
      ensures (old(Valid()) ==> Valid()) && (old(Indexed()) ==> Indexed())
    {
      hide SiftUp; hide HeapOrder; hide Positions;
      PushKeepsPositions(index);
      if Valid() { PushOrders(entries, e); }
      entries, index := entries + [e], index + [|entries|];
      if Indexed() { TouchKeepsPositions(index, SiftUp(entries, |entries| - 1).touched); }
      Up(|entries| - 1);
    }

    method Pop() returns (e: Entry)
      requires Placed() && |entries| > 0
      modifies this
      ensures Placed() && multiset(entries) + multiset{e} == multiset(old(entries))
      ensures var r := Popped(old(entries)); entries == r.es && index == Touch(old(index), r.touched)[..|r.es|]
      ensures old(Valid()) ==> Valid() && First(old(entries), e)
      ensures old(Indexed()) ==> Indexed()
    {
      hide SiftDown; hide HeapOrder; hide First; hide SwapEntries; hide Positions;
      PopTakesRoot(entries);
      if Indexed() { TouchKeepsPositions(index, Popped(entries).touched); }
      var n := |entries| - 1;
      e := entries[0];
      if n > 0 {
        Swap(0, n);
        TouchTwice(old(index), {0, n}, SiftDown(entries, n, 0).touched);
        var _ := Down(0, n);
      }
      PositionsPrefix(index, n);
      entries, index := entries[..n], index[..n];
    }

    /** container/heap's Remove at position `i`. */
    method Remove(i: nat)
      requires Placed() && i < |entries|
      modifies this
      ensures Placed() && multiset(entries) + multiset{old(entries)[i]} == multiset(old(entries))
      ensures var r := Removed(old(entries), i); entries == r.es && index == Touch(old(index), r.touched)[..|r.es|]
      ensures (old(Valid()) ==> Valid()) && (old(Indexed()) ==> Indexed())
    {
      hide FixAt; hide HeapOrder; hide SwapEntries; hide Positions; hide Touch;
      RemoveTakesOne(entries, i);
      if Indexed() { TouchKeepsPositions(index, Removed(entries, i).touched); }
      var n := |entries| - 1;
      if n != i {
        Swap(i, n);
        TouchTwice(old(index), {i, n}, FixAt(entries, n, i).touched);
        Fix(i, n);
      } else {
        TouchNothing(index);
      }
      PositionsPrefix(index, n);
      entries, index := entries[..n], index[..n];
    }

    /**
     Writes the key at `k` and calls container/heap's Fix at `i`, which panics beyond the end.
     With `i` at or behind `k`, a heap stays one exactly if the key fits or Fix can repair it from there.
     */
    method Rekey(k: nat, priority: int, i: nat) returns (ok: bool)
      requires Placed() && k < |entries|
      modifies this
      ensures Placed() && ok == (i < |old(entries)|)
      ensures var es := Rekeyed(old(entries), k, priority);
        if ok then Became(FixAt(es, |es|, i), old(index)) else entries == es && index == old(index)
      ensures old(Valid()) && k <= i ==> (Valid() <==> FixSuffices(old(entries), k, priority, i))
      ensures old(Indexed()) ==> Indexed()
    {
      hide HeapOrder; hide FixAt; hide FixSuffices; hide Positions; hide NotBelow;
      if HeapOrder(entries) && k <= i { FixSufficesIff(entries, k, priority, i); }
      entries := entries[k := entries[k].(priority := priority)];
      if i >= |entries| { return false; }
      if Indexed() { TouchKeepsPositions(index, FixAt(entries, |entries|, i).touched); }
      Fix(i, |entries|);
      return true;
    }

    /** Moves the unfinished items to the front and truncates; index fields move with their items. */
    method Compact(finished: set<FiberID>)
      requires Placed()
      modifies this
      ensures Placed() && entries == Unfinished(old(entries), finished)
      ensures index == UnfinishedIndex(old(entries), old(index), finished)
    {
      ghost var es, was := entries, index;
      var n := 0;
      hide Unfinished; hide UnfinishedIndex;
      for i := 0 to |entries|
        invariant Placed() && |entries| == |es| && n <= i && n == |Unfinished(es[..i], finished)|
        invariant forall k :: i <= k < |es| ==> entries[k] == es[k] && index[k] == was[k]
        invariant forall k :: 0 <= k < n ==> entries[k] == Unfinished(es[..i], finished)[k]
        invariant forall k :: 0 <= k < n ==> index[k] == UnfinishedIndex(es[..i], was[..i], finished)[k]
      {
        UnfinishedNext(es, was, finished, i);
        if entries[i].id !in finished {
          entries, index := entries[n := entries[i]], index[n := index[i]];
          n := n + 1;
        }
      }
      assert es[..|es|] == es && was[..|es|] == was;
      entries, index := entries[..n], index[..n];
    }

    method RemoveFinished(finished: set<FiberID>)
      requires Placed()
      modifies this
      ensures Valid() && multiset(entries) == multiset(Unfinished(old(entries), finished))
      ensures Became(Heapified(Unfinished(old(entries), finished)),
                     UnfinishedIndex(old(entries), old(index), finished))
    {
      hide Unfinished; hide UnfinishedIndex; hide Build;
      Compact(finished);
      HeapifiedPermutes(entries);
      if |entries| > 0 {
        Init();
      } else {
        NothingToBuild(index);
      }
    }

    /** Raises every priority below the cap by one. */
    method AgeAll()
      requires Placed()
      modifies this
      ensures Valid() && Became(Heapified(Aged(old(entries))), old(index))
    {
      for i := 0 to |entries|
        invariant Placed() && |entries| == |old(entries)| && index == old(index)
        invariant entries[i..] == old(entries)[i..]
        invariant entries[..i] == Aged(old(entries))[..i]
      {
        assert entries[i] == old(entries)[i];
        if entries[i].priority < MAX_PRIORITY {
          entries := entries[i := entries[i].(priority := entries[i].priority + 1)];
        }
      }
      assert entries == Aged(old(entries));
      Init();
    }
  }
}
