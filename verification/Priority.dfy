/**
 PriorityScheduler (internal/scheduler/priority.go).  Every method is proved to be a step of
 PriorityRuns, so the results about runs hold of every sequence of calls.  A fiber handed in
 comes as the entry that its own priority and creation time make at that moment.
 */
module Priority {
  import opened Completions
  import opened Fibers
  import opened Sequences
  import opened Heaps
  import opened PriorityQueues
  import opened PriorityRuns
  import opened DrainOrder

  datatype NextResult = Got(e: Entry) | NoFibers | Stopped

  /** A panic is container/heap's, for an index field past the end of the queue. */
  datatype BlockResult = NotQueued | TookOut(x: Entry) | Panicked

  datatype UpdateResult = Missing | Updated | UpdatePanicked

  function Ids(es: seq<Entry>): (r: seq<FiberID>)
    ensures |r| == |es| && forall k :: 0 <= k < |r| ==> r[k] == es[k].id
  {
    seq(|es|, k requires 0 <= k < |es| => es[k].id)
  }

  /** Position of the first entry of fiber `id`, or the length. */
  function Find(es: seq<Entry>, id: FiberID): (k: nat)
    ensures k <= |es| && (k < |es| ==> es[k].id == id)
    ensures forall j :: 0 <= j < k ==> es[j].id != id
  {
    Position(Ids(es), id)
  }

  method Locate(es: seq<Entry>, id: FiberID) returns (k: nat)
    ensures k == Find(es, id)
  {
    k := 0;
    while k < |es| && es[k].id != id
      invariant k <= |es| && forall j :: 0 <= j < k ==> es[j].id != id
    {
      k := k + 1;
    }
  }

  lemma RekeyedSwapsOne(es: seq<Entry>, k: nat, priority: int)
    requires k < |es|
    ensures multiset(Rekeyed(es, k, priority)) + multiset{es[k]}
      == multiset(es) + multiset{es[k].(priority := priority)}
  {
    var r := Rekeyed(es, k, priority);
    TakeOut(es, k);
    TakeOut(r, k);
    assert r[..k] + r[k + 1..] == es[..k] + es[k + 1..];
  }

  // ---- Listing ----

  /** The entries with the key of `x`, in order. */
  function Keyed(es: seq<Entry>, x: Entry): seq<Entry> {
    if es == [] then []
    else
      var last := es[|es| - 1];
      Keyed(es[..|es| - 1], x) + if SameKey(last, x) then [last] else []
  }

  /** Entries with the same key keep their order. */
  ghost predicate Stable(r: seq<Entry>, es: seq<Entry>) { forall x :: Keyed(r, x) == Keyed(es, x) }

  lemma {:induction false} KeyedConcat(a: seq<Entry>, b: seq<Entry>, x: Entry)
    ensures Keyed(a + b, x) == Keyed(a, x) + Keyed(b, x)
    decreases |b|
  {
    if b == [] {
      assert a + b == a && Keyed(a, x) + [] == Keyed(a, x);
    } else {
      var n := |b| - 1;
      KeyedConcat(a, b[..n], x);
      assert (a + b)[..|a| + n] == a + b[..n];
    }
  }

  lemma {:induction false} KeyedNone(b: seq<Entry>, x: Entry)
    requires forall k :: 0 <= k < |b| ==> !SameKey(b[k], x)
    ensures Keyed(b, x) == []
    decreases |b|
  {
    if b != [] { KeyedNone(b[..|b| - 1], x); }
  }

  /** Putting `e` before entries that it precedes is as good as putting it last. */
  lemma KeyedInsert(a: seq<Entry>, e: Entry, b: seq<Entry>, x: Entry)
    requires forall k :: 0 <= k < |b| ==> Less(e, b[k])
    ensures Keyed(a + [e] + b, x) == Keyed(a + b + [e], x)
  {
    KeyedConcat(a + [e], b, x);
    KeyedConcat(a, [e], x);
    KeyedConcat(a + b, [e], x);
    KeyedConcat(a, b, x);
    if SameKey(e, x) { KeyedNone(b, x); } else { assert Keyed([e], x) == []; }
  }

  method Insertion(sorted: seq<Entry>, e: Entry) returns (r: seq<Entry>)
    requires Sorted(sorted)
    ensures Sorted(r) && multiset(r) == multiset(sorted) + multiset{e} && Stable(r, sorted + [e])
  {
    var k := |sorted|;
    while k > 0 && Less(e, sorted[k - 1])
      invariant 0 <= k <= |sorted|
      invariant forall j :: k <= j < |sorted| ==> Less(e, sorted[j])
    {
      k := k - 1;
    }
    r := sorted[..k] + [e] + sorted[k..];
    InsertedInOrder(sorted, e, k);
  }

  lemma InsertedInOrder(sorted: seq<Entry>, e: Entry, k: nat)
    requires k <= |sorted| && Sorted(sorted) && (k > 0 ==> !Less(e, sorted[k - 1]))
    requires forall j :: k <= j < |sorted| ==> Less(e, sorted[j])
    ensures var r := sorted[..k] + [e] + sorted[k..];
      Sorted(r) && multiset(r) == multiset(sorted) + multiset{e} && Stable(r, sorted + [e])
  {
    InsertedSorted(sorted, e, k);
    InsertedStable(sorted, e, k);
    assert sorted == sorted[..k] + sorted[k..];
    hide Sorted; hide Stable;
    assert multiset(sorted[..k] + [e] + sorted[k..]) == multiset(sorted[..k]) + multiset{e} + multiset(sorted[k..]);
  }

  lemma InsertedStable(sorted: seq<Entry>, e: Entry, k: nat)
    requires k <= |sorted| && forall j :: k <= j < |sorted| ==> Less(e, sorted[j])
    ensures Stable(sorted[..k] + [e] + sorted[k..], sorted + [e])
  {
    forall x ensures Keyed(sorted[..k] + [e] + sorted[k..], x) == Keyed(sorted + [e], x) {
      KeyedInsert(sorted[..k], e, sorted[k..], x);
      assert sorted[..k] + sorted[k..] == sorted;
    }
  }

  lemma InsertedSorted(sorted: seq<Entry>, e: Entry, k: nat)
    requires k <= |sorted| && Sorted(sorted) && (k > 0 ==> !Less(e, sorted[k - 1]))
    requires forall j :: k <= j < |sorted| ==> Less(e, sorted[j])
    ensures Sorted(sorted[..k] + [e] + sorted[k..])
  {
    forall i | 0 <= i < k ensures !Less(e, sorted[i]) {
      LessIsStrictWeakOrder(sorted[i], sorted[k - 1], e);
    }
    forall i | k <= i < |sorted| ensures !Less(sorted[i], e) {
      LessIsStrictWeakOrder(e, sorted[i], e);
    }
  }

  lemma StableNext(r: seq<Entry>, es: seq<Entry>, e: Entry, r': seq<Entry>)
    requires Stable(r, es) && Stable(r', r + [e])
    ensures Stable(r', es + [e])
  {
    forall x ensures Keyed(r', x) == Keyed(es + [e], x) {
      KeyedConcat(r, [e], x);
      KeyedConcat(es, [e], x);
    }
  }

  /** sort.SliceStable by the listing order: its specification has just one solution. */
  method StableSort(es: seq<Entry>) returns (r: seq<Entry>)
    ensures Listing(r, es) && Stable(r, es)
  {
    r := [];
    for i := 0 to |es|
      invariant Sorted(r) && multiset(r) == multiset(es[..i]) && Stable(r, es[..i])
    {
      var r' := Insertion(r, es[i]);
      assert es[..i + 1] == es[..i] + [es[i]];
      StableNext(r, es[..i], es[i], r');
      r := r';
    }
    assert es[..|es|] == es;
  }

  class PriorityScheduler {
    var pqueue: PriorityQueue
    var popCount: nat
    var blocked: seq<FiberID>
    var completed: set<FiberID>
    var stopped: bool

    /** Heap order is not part of it: Next restores it, and no contract of a step needs it. */
    ghost predicate Valid() reads this, pqueue { pqueue.Placed() }

    ghost function State(): Q reads this, pqueue { Q(pqueue.entries, popCount) }

    constructor ()
      ensures Valid() && State() == Q([], 0) && blocked == [] && completed == {} && !stopped
      ensures fresh(pqueue) && pqueue.Valid() && pqueue.Indexed()
    {
      pqueue := new PriorityQueue();
      popCount, blocked, completed, stopped := 0, [], {}, false;
    }

    method Schedule(f: Entry) returns (ok: bool)
      requires Valid()
      modifies pqueue
      ensures Valid() && ok == !stopped
      ensures StepOk(old(State()), if ok then Insert(f) else Keep, State())
      ensures ok ==> pqueue.Became(Pushed(old(pqueue.entries), f), old(pqueue.index) + [|old(pqueue.index)|])
      ensures (old(pqueue.Valid()) ==> pqueue.Valid()) && (old(pqueue.Indexed()) ==> pqueue.Indexed())
    {
      if stopped { return false; }
      PushAddsOne(pqueue.entries, f);
      pqueue.Push(f);
      return true;
    }

    /** Next; `finished` are the fibers that have finished by the time of the call. */
    method Next(finished: set<FiberID>) returns (r: NextResult)
      requires Valid()
      modifies this`popCount, pqueue
      ensures Valid() && (!stopped ==> pqueue.Valid())
      ensures r.Stopped? <==> stopped
      ensures r.Got? <==> !stopped && Unfinished(old(pqueue.entries), finished) != []
      ensures popCount == old(popCount) + if r.Got? then 1 else 0
      ensures match r
        case Got(e) => StepOk(old(State()), Step.Next(finished, e), State())
        case NoFibers => StepOk(old(State()), NextEmpty(finished), State())
        case Stopped => State() == old(State())
      ensures var live, aging := Unfinished(old(pqueue.entries), finished), popCount % AGE_EVERY == 0;
        r.Got? ==>
          && pqueue.entries == Served(live, aging).es
          && pqueue.index == ServedIndex(old(pqueue.entries), old(pqueue.index), finished, aging)
    {
      hide HeapOrder; hide Unfinished; hide UnfinishedIndex; hide First; hide Popped; hide Touch; hide Refreshed;
      hide Candidates;
      ghost var es, was, s := pqueue.entries, pqueue.index, State();
      if stopped { return Stopped; }
      var ready := Refresh(finished);
      if !ready { return NoFibers; }
      ghost var live, at := Unfinished(es, finished), UnfinishedIndex(es, was, finished);
      ghost var b := Refreshed(live, popCount % AGE_EVERY == 0);
      TouchTwice(at, b.touched, Popped(b.es).touched);
      FirstPermutesIf(pqueue.entries, Candidates(s, finished));
      var e := pqueue.Pop();
      return Got(e);
    }

    /** The part of Next before the pop: drops finished fibers, counts the pop and ages on every hundredth. */
    method Refresh(finished: set<FiberID>) returns (ready: bool)
      requires Valid()
      modifies this`popCount, pqueue
      ensures pqueue.Valid() && ready == (Unfinished(old(pqueue.entries), finished) != [])
      ensures !ready ==> State() == Q([], old(popCount))
      ensures ready ==>
        && popCount == old(popCount) + 1
        && pqueue.Became(Refreshed(Unfinished(old(pqueue.entries), finished), popCount % AGE_EVERY == 0),
                         UnfinishedIndex(old(pqueue.entries), old(pqueue.index), finished))
        && multiset(pqueue.entries) == multiset(Candidates(old(State()), finished))
    {
      hide HeapOrder; hide Unfinished; hide UnfinishedIndex; hide Aged; hide Heapified; hide Touch;
      ghost var live := Unfinished(pqueue.entries, finished);
      ghost var a, at := Heapified(live), UnfinishedIndex(pqueue.entries, pqueue.index, finished);
      pqueue.RemoveFinished(finished);
      PermutationLength(pqueue.entries, live);
      if |pqueue.entries| == 0 { return false; }
      popCount := popCount + 1;
      if popCount % AGE_EVERY == 0 {
        AgedPermutes(a.es, live);
        HeapifiedPermutes(Aged(a.es));
        TouchTwice(at, a.touched, Heapified(Aged(a.es)).touched);
        pqueue.AgeAll();
      }
      return true;
    }

    /**
     Blocks a fiber.  The heap removes the item that the index field of the fiber's item
     names: the fiber's own exactly when the field is its position, each fiber being queued
     once; beyond the end of the queue container/heap panics, before anything is changed.
     */
    method BlockFiber(id: FiberID) returns (r: BlockResult)
      requires Valid()
      modifies this`blocked, pqueue
      ensures Valid() && blocked == old(blocked) + if r.Panicked? then [] else [id]
      ensures var k, n := Find(old(pqueue.entries), id), |old(pqueue.entries)|;
        && (r.NotQueued? <==> k == n)
        && (r.Panicked? <==> k < n && old(pqueue.index)[k] >= n)
        && (r.TookOut? ==>
              && r.x == old(pqueue.entries)[old(pqueue.index)[k]]
              && (DistinctIds(old(pqueue.entries)) ==> (r.x.id == id <==> old(pqueue.index)[k] == k)))
      ensures StepOk(old(State()), if r.TookOut? then Drop(r.x) else Keep, State())
      ensures (old(pqueue.Valid()) ==> pqueue.Valid()) && (old(pqueue.Indexed()) ==> pqueue.Indexed())
    {
      var k := Locate(pqueue.entries, id);
      if k == |pqueue.entries| {
        blocked := blocked + [id];
        return NotQueued;
      }
      var i := pqueue.index[k];
      if i >= |pqueue.entries| { return Panicked; }
      var x := pqueue.entries[i];
      pqueue.Remove(i);
      blocked := blocked + [id];
      return TookOut(x);
    }

    /** Takes the oldest blocked entry of the fiber off the list and queues the fiber as it is now. */
    method UnblockFiber(f: Entry) returns (ok: bool)
      requires Valid()
      modifies this`blocked, pqueue
      ensures Valid() && ok == (f.id in old(blocked)) && blocked == Without(old(blocked), f.id)
      ensures StepOk(old(State()), if ok then Insert(f) else Keep, State())
      ensures (old(pqueue.Valid()) ==> pqueue.Valid()) && (old(pqueue.Indexed()) ==> pqueue.Indexed())
    {
      ok := f.id in blocked;
      blocked := RemoveFirst(blocked, f.id);
      if ok {
        PushAddsOne(pqueue.entries, f);
        pqueue.Push(f);
      }
    }

    /** Removes the first entry of `id`. */
    method Remove(id: FiberID) returns (ok: bool)
      requires Valid()
      modifies pqueue
      ensures Valid() && ok == (Find(old(pqueue.entries), id) < |old(pqueue.entries)|)
      ensures var k := Find(old(pqueue.entries), id);
        StepOk(old(State()), if ok then Drop(old(pqueue.entries)[k]) else Keep, State())
      ensures (old(pqueue.Valid()) ==> pqueue.Valid()) && (old(pqueue.Indexed()) ==> pqueue.Indexed())
    {
      var k := Locate(pqueue.entries, id);
      if k == |pqueue.entries| { return false; }
      pqueue.Remove(k);
      return true;
    }

    /** Counts a completion that is not on record and takes the fiber off the queue. */
    method MarkCompleted(id: FiberID) returns (counted: bool)
      requires Valid()
      modifies this`completed, pqueue
      ensures Valid() && counted == (id !in old(completed))
      ensures if counted then Recorded(old(completed), id, completed) else completed == old(completed)
      ensures var k := Find(old(pqueue.entries), id);
        StepOk(old(State()),
               if counted && k < |old(pqueue.entries)| then Drop(old(pqueue.entries)[k]) else Keep, State())
      ensures (old(pqueue.Valid()) ==> pqueue.Valid()) && (old(pqueue.Indexed()) ==> pqueue.Indexed())
    {
      if id in completed { return false; }
      completed := Record(completed, id);
      var _ := Remove(id);
      return true;
    }

    /**
     Changes a queued fiber's priority.  The heap is fixed where the item's index field points,
     so it stays in order exactly if that is the item's position, the new key fits where it is,
     or the field points to a child that can trade places with it.
     */
    method UpdatePriority(id: FiberID, priority: int) returns (r: UpdateResult)
      requires Valid()
      modifies pqueue
      ensures Valid()
      ensures var k, n := Find(old(pqueue.entries), id), |old(pqueue.entries)|;
        && (r.Missing? <==> k == n)
        && (r.UpdatePanicked? <==> k < n && old(pqueue.index)[k] >= n)
        && StepOk(old(State()), if k < n then Step.Rekey(old(pqueue.entries)[k], priority) else Keep, State())
        && (r.Updated? ==> var es := Rekeyed(old(pqueue.entries), k, priority);
              pqueue.Became(FixAt(es, n, old(pqueue.index)[k]), old(pqueue.index)))
        && (old(pqueue.Valid()) ==>
              (pqueue.Valid() <==>
                 k == n || FixSuffices(old(pqueue.entries), k, priority, old(pqueue.index)[k])))
      ensures old(pqueue.Indexed()) ==> pqueue.Indexed()
    {
      hide FixSuffices; hide FixAt; hide HeapOrder; hide Touch;
      var k := Locate(pqueue.entries, id);
      if k == |pqueue.entries| { return Missing; }
      RekeyedSwapsOne(pqueue.entries, k, priority);
      ghost var es := Rekeyed(pqueue.entries, k, priority);
      if pqueue.index[k] < |es| { FixPermutes(es, |es|, pqueue.index[k]); }
      var ok := pqueue.Rekey(k, priority, pqueue.index[k]);
      return if ok then Updated else UpdatePanicked;
    }

    /** Lists the queue in priority order; `own` holds the queued fibers' keys as they are now. */
    method GetRunQueue(own: seq<Entry>) returns (r: seq<Entry>)
      requires Valid() && Ids(own) == Ids(pqueue.entries)
      ensures Listing(r, own) && Stable(r, own)
    {
      r := StableSort(own);
    }

    method Clear()
      modifies this
      ensures Valid() && fresh(pqueue) && pqueue.Valid() && pqueue.Indexed()
      ensures State() == Q([], old(popCount)) && blocked == [] && completed == {} && !stopped
    {
      pqueue := new PriorityQueue();
      blocked, completed, stopped := [], {}, false;
    }
  }

  // ---- What a stale index field does ----

  /** A fiber created as the `id`-th one. */
  function Made(id: FiberID, priority: int): Entry { Entry(id, priority, id) }

  lemma PushStays(es: seq<Entry>, index: seq<nat>, e: Entry)
    requires UpSettled(es + [e], |es|)
    ensures Pushed(es, e) == Moved(es + [e], {}) && Touch(index + [|index|], {}) == index + [|index|]
  {
  }

  /** The heap that the first fibers of both witnesses make. */
  function Start(): seq<Entry> { [Made(1, 20), Made(2, 10), Made(3, 5), Made(4, 7)] }

  method QueueTwo() returns (s: PriorityScheduler)
    ensures fresh(s) && fresh(s.pqueue) && s.Valid() && !s.stopped && s.popCount == 0
    ensures s.pqueue.entries == [Made(1, 20), Made(2, 10)] && s.pqueue.index == [0, 1]
  {
    s := new PriorityScheduler();
    PushStays([], [], Made(1, 20));
    var _ := s.Schedule(Made(1, 20));
    PushStays(s.pqueue.entries, s.pqueue.index, Made(2, 10));
    var _ := s.Schedule(Made(2, 10));
  }

  /** Queues fibers of priority 20, 10, 5 and 7. */
  method QueueFour() returns (s: PriorityScheduler)
    ensures fresh(s) && fresh(s.pqueue) && s.Valid() && !s.stopped && s.popCount == 0
    ensures s.pqueue.entries == Start() && s.pqueue.index == [0, 1, 2, 3]
  {
    s := QueueTwo();
    PushStays(s.pqueue.entries, s.pqueue.index, Made(3, 5));
    var _ := s.Schedule(Made(3, 5));
    PushStays(s.pqueue.entries, s.pqueue.index, Made(4, 7));
    var _ := s.Schedule(Made(4, 7));
  }

  function FourLeft(): seq<Entry> { [Made(2, 10), Made(3, 5), Made(4, 7)] }

  lemma FourLive()
    ensures Unfinished(Start(), {1}) == FourLeft() && UnfinishedIndex(Start(), [0, 1, 2, 3], {1}) == [1, 2, 3]
  {
    hide Unfinished; hide UnfinishedIndex;
    RootGone(Start(), [0, 1, 2, 3], {1}, 4);
    assert Start()[..4] == Start() && Start()[1..4] == FourLeft();
    assert [0, 1, 2, 3][..4] == [0, 1, 2, 3] && [0, 1, 2, 3][1..4] == [1, 2, 3];
  }

  lemma FourPopped()
    ensures Heapified(FourLeft()) == Moved(FourLeft(), {})
    ensures Popped(FourLeft()) == Moved([Made(4, 7), Made(3, 5)], {0, 2})
  {
    assert HeapOrder(FourLeft());
    BuildKeepsHeap(FourLeft(), 1);
    var s := SwapEntries(FourLeft(), 0, 2);
    assert s == [Made(4, 7), Made(3, 5), Made(2, 10)];
    SettledStays(s, 2, 0);
  }

  /** Next on the four with the first finished. */
  lemma FourServed()
    ensures Unfinished(Start(), {1}) == FourLeft() && Served(FourLeft(), false).es == [Made(4, 7), Made(3, 5)]
    ensures ServedIndex(Start(), [0, 1, 2, 3], {1}, false) == [0, 2]
  {
    FourLive();
    FourPopped();
    hide Unfinished; hide UnfinishedIndex; hide Heapified; hide Popped;
  }

  /** Blocking the fiber of priority 5 then panics. */
  method BlockingPanics() returns (s: PriorityScheduler, r: BlockResult)
    ensures r == Panicked
  {
    s := QueueFour();
    FourServed();
    hide Served; hide ServedIndex; hide Unfinished; hide StepOk;
    var _ := s.Next({1});
    assert s.pqueue.entries == [Made(4, 7), Made(3, 5)] && s.pqueue.index == [0, 2];
    assert Find(s.pqueue.entries, 3) == 1 by { assert s.pqueue.entries[1].id == 3; }
    r := s.BlockFiber(3);
  }

  function FiveLeft(): seq<Entry> { FourLeft() + [Made(5, 3)] }

  lemma FiveLive()
    ensures Unfinished(Start() + [Made(5, 3)], {1}) == FiveLeft()
    ensures UnfinishedIndex(Start() + [Made(5, 3)], [0, 1, 2, 3, 4], {1}) == [1, 2, 3, 4]
  {
    hide Unfinished; hide UnfinishedIndex;
    var es, index := Start() + [Made(5, 3)], [0, 1, 2, 3, 4];
    RootGone(es, index, {1}, 5);
    assert es[..5] == es && es[1..5] == FiveLeft();
    assert index[..5] == index && index[1..5] == [1, 2, 3, 4];
  }

  function FiveAfter(): seq<Entry> { [Made(4, 7), Made(3, 5), Made(5, 3)] }

  lemma FivePopped()
    ensures Heapified(FiveLeft()) == Moved(FiveLeft(), {})
    ensures Popped(FiveLeft()) == Moved(FiveAfter(), {0, 3} + ({} + {0, 2}))
  {
    assert HeapOrder(FiveLeft());
    BuildKeepsHeap(FiveLeft(), 2);
    var s := SwapEntries(FiveLeft(), 0, 3);
    assert s == [Made(5, 3), Made(3, 5), Made(4, 7), Made(2, 10)];
    assert FirstChild(s, 3, 0) == 2 && !Settled(s, 3, 0);
    var s' := SwapEntries(s, 0, 2);
    assert s' == FiveAfter() + [Made(2, 10)];
    SettledStays(s', 3, 2);
  }

  /** Next on five with the first finished. */
  lemma FiveServed()
    ensures Unfinished(Start() + [Made(5, 3)], {1}) == FiveLeft() && Served(FiveLeft(), false).es == FiveAfter()
    ensures ServedIndex(Start() + [Made(5, 3)], [0, 1, 2, 3, 4], {1}, false) == [0, 2, 2]
  {
    FiveLive();
    FivePopped();
    hide Unfinished; hide UnfinishedIndex; hide Heapified; hide Popped;
  }

  method QueueFive() returns (s: PriorityScheduler)
    ensures fresh(s) && fresh(s.pqueue) && s.Valid() && !s.stopped && s.popCount == 0
    ensures s.pqueue.entries == Start() + [Made(5, 3)] && s.pqueue.index == [0, 1, 2, 3, 4]
  {
    s := QueueFour();
    PushStays(s.pqueue.entries, s.pqueue.index, Made(5, 3));
    var _ := s.Schedule(Made(5, 3));
  }

  method ServeFive() returns (s: PriorityScheduler)
    ensures fresh(s) && fresh(s.pqueue) && s.Valid()
    ensures s.pqueue.entries == FiveAfter() && s.pqueue.index == [0, 2, 2]
  {
    s := QueueFive();
    FiveServed();
    hide Served; hide ServedIndex; hide Unfinished; hide StepOk;
    var _ := s.Next({1});
  }

  /** With one more fiber, of priority 3, blocking the fiber of priority 5 takes that one out instead. */
  method BlockingTakesAnother() returns (s: PriorityScheduler, r: BlockResult)
    ensures r == TookOut(Made(5, 3))
  {
    s := ServeFive();
    r := s.BlockFiber(3);
  }

  /** And raising the priority of that fiber leaves the heap out of order. */
  method RaisingBreaksOrder() returns (s: PriorityScheduler, r: UpdateResult)
    ensures r == Updated && !HeapOrder(s.pqueue.entries)
  {
    s := ServeFive();
    r := s.UpdatePriority(3, 100);
    assert s.pqueue.entries == [Made(4, 7), Made(3, 100), Made(5, 3)];
    assert !EdgeOk(s.pqueue.entries, 1);
  }
}
