/**
 The work-stealing scheduler object.  Every method is proved to be an op of WorkStealingRuns
 on the queues and the round-robin counter.
 */
module WorkStealingObject {
  import opened Completions
  import opened Fibers
  import opened Sequences
  import opened WorkStealing
  import opened WorkStealingRuns

  datatype NextResult = Got(f: FiberID) | NoFibers | Stopped

  function Outcome(r: NextResult): Taken { if r.Got? then Some(r.f) else None }

  class WorkStealingScheduler {
    var queues: seq<seq<FiberID>>
    var nextWorker: nat
    var blocked: seq<FiberID>
    var completed: set<FiberID>
    var stopped: bool

    ghost function View(): WS reads this { WS(queues, nextWorker) }

    ghost predicate Valid() reads this { Inv(View()) }

    constructor (numWorkers: int)
      ensures Valid() && |queues| == (if numWorkers <= 0 then 4 else numWorkers)
      ensures nextWorker == 0 && blocked == [] && completed == {} && !stopped
      ensures forall i :: 0 <= i < |queues| ==> queues[i] == []
    {
      queues := seq(if numWorkers <= 0 then 4 else numWorkers, _ => []);
      nextWorker, blocked, completed, stopped := 0, [], {}, false;
    }

    /** Scans for the first worker with a shortest queue. */
    method Shortest() returns (m: nat)
      requires Valid()
      ensures m == ShortestOf(queues, |queues|)
    {
      m := 0;
      for i := 1 to |queues|
        invariant m == ShortestOf(queues, i)
      {
        if |queues[i]| < |queues[m]| { m := i; }
      }
    }

    method Schedule(f: FiberID) returns (ok: bool)
      requires Valid()
      modifies this`queues
      ensures Valid() && ok == !stopped
      ensures View() == if ok then Apply(old(View()), Op.Schedule(f)).0 else old(View())
    {
      if stopped { return false; }
      var m := Shortest();
      queues := queues[m := queues[m] + [f]];
      return true;
    }

    /** Tries the victims in order. */
    method StealWork(finished: set<FiberID>, order: seq<nat>) returns (got: Taken)
      requires forall k :: 0 <= k < |order| ==> order[k] < |queues|
      modifies this`queues
      ensures (queues, got) == Steal(old(queues), finished, order)
    {
      assert order[0..] == order;
      for i := 0 to |order|
        invariant |queues| == |old(queues)|
        invariant Steal(old(queues), finished, order) == Steal(queues, finished, order[i..])
      {
        var v := order[i];
        var live := Live(queues[v], finished);
        assert order[i..][0] == v && order[i..][1..] == order[i + 1..];
        if |live| > 0 {
          queues := queues[v := live[..|live| - 1]];
          return Some(live[|live| - 1]);
        }
        queues := queues[v := live];
      }
      return None;
    }

    /** Next; `order` is the shuffle that a steal would use. */
    method Next(finished: set<FiberID>, order: seq<nat>) returns (r: NextResult)
      requires Valid() && OpOk(View(), Dispatch(finished, order))
      modifies this`queues, this`nextWorker
      ensures Valid() && (r.Stopped? <==> stopped)
      ensures stopped ==> View() == old(View())
      ensures !stopped ==> (View(), Outcome(r)) == Apply(old(View()), Dispatch(finished, order))
    {
      if stopped { return Stopped; }
      var home := nextWorker % |queues|;
      nextWorker := (nextWorker + 1) % WORD;
      var live := Live(queues[home], finished);
      if |live| > 0 {
        queues := queues[home := live[1..]];
        return Got(live[0]);
      }
      queues := queues[home := live];
      var got := StealWork(finished, order);
      return match got case Some(f) => Got(f) case None => NoFibers;
    }

    /** Splices the first occurrence of `g` out of the first queue that holds it. */
    method TakeOut(g: FiberID) returns (found: bool)
      modifies this`queues
      ensures queues == Spliced(old(queues), g) && found == (Holder(old(queues), g) < |old(queues)|)
    {
      for v := 0 to |queues|
        invariant queues == old(queues) && forall u :: 0 <= u < v ==> g !in queues[u]
      {
        if g in queues[v] {
          assert Holder(queues, g) == v;
          var q := RemoveFirst(queues[v], g);
          queues := queues[v := q];
          return true;
        }
      }
      return false;
    }

    method BlockFiber(f: FiberID)
      requires Valid()
      modifies this`queues, this`blocked
      ensures Valid() && blocked == old(blocked) + [f]
      ensures View() == Apply(old(View()), Op.Remove(f)).0
    {
      var _ := TakeOut(f);
      blocked := blocked + [f];
    }

    method UnblockFiber(f: FiberID) returns (ok: bool)
      requires Valid()
      modifies this`queues, this`blocked
      ensures Valid() && ok == (f in old(blocked))
      ensures View() == if ok then Apply(old(View()), Op.Schedule(f)).0 else old(View())
      ensures blocked == Without(old(blocked), f)
    {
      ok := f in blocked;
      blocked := RemoveFirst(blocked, f);
      if ok {
        var m := Shortest();
        queues := queues[m := queues[m] + [f]];
      }
    }

    method Remove(f: FiberID) returns (ok: bool)
      requires Valid()
      modifies this`queues
      ensures Valid() && ok == (Holder(old(queues), f) < |old(queues)|)
      ensures View() == Apply(old(View()), Op.Remove(f)).0
    {
      ok := TakeOut(f);
    }

    /** Counts a completion that is not on record and filters the fiber out of every queue. */
    method MarkCompleted(f: FiberID) returns (counted: bool)
      requires Valid()
      modifies this`queues, this`completed
      ensures Valid() && counted == (f !in old(completed))
      ensures if counted then Recorded(old(completed), f, completed) else completed == old(completed)
      ensures View() == if counted then Apply(old(View()), Op.Complete(f)).0 else old(View())
    {
      if f in completed { return false; }
      completed := Record(completed, f);
      ghost var record := completed;
      for v := 0 to |queues|
        invariant |queues| == |old(queues)| && completed == record
        invariant forall u :: 0 <= u < v ==> queues[u] == Live(old(queues)[u], {f})
        invariant forall u :: v <= u < |queues| ==> queues[u] == old(queues)[u]
      {
        var filtered := Filter(queues[v], f);
        queues := queues[v := filtered];
      }
      assert queues == Purged(old(queues), f);
      return true;
    }

    /** Keeps every fiber but `f`. */
    static method Filter(q: seq<FiberID>, f: FiberID) returns (r: seq<FiberID>)
      ensures r == Live(q, {f})
    {
      r := [];
      for i := 0 to |q|
        invariant r == Live(q[..i], {f})
      {
        LiveNext(q, {f}, i);
        if q[i] != f { r := r + [q[i]]; }
      }
      assert q[..|q|] == q;
    }

    /** Empties every queue; the round-robin counter keeps running. */
    method Clear()
      requires Valid()
      modifies this
      ensures Valid() && |queues| == |old(queues)| && nextWorker == old(nextWorker)
      ensures forall i :: 0 <= i < |queues| ==> queues[i] == []
      ensures blocked == [] && completed == {} && !stopped
    {
      queues := seq(|queues|, _ => []);
      blocked, completed, stopped := [], {}, false;
    }
  }
}
