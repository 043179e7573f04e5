/**
 FiberMutex (internal/sync/mutex.go): an ownership-tracking mutex whose Unlock hands
 the lock straight to the oldest waiter.

 A call is split where the source releases its lock: `Lock` takes the lock and either
 acquires or parks; `Unlock` performs the handoff; `Cancel` is the re-check under the
 lock that a parked LockCtx makes when its context is done.  Every interleaving of
 calls is a sequence of these steps.
 */
module Mutex {
  import Fibers
  import opened Sequences
  import opened Tickets

  type FiberID = Fibers.FiberID

  datatype State = State(
    locked: bool,
    owner: nat,                // 0 when unlocked
    waitQueue: seq<Ticket>,
    calls: seq<FiberID>,       // fiber of every call that acquired or parked, in lock order
    granted: seq<Ticket>,      // calls that acquired, in grant order
    cancelled: set<Ticket>,    // calls that returned the context's error
    releases: nat)             // successful Unlock calls

  datatype Op = Lock(fiber: FiberID) | TryLock(fiber: FiberID) | Unlock(fiber: FiberID) | Cancel(ticket: Ticket)

  datatype Outcome = Acquired | Parked(ticket: Ticket) | Busy | Released | Panicked | ContextDone | NotParked

  function Init(): State { State(false, 0, [], [], [], {}, 0) }

  function Acquire(s: State, f: FiberID): State {
    s.(locked := true, owner := f, calls := s.calls + [f], granted := s.granted + [|s.calls|])
  }

  function Apply(s: State, op: Op): (r: (State, Outcome)) {
    match op
    case Lock(f) =>
      if !s.locked then (Acquire(s, f), Acquired)
      else (s.(calls := s.calls + [f], waitQueue := s.waitQueue + [|s.calls|]), Parked(|s.calls|))
    case TryLock(f) =>
      if s.locked then (s, Busy) else (Acquire(s, f), Acquired)
    case Unlock(f) =>
      if !s.locked || s.owner != f then (s, Panicked)
      else if s.waitQueue == [] then (s.(locked := false, owner := 0, releases := s.releases + 1), Released)
      else
        var t := s.waitQueue[0];
        (s.(owner := if t < |s.calls| then s.calls[t] else 0, waitQueue := s.waitQueue[1..],
            granted := s.granted + [t], releases := s.releases + 1), Released)
    case Cancel(t) =>
      if t in s.granted then (s, Acquired)
      else if t in s.waitQueue then
        (s.(waitQueue := Without(s.waitQueue, t), cancelled := s.cancelled + {t}), ContextDone)
      else (s, NotParked)
  }

  /** The state after a sequence of steps, in any interleaving of any number of callers. */
  function After(s: State, ops: seq<Op>): State
    decreases |ops|
  {
    if ops == [] then s else After(Apply(s, ops[0]).0, ops[1..])
  }

  ghost predicate Inv(s: State) {
    && (s.locked <==> s.owner != 0)
    && (!s.locked ==> s.waitQueue == [])
    && Lists(s.granted + s.waitQueue, |s.calls|, s.cancelled)
    && |s.granted| == s.releases + (if s.locked then 1 else 0)
    && (s.locked ==> s.granted[|s.granted| - 1] < |s.calls| && s.owner == s.calls[s.granted[|s.granted| - 1]])
  }

  lemma InitIsInv()
    ensures Inv(Init())
  {
    EmptyBook();
  }

  lemma StepKeepsInv(s: State, op: Op)
    requires Inv(s)
    ensures Inv(Apply(s, op).0)
  {
    var s' := Apply(s, op).0;
    match op {
      case Lock(f) =>
        ListsAppend(s.granted + s.waitQueue, |s.calls|, s.cancelled);
        assert s'.granted + s'.waitQueue == s.granted + s.waitQueue + [|s.calls|];
      case TryLock(f) =>
        ListsAppend(s.granted + s.waitQueue, |s.calls|, s.cancelled);
        assert !s.locked ==> s'.granted + s'.waitQueue == s.granted + s.waitQueue + [|s.calls|];
      case Unlock(f) =>
        if s.waitQueue != [] {
          assert (s.granted + s.waitQueue)[|s.granted|] == s.waitQueue[0];
          assert s.granted + [s.waitQueue[0]] + s.waitQueue[1..] == s.granted + s.waitQueue;
        }
      case Cancel(t) =>
        if t in s.waitQueue { CoversCancel(s.granted, s.waitQueue, t, |s.calls|, s.cancelled); }
    }
  }

  /** Grants, cancellations and calls are only ever added to. */
  ghost predicate Extends(s: State, s': State) {
    s.granted <= s'.granted && s.cancelled <= s'.cancelled && s.calls <= s'.calls
  }

  lemma {:induction false} RunKeepsInv(s: State, ops: seq<Op>)
    requires Inv(s)
    ensures Inv(After(s, ops)) && Extends(s, After(s, ops))
    decreases |ops|
  {
    if ops != [] {
      StepKeepsInv(s, ops[0]);
      RunKeepsInv(Apply(s, ops[0]).0, ops[1..]);
    }
  }

  lemma Reachable(ops: seq<Op>)
    ensures Inv(After(Init(), ops))
  {
    InitIsInv();
    RunKeepsInv(Init(), ops);
  }

  /**
   The mutex is held by at most one call, locked exactly when it has an owner, owned by
   the call granted last, and free only when nobody waits (so no Lock or TryLock overtakes
   a waiter); the calls granted so far followed by those still waiting are the calls in
   arrival order with the cancelled ones dropped.
   */
  ghost predicate Fair(s: State) {
    && (s.locked <==> s.owner != 0)
    && (!s.locked ==> s.waitQueue == [])
    && |s.granted| - s.releases == (if s.locked then 1 else 0)
    && s.granted + s.waitQueue == Survivors(|s.calls|, s.cancelled)
    && (s.locked ==>
          var last := s.granted[|s.granted| - 1];
          last < |s.calls| && s.owner == s.calls[last])
  }

  lemma InvIsFair(s: State)
    requires Inv(s)
    ensures Fair(s)
  {
    ListsAreSurvivors(s.granted + s.waitQueue, |s.calls|, s.cancelled);
  }

  /** Every reachable state is fair. */
  lemma HandoffInArrivalOrder(ops: seq<Op>)
    ensures Fair(After(Init(), ops))
  {
    Reachable(ops);
    InvIsFair(After(Init(), ops));
  }

  // ---- What callers are told ----

  /** Every call so far was cancelled, or was granted and has been released. */
  ghost predicate AllDone(s: State) { |s.granted| == s.releases && |s.granted| + |s.cancelled| == |s.calls| }

  /** The call with ticket `t`, of fiber `f`, holds the lock: it was granted last and not released. */
  ghost predicate Holds(s: State, t: Ticket, f: FiberID) {
    && |s.granted| == s.releases + 1 && s.granted[|s.granted| - 1] == t
    && t < |s.calls| && s.calls[t] == f && s.owner == f
  }

  lemma FreeIsDone(s: State)
    requires Inv(s)
    ensures !s.locked <==> AllDone(s)
  {
    assert s.waitQueue == [] ==> s.granted + s.waitQueue == s.granted;
  }

  /**
   What Lock and TryLock report is what happened to the call.  `Acquired` is reported exactly when
   every earlier call is done with, and exactly when this call is granted and holds the lock;
   `Parked` exactly when it joins the queue, under its own ticket; `Busy` when nothing changed.
   */
  lemma LockTells(s: State, op: Op)
    requires Inv(s) && (op.Lock? || op.TryLock?)
    ensures var (s', outcome) := Apply(s, op);
      && (outcome == Acquired <==> AllDone(s))
      && (outcome == Acquired <==> s'.granted == s.granted + [|s.calls|] && Holds(s', |s.calls|, op.fiber))
      && (forall t: Ticket :: outcome == Parked(t) <==>
            op.Lock? && t == |s.calls| && s'.waitQueue == s.waitQueue + [t] && s'.granted == s.granted)
      && (outcome == Busy <==> op.TryLock? && s' == s)
      && (outcome != Busy ==> s'.calls == s.calls + [op.fiber])
      && (outcome == Acquired || outcome.Parked? || outcome == Busy)
  {
    FreeIsDone(s);
    assert s.granted + [|s.calls|] != s.granted && s.waitQueue + [|s.calls|] != s.waitQueue;
  }

  /**
   Unlock reports `Released` exactly to the fiber whose call holds the lock.  The lock then goes to
   the oldest waiting call, or to nobody if none waits; otherwise Unlock panics and changes nothing.
   */
  lemma UnlockTells(s: State, f: FiberID)
    requires Inv(s)
    ensures var (s', outcome) := Apply(s, Unlock(f));
      && (outcome == Released <==> exists t: Ticket :: Holds(s, t, f))
      && (outcome == Released ==> s'.releases == s.releases + 1 && s'.calls == s.calls)
      && (outcome == Released && s.waitQueue == [] ==> AllDone(s') && s'.owner == 0)
      && (outcome == Released && s.waitQueue != [] ==>
            var t := s.waitQueue[0];
            t < |s.calls| && Holds(s', t, s.calls[t]) && s'.waitQueue == s.waitQueue[1..])
      && (outcome != Released ==> outcome == Panicked && s' == s)
  {
    StepKeepsInv(s, Unlock(f));
    FreeIsDone(Apply(s, Unlock(f)).0);
    if s.locked && s.owner == f { assert Holds(s, s.granted[|s.granted| - 1], f); }
  }

  /** The outcome of step `i` of a run. */
  function OutcomeOf(ops: seq<Op>, i: nat): Outcome
    requires i < |ops|
  {
    Apply(After(Init(), ops[..i]), ops[i]).1
  }

  lemma {:induction false} AfterLast(s: State, ops: seq<Op>)
    requires ops != []
    ensures After(s, ops) == Apply(After(s, ops[..|ops| - 1]), ops[|ops| - 1]).0
    decreases |ops|
  {
    hide Apply;
    if |ops| > 1 {
      AfterLast(Apply(s, ops[0]).0, ops[1..]);
      assert ops[1..][..|ops| - 2] == ops[..|ops| - 1][1..];
    } else {
      assert ops[1..] == [] && ops[..0] == [];
    }
  }

  lemma AfterNext(ops: seq<Op>, i: nat)
    requires i < |ops|
    ensures After(Init(), ops[..i + 1]) == Apply(After(Init(), ops[..i]), ops[i]).0
  {
    AfterLast(Init(), ops[..i + 1]);
    assert ops[..i + 1][..i] == ops[..i];
  }

  /** Step `i` gives the lock to call `t` of fiber `f`: at once, or by handoff to a parked call. */
  ghost predicate Enters(ops: seq<Op>, i: nat, t: Ticket, f: FiberID)
    requires i < |ops|
  {
    && t !in After(Init(), ops[..i]).granted && t in After(Init(), ops[..i + 1]).granted
    && t < |After(Init(), ops).calls| && After(Init(), ops).calls[t] == f
  }

  /** Call `t` of fiber `f` got the lock, and its fiber has not successfully unlocked since. */
  ghost predicate Inside(ops: seq<Op>, t: Ticket, f: FiberID) {
    exists i: nat :: i < |ops| && Enters(ops, i, t, f)
      && forall j :: i < j < |ops| ==> !(ops[j] == Unlock(f) && OutcomeOf(ops, j) == Released)
  }

  lemma {:induction false} PrefixExtends(ops: seq<Op>, i: nat, j: nat)
    requires i <= j <= |ops|
    ensures Inv(After(Init(), ops[..i])) && Inv(After(Init(), ops[..j]))
    ensures Extends(After(Init(), ops[..i]), After(Init(), ops[..j]))
    decreases j - i
  {
    hide Apply; hide After; hide Inv;
    Reachable(ops[..i]);
    Reachable(ops[..j]);
    if i < j {
      PrefixExtends(ops, i, j - 1);
      AfterNext(ops, j - 1);
      StepExtends(After(Init(), ops[..j - 1]), ops[j - 1]);
    }
  }

  lemma StepExtends(s: State, op: Op)
    ensures Extends(s, Apply(s, op).0)
  {
  }

  /** Whoever a step grants the lock to holds it after the step. */
  lemma GrantHolds(s: State, op: Op, t: Ticket)
    requires Inv(s) && t !in s.granted && t in Apply(s, op).0.granted
    ensures var s' := Apply(s, op).0; t < |s'.calls| && Holds(s', t, s'.calls[t])
  {
    StepKeepsInv(s, op);
    assert op.Unlock? && s.waitQueue != [] ==> (s.granted + s.waitQueue)[|s.granted|] == s.waitQueue[0];
  }

  /** The holder keeps the lock until its fiber unlocks. */
  lemma HolderStays(s: State, op: Op, t: Ticket, f: FiberID)
    requires Inv(s) && Holds(s, t, f) && !(op == Unlock(f) && Apply(s, op).1 == Released)
    ensures Holds(Apply(s, op).0, t, f)
  {
  }

  lemma {:induction false} HoldsSince(ops: seq<Op>, i: nat, n: nat, t: Ticket, f: FiberID)
    requires i < n <= |ops| && Enters(ops, i, t, f)
    requires forall j :: i < j < n ==> !(ops[j] == Unlock(f) && OutcomeOf(ops, j) == Released)
    ensures Holds(After(Init(), ops[..n]), t, f)
    decreases n
  {
    hide Apply; hide After; hide Inv;
    PrefixExtends(ops, n - 1, n);
    PrefixExtends(ops, n, |ops|);
    assert ops[..|ops|] == ops;
    AfterNext(ops, n - 1);
    if n == i + 1 {
      GrantHolds(After(Init(), ops[..i]), ops[i], t);
    } else {
      HoldsSince(ops, i, n - 1, t, f);
      HolderStays(After(Init(), ops[..n - 1]), ops[n - 1], t, f);
    }
  }

  /**
   Mutual exclusion over every run, as callers see it: of the calls that got the lock, at once or
   while parked, at most one has not been followed by a successful Unlock of its fiber.
   */
  lemma MutualExclusion(ops: seq<Op>, t: Ticket, f: FiberID, u: Ticket, g: FiberID)
    requires Inside(ops, t, f) && Inside(ops, u, g)
    ensures t == u && f == g && After(Init(), ops).owner == f
  {
    hide Enters; hide After;
    var i: nat :| i < |ops| && Enters(ops, i, t, f)
      && forall j :: i < j < |ops| ==> !(ops[j] == Unlock(f) && OutcomeOf(ops, j) == Released);
    var k: nat :| k < |ops| && Enters(ops, k, u, g)
      && forall j :: k < j < |ops| ==> !(ops[j] == Unlock(g) && OutcomeOf(ops, j) == Released);
    HoldsSince(ops, i, |ops|, t, f);
    HoldsSince(ops, k, |ops|, u, g);
    assert ops[..|ops|] == ops;
  }

  /**
   Over every run: a Lock or TryLock that is told `Acquired` gets the lock at that step, and a
   parked call that is told so on its re-check got it at an earlier one.
   */
  lemma AcquiredEnters(ops: seq<Op>, i: nat)
    requires i < |ops| && OutcomeOf(ops, i) == Acquired
    ensures (ops[i].Lock? || ops[i].TryLock?) ==> Enters(ops, i, |After(Init(), ops[..i]).calls|, ops[i].fiber)
    ensures ops[i].Cancel? ==>
      exists k: nat, f: FiberID :: k < i && Enters(ops, k, ops[i].ticket, f)
  {
    var s := After(Init(), ops[..i]);
    PrefixExtends(ops, i, i + 1);
    PrefixExtends(ops, i + 1, |ops|);
    assert ops[..|ops|] == ops;
    AfterNext(ops, i);
    if ops[i].Cancel? {
      var k := EnteredBefore(ops, i, ops[i].ticket);
    } else if ops[i].Lock? || ops[i].TryLock? {
      LockTells(s, ops[i]);
      Placed(s.granted, s.waitQueue, |s.calls|, s.cancelled, |s.calls|);
      assert (s.granted + [|s.calls|])[|s.granted|] == |s.calls|;
    }
  }

  /** A granted call was granted at some step. */
  lemma {:induction false} EnteredBefore(ops: seq<Op>, n: nat, t: Ticket) returns (k: nat)
    requires n <= |ops| && t in After(Init(), ops[..n]).granted
    ensures k < n && exists f: FiberID :: Enters(ops, k, t, f)
    decreases n
  {
    assert After(Init(), ops[..0]).granted == [];
    hide Apply; hide Inv; hide After;
    if n == 0 {
    } else if t in After(Init(), ops[..n - 1]).granted {
      k := EnteredBefore(ops, n - 1, t);
    } else {
      k := n - 1;
      GrantedIsCall(ops, n, t);
      assert Enters(ops, k, t, After(Init(), ops).calls[t]);
    }
  }

  lemma GrantedIsCall(ops: seq<Op>, n: nat, t: Ticket)
    requires n <= |ops| && t in After(Init(), ops[..n]).granted
    ensures t < |After(Init(), ops).calls|
  {
    PrefixExtends(ops, n, |ops|);
    assert ops[..|ops|] == ops;
    var s := After(Init(), ops[..n]);
    Placed(s.granted, s.waitQueue, |s.calls|, s.cancelled, t);
  }

  function BookOf(s: State): Book { Book(s.granted, s.waitQueue, |s.calls|, s.cancelled) }

  /** In `s'` a call whose context was done in `s` stands granted for good, or gone for good. */
  ghost predicate Settled(s: State, t: Ticket, s': State) {
    var (next, outcome) := Apply(s, Cancel(t));
    && (outcome == Acquired ==> next == s)
    && SettledIn(outcome == Acquired, outcome == ContextDone, BookOf(s), BookOf(s'), t)
  }

  lemma CancelSettles(s: State, t: Ticket, later: seq<Op>)
    requires Inv(s)
    ensures Settled(s, t, After(Apply(s, Cancel(t)).0, later))
  {
    StepKeepsInv(s, Cancel(t));
    var next := Apply(s, Cancel(t)).0;
    RunKeepsInv(next, later);
    BookSettles(BookOf(s), BookOf(After(next, later)), t);
  }

  /**
   Cancellation and handoff are atomic.  At any point of any run, a parked call whose
   context is done either finds itself granted, exactly once, and reports success
   without changing anything, or leaves the queue and is never granted, then or later.
   */
  lemma CancelIsFinal(before: seq<Op>, t: Ticket, later: seq<Op>)
    ensures var s := After(Init(), before); Settled(s, t, After(Apply(s, Cancel(t)).0, later))
  {
    Reachable(before);
    CancelSettles(After(Init(), before), t, later);
  }

  ghost predicate Cancels(ops: seq<Op>, t: Ticket) {
    exists i :: 0 <= i < |ops| && ops[i] == Cancel(t)
  }

  /**
   Bounded wait: a call queued behind k others is granted by the (k+1)-th release, whatever
   arrives, tries or cancels meanwhile, unless its own context is done first.
   */
  lemma {:induction false} GrantedWithinPosition(s: State, ops: seq<Op>, k: nat)
    requires Inv(s) && k < |s.waitQueue|
    requires !Cancels(ops, s.waitQueue[k])
    requires After(s, ops).releases > s.releases + k
    ensures s.waitQueue[k] in After(s, ops).granted
    decreases |ops|
  {
    if ops != [] {
      var t := s.waitQueue[k];
      var s' := Apply(s, ops[0]).0;
      StepKeepsInv(s, ops[0]);
      RunKeepsInv(s', ops[1..]);
      assert t == (s.granted + s.waitQueue)[|s.granted| + k];
      if t in s'.granted {
      } else {
        StillQueued(s, ops[0], k);
        var k' := Position(s'.waitQueue, t);
        assert forall i :: 0 <= i < |ops[1..]| ==> ops[1..][i] == ops[i + 1];
        GrantedWithinPosition(s', ops[1..], k');
      }
    }
  }

  /** A step keeps a waiter queued, at most as far back as before; a release moves it forward. */
  lemma StillQueued(s: State, op: Op, k: nat)
    requires Inv(s) && k < |s.waitQueue| && op != Cancel(s.waitQueue[k])
    requires s.waitQueue[k] !in Apply(s, op).0.granted
    ensures var s' := Apply(s, op).0;
      var k' := Position(s'.waitQueue, s.waitQueue[k]);
      k' < |s'.waitQueue| && s'.waitQueue[k'] == s.waitQueue[k] && k' + s'.releases <= k + s.releases
  {
    var t := s.waitQueue[k];
    var s' := Apply(s, op).0;
    match op {
      case Lock(f) => assert s'.waitQueue[k] == t;
      case TryLock(f) =>
      case Unlock(f) =>
        if s'.releases != s.releases {
          assert t in s.granted + s.waitQueue;
          assert s'.waitQueue[k - 1] == t;
        }
      case Cancel(u) =>
        if u in s.waitQueue && u !in s.granted {
          var i := Position(s.waitQueue, u);
          assert s'.waitQueue[if k < i then k else k - 1] == t;
        }
    }
  }

  /** The mutex object.  Its fields are those of the source; `releases` only counts. */
  class FiberMutex {
    var locked: bool
    var owner: nat
    var waitQueue: seq<Ticket>
    var calls: seq<FiberID>
    var granted: seq<Ticket>
    ghost var cancelled: set<Ticket>
    ghost var releases: nat

    ghost function View(): State reads this {
      State(locked, owner, waitQueue, calls, granted, cancelled, releases)
    }

    ghost predicate Valid() reads this { Inv(View()) }

    constructor ()
      ensures Valid() && View() == Init()
    {
      locked, owner, waitQueue, calls, granted, cancelled, releases := false, 0, [], [], [], {}, 0;
      new;
      assert View() == Init();
      InitIsInv();
    }

    method Lock(f: FiberID) returns (outcome: Outcome)
      requires Valid()
      modifies this
      ensures Valid() && (View(), outcome) == Apply(old(View()), Op.Lock(f))
      ensures (outcome == Acquired <==> !old(locked)) && (outcome == Acquired ==> owner == f)
      ensures outcome != Acquired ==>
        outcome == Parked(|old(calls)|) && owner == old(owner) && waitQueue == old(waitQueue) + [|old(calls)|]
    {
      StepKeepsInv(View(), Op.Lock(f));
      var t := |calls|;
      calls := calls + [f];
      if !locked {
        locked, owner := true, f;
        granted := granted + [t];
        return Acquired;
      }
      waitQueue := waitQueue + [t];
      return Parked(t);
    }

    method TryLock(f: FiberID) returns (ok: bool)
      requires Valid()
      modifies this
      ensures Valid() && View() == Apply(old(View()), Op.TryLock(f)).0
      ensures (ok <==> !old(locked)) && owner == if ok then f else old(owner)
    {
      StepKeepsInv(View(), Op.TryLock(f));
      if locked { return false; }
      locked, owner := true, f;
      granted := granted + [|calls|];
      calls := calls + [f];
      return true;
    }

    method Unlock(f: FiberID) returns (outcome: Outcome)
      requires Valid()
      modifies this
      ensures Valid() && (View(), outcome) == Apply(old(View()), Op.Unlock(f))
    {
      StepKeepsInv(View(), Op.Unlock(f));
      if !locked || owner != f { return Panicked; }
      if |waitQueue| == 0 {
        locked, owner := false, 0;
      } else {
        var next := waitQueue[0];
        assert next == (granted + waitQueue)[|granted|];
        waitQueue := waitQueue[1..];
        owner := calls[next];
        granted := granted + [next];
      }
      releases := releases + 1;
      return Released;
    }

    /** The re-check of a parked LockCtx after its context is done. */
    method Cancel(t: Ticket) returns (outcome: Outcome)
      requires Valid()
      modifies this
      ensures Valid() && (View(), outcome) == Apply(old(View()), Op.Cancel(t))
    {
      StepKeepsInv(View(), Op.Cancel(t));
      if t in granted { return Acquired; }
      if t !in waitQueue { return NotParked; }
      waitQueue := RemoveFirst(waitQueue, t);
      cancelled := cancelled + {t};
      return ContextDone;
    }
  }
}
