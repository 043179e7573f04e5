/**
 FiberSemaphore (internal/sync/waitgroup.go): a counting semaphore whose Release hands
 its permit to the oldest waiter before raising the count.
 */
module Semaphore {
  import opened Sequences
  import opened Tickets

  datatype State = State(
    permits: nat,
    maxPermits: nat,          // the initial count; 0 disables the clamp
    waitQueue: seq<Ticket>,
    calls: nat,               // acquire tickets issued
    granted: seq<Ticket>,     // acquires that consumed a permit, in order
    cancelled: set<Ticket>,
    releases: nat,            // Release calls
    dropped: nat)             // Release calls discarded by the clamp

  datatype Op = Acquire | TryAcquire | Release | Cancel(ticket: Ticket)

  datatype Outcome = Acquired | Parked(ticket: Ticket) | Unavailable | Released | ContextDone | NotParked

  /** NewFiberSemaphore: a negative count is taken as 0. */
  function Init(permits: int): State {
    var n := if permits < 0 then 0 else permits;
    State(n, n, [], 0, [], {}, 0, 0)
  }

  function Consume(s: State): State
    requires s.permits > 0
  {
    s.(permits := s.permits - 1, calls := s.calls + 1, granted := s.granted + [s.calls])
  }

  function Apply(s: State, op: Op): (r: (State, Outcome)) {
    match op
    case Acquire =>
      if s.permits > 0 then (Consume(s), Acquired)
      else (s.(calls := s.calls + 1, waitQueue := s.waitQueue + [s.calls]), Parked(s.calls))
    case TryAcquire =>
      if s.permits == 0 then (s, Unavailable) else (Consume(s), Acquired)
    case Release =>
      var r := s.(releases := s.releases + 1);
      if s.waitQueue != [] then
        (r.(waitQueue := s.waitQueue[1..], granted := s.granted + [s.waitQueue[0]]), Released)
      else if s.maxPermits == 0 || s.permits < s.maxPermits then (r.(permits := s.permits + 1), Released)
      else (r.(dropped := s.dropped + 1), Released)
    case Cancel(t) =>
      if t in s.granted then (s, Acquired)
      else if t in s.waitQueue then
        (s.(waitQueue := Without(s.waitQueue, t), cancelled := s.cancelled + {t}), ContextDone)
      else (s, NotParked)
  }

  function After(s: State, ops: seq<Op>): State
    decreases |ops|
  {
    if ops == [] then s else After(Apply(s, ops[0]).0, ops[1..])
  }

  ghost predicate Inv(s: State) {
    && (s.permits > 0 ==> s.waitQueue == [])
    && Lists(s.granted + s.waitQueue, s.calls, s.cancelled)
    && s.permits + |s.granted| + s.dropped == s.maxPermits + s.releases
    && (s.maxPermits > 0 ==> s.permits <= s.maxPermits)
    && (s.maxPermits == 0 ==> s.dropped == 0)
  }

  lemma InitIsInv(permits: int)
    ensures Inv(Init(permits))
  {
    EmptyBook();
  }

  lemma StepKeepsInv(s: State, op: Op)
    requires Inv(s)
    ensures Inv(Apply(s, op).0)
  {
    var s' := Apply(s, op).0;
    match op {
      case Acquire =>
        ListsAppend(s.granted + s.waitQueue, s.calls, s.cancelled);
        assert s'.granted + s'.waitQueue == s.granted + s.waitQueue + [s.calls];
      case TryAcquire =>
        ListsAppend(s.granted + s.waitQueue, s.calls, s.cancelled);
        assert s.permits > 0 ==> s'.granted + s'.waitQueue == s.granted + s.waitQueue + [s.calls];
      case Release =>
        if s.waitQueue != [] {
          assert s.granted + [s.waitQueue[0]] + s.waitQueue[1..] == s.granted + s.waitQueue;
        }
      case Cancel(t) =>
        if t in s.waitQueue { CoversCancel(s.granted, s.waitQueue, t, s.calls, s.cancelled); }
    }
  }

  ghost predicate Extends(s: State, s': State) {
    s.granted <= s'.granted && s.cancelled <= s'.cancelled && s.maxPermits == s'.maxPermits
  }

  lemma {:induction false} RunKeepsInv(s: State, ops: seq<Op>)
    requires Inv(s)
    ensures Inv(After(s, ops)) && Extends(s, After(s, ops))
    decreases |ops|
  {
    if ops != [] {
      StepKeepsInv(s, ops[0]);
      RunKeepsInv(Apply(s, ops[0]).0, ops[1..]);
    }
  }

  lemma Reachable(permits: int, ops: seq<Op>)
    ensures Inv(After(Init(permits), ops))
    ensures After(Init(permits), ops).maxPermits == Init(permits).maxPermits
  {
    InitIsInv(permits);
    RunKeepsInv(Init(permits), ops);
  }

  /** Fewer permits have been granted than the initial count and the releases that were kept provide. */
  ghost predicate PermitLeft(s: State) { |s.granted| + s.dropped < s.maxPermits + s.releases }

  /**
   What Acquire and TryAcquire report is what happened: `Acquired` exactly when a permit is left, and
   exactly when the call is granted and uses one up; `Parked` exactly when the call joins the queue,
   under its own ticket; `Unavailable` when nothing changed.
   */
  lemma AcquireTells(s: State, op: Op)
    requires Inv(s) && (op.Acquire? || op.TryAcquire?)
    ensures var (s', outcome) := Apply(s, op);
      && (outcome == Acquired <==> PermitLeft(s))
      && (outcome == Acquired <==> s'.granted == s.granted + [s.calls] && s'.permits == s.permits - 1)
      && (forall t: Ticket :: outcome == Parked(t) <==>
            op.Acquire? && t == s.calls && s'.waitQueue == s.waitQueue + [t] && s'.granted == s.granted)
      && (outcome == Unavailable <==> op.TryAcquire? && s' == s)
      && (outcome == Acquired || outcome.Parked? || outcome == Unavailable)
  {
    assert |s.granted + [s.calls]| == |s.granted| + 1 && |s.waitQueue + [s.calls]| == |s.waitQueue| + 1;
  }

  /** How often Release is called. */
  function ReleasesIn(ops: seq<Op>): nat {
    if ops == [] then 0 else (if ops[0].Release? then 1 else 0) + ReleasesIn(ops[1..])
  }

  lemma {:induction false} ReleasesAreCounted(s: State, ops: seq<Op>)
    ensures After(s, ops).releases == s.releases + ReleasesIn(ops)
    decreases |ops|
  {
    if ops != [] { ReleasesAreCounted(Apply(s, ops[0]).0, ops[1..]); }
  }

  /**
   Conservation over every run, whoever releases: permits available plus permits granted
   plus releases discarded by the clamp equal the initial count plus all releases; without
   a maximum no release is discarded; permits are available only when nobody waits, and
   acquires succeed in call order with the cancelled ones dropped, which consume nothing.
   */
  lemma PermitsAreConserved(permits: int, ops: seq<Op>)
    ensures var s := After(Init(permits), ops);
      && s.permits + |s.granted| + s.dropped == s.maxPermits + s.releases
      && s.maxPermits == (if permits < 0 then 0 else permits) && s.releases == ReleasesIn(ops)
      && (s.maxPermits == 0 ==> s.permits + |s.granted| == s.releases)
      && (s.maxPermits > 0 ==> s.permits <= s.maxPermits)
      && (s.permits > 0 ==> s.waitQueue == [])
      && s.granted + s.waitQueue == Survivors(s.calls, s.cancelled)
  {
    Reachable(permits, ops);
    ReleasesAreCounted(Init(permits), ops);
    var s := After(Init(permits), ops);
    ListsAreSurvivors(s.granted + s.waitQueue, s.calls, s.cancelled);
  }

  /** Permits granted and not released since. */
  function Held(s: State): int { |s.granted| - s.releases }

  /** Every Release of the run is made while a permit is held. */
  ghost predicate HoldersRelease(s: State, ops: seq<Op>)
    decreases |ops|
  {
    ops == [] || ((ops[0] == Release ==> Held(s) > 0) && HoldersRelease(Apply(s, ops[0]).0, ops[1..]))
  }

  /**
   A bounded semaphore discards a release exactly when every permit granted was given back by
   some earlier release that was not discarded, whoever made it.
   */
  lemma ReleaseDiscardedIffAllReturned(s: State)
    requires Inv(s) && s.maxPermits > 0
    ensures Apply(s, Release).0.dropped == s.dropped + 1 <==> |s.granted| == s.releases - s.dropped
    ensures s.releases - s.dropped <= |s.granted|
  {
  }

  /** So a stray release uses up a holder's: with maximum 2 the holder's own release is then discarded. */
  lemma StrayReleaseCostsTheHolder()
    ensures var s := After(Init(2), [Acquire, Release]);
      s.permits == 2 && Apply(s, Release).0 == s.(releases := 2, dropped := 1)
  {
    assert After(Init(2), [Acquire]) == Consume(Init(2)) by {
      assert [Acquire][..0] == [] && [Acquire][1..] == [];
    }
    assert [Acquire, Release][1..] == [Release] && [Release][1..] == [] && [Acquire, Release][..1] == [Acquire];
  }

  lemma {:induction false} HoldersLoseNothing(s: State, ops: seq<Op>)
    requires Inv(s) && s.maxPermits > 0 && s.dropped == 0 && HoldersRelease(s, ops)
    ensures After(s, ops).dropped == 0
    decreases |ops|
  {
    if ops != [] {
      StepKeepsInv(s, ops[0]);
      HoldersLoseNothing(Apply(s, ops[0]).0, ops[1..]);
    }
  }

  /** With a positive maximum and releases made only by holders, permits + held = maximum. */
  lemma AvailablePlusHeldIsMax(permits: int, ops: seq<Op>)
    requires permits > 0 && HoldersRelease(Init(permits), ops)
    ensures var s := After(Init(permits), ops); Held(s) >= 0 && s.permits + Held(s) == permits
  {
    InitIsInv(permits);
    HoldersLoseNothing(Init(permits), ops);
    Reachable(permits, ops);
  }

  function BookOf(s: State): Book { Book(s.granted, s.waitQueue, s.calls, s.cancelled) }

  /** In `s'` an acquire whose context was done in `s` stands granted for good, or gone for good. */
  ghost predicate Settled(s: State, t: Ticket, s': State) {
    var (next, outcome) := Apply(s, Cancel(t));
    && (outcome == Acquired ==> next == s)
    && (outcome == ContextDone ==> next.permits == s.permits)
    && SettledIn(outcome == Acquired, outcome == ContextDone, BookOf(s), BookOf(s'), t)
  }

  lemma CancelSettles(s: State, t: Ticket, later: seq<Op>)
    requires Inv(s)
    ensures Settled(s, t, After(Apply(s, Cancel(t)).0, later))
  {
    StepKeepsInv(s, Cancel(t));
    var next := Apply(s, Cancel(t)).0;
    RunKeepsInv(next, later);
    BookSettles(BookOf(s), BookOf(After(next, later)), t);
  }

  /** At any point of any run, an acquire whose context is done was granted exactly once, or never is. */
  lemma CancelIsFinal(permits: int, before: seq<Op>, t: Ticket, later: seq<Op>)
    ensures var s := After(Init(permits), before); Settled(s, t, After(Apply(s, Cancel(t)).0, later))
  {
    Reachable(permits, before);
    CancelSettles(After(Init(permits), before), t, later);
  }

  /** The semaphore object. */
  class FiberSemaphore {
    var permits: nat
    const maxPermits: nat
    var waitQueue: seq<Ticket>
    var calls: nat
    var granted: seq<Ticket>
    ghost var cancelled: set<Ticket>
    ghost var releases: nat
    ghost var dropped: nat

    ghost function View(): State reads this {
      State(permits, maxPermits, waitQueue, calls, granted, cancelled, releases, dropped)
    }

    ghost predicate Valid() reads this { Inv(View()) }

    constructor (n: int)
      ensures Valid() && View() == Init(n)
    {
      var count := if n < 0 then 0 else n;
      permits, maxPermits := count, count;
      waitQueue, calls, granted, cancelled, releases, dropped := [], 0, [], {}, 0, 0;
      new;
      assert View() == Init(n);
      InitIsInv(n);
    }

    method Acquire() returns (outcome: Outcome)
      requires Valid()
      modifies this
      ensures Valid() && (View(), outcome) == Apply(old(View()), Op.Acquire)
    {
      StepKeepsInv(View(), Op.Acquire);
      var t := calls;
      calls := calls + 1;
      if permits > 0 {
        permits := permits - 1;
        granted := granted + [t];
        return Acquired;
      }
      waitQueue := waitQueue + [t];
      return Parked(t);
    }

    method TryAcquire() returns (ok: bool)
      requires Valid()
      modifies this
      ensures Valid() && View() == Apply(old(View()), Op.TryAcquire).0
      ensures ok <==> old(permits) > 0
    {
      StepKeepsInv(View(), Op.TryAcquire);
      if permits == 0 { return false; }
      permits := permits - 1;
      granted := granted + [calls];
      calls := calls + 1;
      return true;
    }

    method Release()
      requires Valid()
      modifies this
      ensures Valid() && View() == Apply(old(View()), Op.Release).0
    {
      StepKeepsInv(View(), Op.Release);
      releases := releases + 1;
      if |waitQueue| > 0 {
        granted := granted + [waitQueue[0]];
        waitQueue := waitQueue[1..];
        return;
      }
      if maxPermits == 0 || permits < maxPermits {
        permits := permits + 1;
      } else {
        dropped := dropped + 1;
      }
    }

    /** The re-check of a parked AcquireCtx after its context is done. */
    method Cancel(t: Ticket) returns (outcome: Outcome)
      requires Valid()
      modifies this
      ensures Valid() && (View(), outcome) == Apply(old(View()), Op.Cancel(t))
    {
      StepKeepsInv(View(), Op.Cancel(t));
      if t in granted { return Acquired; }
      if t !in waitQueue { return NotParked; }
      waitQueue := RemoveFirst(waitQueue, t);
      cancelled := cancelled + {t};
      return ContextDone;
    }
  }
}
