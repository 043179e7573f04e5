/**
 FiberWaitGroup (internal/sync/waitgroup.go): a counter with a transactional Add and a
 wake-all when it reaches zero.
 */
module WaitGroup {
  import opened Sequences
  import opened Tickets

  const MAX_INT: int := 0x7fff_ffff_ffff_ffff
  type Int64 = x: int | -MAX_INT - 1 <= x <= MAX_INT

  datatype State = State(
    counter: Int64,
    waitQueue: seq<Ticket>,
    calls: nat,               // wait tickets issued
    granted: seq<Ticket>,     // waits that returned nil, in order
    cancelled: set<Ticket>,
    accepted: seq<Int64>)     // deltas of the Add calls that succeeded

  datatype Op = Add(delta: Int64) | Wait | Cancel(ticket: Ticket)

  datatype Outcome = Added | Refused | Acquired | Parked(ticket: Ticket) | ContextDone | NotParked

  function Init(): State { State(0, [], 0, [], {}, []) }

  /** The three guards of Add, none of which can overflow. */
  predicate Refuses(s: State, delta: Int64)
    requires 0 <= s.counter
  {
    || (delta > 0 && |s.waitQueue| > 0)
    || (delta > 0 && s.counter > MAX_INT - delta)
    || (delta < 0 && delta < -s.counter)
  }

  function Apply(s: State, op: Op): (r: (State, Outcome))
    requires 0 <= s.counter
  {
    match op
    case Add(delta) =>
      if Refuses(s, delta) then (s, Refused)
      else
        var added := s.(counter := s.counter + delta, accepted := s.accepted + [delta]);
        (if added.counter == 0 then added.(waitQueue := [], granted := s.granted + s.waitQueue) else added, Added)
    case Wait =>
      if s.counter == 0 then (s.(calls := s.calls + 1, granted := s.granted + [s.calls]), Acquired)
      else (s.(calls := s.calls + 1, waitQueue := s.waitQueue + [s.calls]), Parked(s.calls))
    case Cancel(t) =>
      if t in s.granted then (s, Acquired)
      else if t in s.waitQueue then
        (s.(waitQueue := Without(s.waitQueue, t), cancelled := s.cancelled + {t}), ContextDone)
      else (s, NotParked)
  }

  function After(s: State, ops: seq<Op>): (s': State)
    requires 0 <= s.counter
    ensures 0 <= s'.counter
    decreases |ops|
  {
    if ops == [] then s else After(Apply(s, ops[0]).0, ops[1..])
  }

  function Sum(deltas: seq<Int64>): int {
    if deltas == [] then 0 else Sum(deltas[..|deltas| - 1]) + deltas[|deltas| - 1]
  }

  ghost predicate Inv(s: State) {
    && 0 <= s.counter
    && s.counter == Sum(s.accepted)
    && (s.waitQueue != [] ==> s.counter > 0)
    && Lists(s.granted + s.waitQueue, s.calls, s.cancelled)
  }

  lemma InitIsInv()
    ensures Inv(Init())
  {
    EmptyBook();
  }

  lemma StepKeepsInv(s: State, op: Op)
    requires Inv(s)
    ensures Inv(Apply(s, op).0)
  {
    var s' := Apply(s, op).0;
    match op {
      case Add(delta) =>
        assert (s.accepted + [delta])[..|s.accepted|] == s.accepted;
        assert s.granted + s.waitQueue + [] == s.granted + s.waitQueue;
      case Wait =>
        ListsAppend(s.granted + s.waitQueue, s.calls, s.cancelled);
        assert s'.granted + s'.waitQueue == s.granted + s.waitQueue + [s.calls];
      case Cancel(t) =>
        if t in s.waitQueue { CoversCancel(s.granted, s.waitQueue, t, s.calls, s.cancelled); }
    }
  }

  ghost predicate Extends(s: State, s': State) {
    s.granted <= s'.granted && s.cancelled <= s'.cancelled
  }

  lemma {:induction false} RunKeepsInv(s: State, ops: seq<Op>)
    requires Inv(s)
    ensures Inv(After(s, ops)) && Extends(s, After(s, ops))
    decreases |ops|
  {
    if ops != [] {
      StepKeepsInv(s, ops[0]);
      RunKeepsInv(Apply(s, ops[0]).0, ops[1..]);
    }
  }

  lemma Reachable(ops: seq<Op>)
    ensures Inv(After(Init(), ops))
  {
    InitIsInv();
    RunKeepsInv(Init(), ops);
  }

  /**
   In every reachable state the counter is the sum of the accepted deltas, within the
   range of a non-negative machine integer, waiters exist only while it is positive, and
   waits return in call order with the cancelled ones dropped.
   */
  lemma CounterIsSumOfAccepted(ops: seq<Op>)
    ensures var s := After(Init(), ops);
      && s.counter == Sum(s.accepted)
      && 0 <= s.counter <= MAX_INT
      && (s.waitQueue != [] ==> s.counter > 0)
      && s.granted + s.waitQueue == Survivors(s.calls, s.cancelled)
  {
    Reachable(ops);
    var s := After(Init(), ops);
    ListsAreSurvivors(s.granted + s.waitQueue, s.calls, s.cancelled);
  }

  /**
   What Wait reports is what happened: `Acquired` exactly when the accepted deltas sum to zero, and
   exactly when the call is released; otherwise it joins the queue, under its own ticket.
   */
  lemma WaitTells(s: State)
    requires Inv(s)
    ensures var (s', outcome) := Apply(s, Wait);
      && (outcome == Acquired <==> Sum(s.accepted) == 0)
      && (outcome == Acquired <==> s'.granted == s.granted + [s.calls])
      && (forall t: Ticket :: outcome == Parked(t) <==>
            t == s.calls && s'.waitQueue == s.waitQueue + [t] && s'.granted == s.granted)
      && (outcome == Acquired || outcome.Parked?) && s'.accepted == s.accepted
  {
    assert |s.granted + [s.calls]| == |s.granted| + 1 && |s.waitQueue + [s.calls]| == |s.waitQueue| + 1;
  }

  /**
   Add is transactional and exact: it is refused, changing nothing, exactly when the true
   sum leaves [0, MAX_INT] or the counter would rise while somebody waits; so the counter
   never rises while somebody waits.
   */
  lemma AddIsExact(s: State, delta: Int64)
    requires Inv(s)
    ensures var (s', outcome) := Apply(s, Add(delta));
      && (outcome == Added <==> 0 <= s.counter + delta <= MAX_INT && (s.waitQueue == [] || delta <= 0))
      && (outcome == Added ==> s'.counter == s.counter + delta)
      && (outcome != Added ==> s' == s)
      && (s.waitQueue != [] ==> s'.counter <= s.counter)
  {
  }

  /** Some state of the run, its first included, has a zero counter. */
  ghost predicate ReachesZero(s: State, ops: seq<Op>)
    requires 0 <= s.counter
    decreases |ops|
  {
    s.counter == 0 || (ops != [] && ReachesZero(Apply(s, ops[0]).0, ops[1..]))
  }

  ghost predicate Cancels(ops: seq<Op>, t: Ticket) {
    exists i :: 0 <= i < |ops| && ops[i] == Cancel(t)
  }

  /** A waiter that is neither woken nor cancelled stays; only an Add that reaches zero wakes, and it wakes all. */
  lemma WokenExactlyAtZero(s: State, op: Op, t: Ticket)
    requires Inv(s) && t in s.waitQueue && op != Cancel(t)
    ensures var s' := Apply(s, op).0;
      && (t in s'.granted <==> s'.counter == 0)
      && (t in s'.waitQueue <==> s'.counter != 0)
      && (s'.counter == 0 ==> op.Add? && s'.waitQueue == [] && s'.granted == s.granted + s.waitQueue)
  {
    StepKeepsInv(s, op);
    var s' := Apply(s, op).0;
    Placed(s.granted, s.waitQueue, s.calls, s.cancelled, t);
    Placed(s'.granted, s'.waitQueue, s'.calls, s'.cancelled, t);
    if op.Wait? { assert t in s.waitQueue + [s.calls]; }
    if op.Add? && s'.counter == 0 { assert t in s.granted + s.waitQueue; }
  }

  /**
   A parked Wait whose context is not done returns exactly when the counter reaches zero
   at some later point, even if the counter has risen again since.
   */
  lemma {:induction false} WaitReturnsIffZeroReached(s: State, ops: seq<Op>, t: Ticket)
    requires Inv(s) && t in s.waitQueue && !Cancels(ops, t)
    ensures t in After(s, ops).granted <==> ReachesZero(s, ops)
    decreases |ops|
  {
    if ops == [] {
      Placed(s.granted, s.waitQueue, s.calls, s.cancelled, t);
    } else {
      var s' := Apply(s, ops[0]).0;
      StepKeepsInv(s, ops[0]);
      WokenExactlyAtZero(s, ops[0], t);
      assert forall i :: 0 <= i < |ops[1..]| ==> ops[1..][i] == ops[i + 1];
      if s'.counter == 0 {
        RunKeepsInv(s', ops[1..]);
      } else {
        WaitReturnsIffZeroReached(s', ops[1..], t);
      }
    }
  }

  function BookOf(s: State): Book { Book(s.granted, s.waitQueue, s.calls, s.cancelled) }

  /** In `s'` a wait whose context was done in `s` stands granted for good, or gone for good. */
  ghost predicate Settled(s: State, t: Ticket, s': State)
    requires 0 <= s.counter
  {
    var (next, outcome) := Apply(s, Cancel(t));
    && (outcome == Acquired ==> next == s)
    && SettledIn(outcome == Acquired, outcome == ContextDone, BookOf(s), BookOf(s'), t)
  }

  lemma CancelSettles(s: State, t: Ticket, later: seq<Op>)
    requires Inv(s)
    ensures Settled(s, t, After(Apply(s, Cancel(t)).0, later))
  {
    StepKeepsInv(s, Cancel(t));
    var next := Apply(s, Cancel(t)).0;
    RunKeepsInv(next, later);
    BookSettles(BookOf(s), BookOf(After(next, later)), t);
  }

  /** At any point of any run, a wait whose context is done was released exactly once, or never is. */
  lemma CancelIsFinal(before: seq<Op>, t: Ticket, later: seq<Op>)
    ensures var s := After(Init(), before); Settled(s, t, After(Apply(s, Cancel(t)).0, later))
  {
    Reachable(before);
    CancelSettles(After(Init(), before), t, later);
  }

  /** The wait group object. */
  class FiberWaitGroup {
    var counter: Int64
    var waitQueue: seq<Ticket>
    var calls: nat
    var granted: seq<Ticket>
    ghost var cancelled: set<Ticket>
    ghost var accepted: seq<Int64>

    ghost function View(): State reads this {
      State(counter, waitQueue, calls, granted, cancelled, accepted)
    }

    ghost predicate Valid() reads this { Inv(View()) }

    constructor ()
      ensures Valid() && View() == Init()
    {
      counter, waitQueue, calls, granted, cancelled, accepted := 0, [], 0, [], {}, [];
      new;
      assert View() == Init();
      InitIsInv();
    }

    method Add(delta: Int64) returns (outcome: Outcome)
      requires Valid()
      modifies this
      ensures Valid() && (View(), outcome) == Apply(old(View()), Op.Add(delta))
    {
      StepKeepsInv(View(), Op.Add(delta));
      if delta > 0 && |waitQueue| > 0 { return Refused; }
      if delta > 0 && counter > MAX_INT - delta { return Refused; }
      if delta < 0 && delta < -counter { return Refused; }
      counter := counter + delta;
      accepted := accepted + [delta];
      if counter == 0 { WakeAll(); }
      return Added;
    }

    /** The wake-all loop of an Add that reaches zero. */
    method WakeAll()
      modifies this
      ensures View() == old(View()).(waitQueue := [], granted := old(granted) + old(waitQueue))
    {
      ghost var start := View();
      for i := 0 to |waitQueue|
        invariant i <= |waitQueue|
        invariant View() == start.(granted := start.granted + start.waitQueue[..i])
      {
        granted := granted + [waitQueue[i]];
        assert waitQueue[..i] + [waitQueue[i]] == waitQueue[..i + 1];
      }
      assert waitQueue[..|waitQueue|] == waitQueue;
      waitQueue := [];
    }

    method Wait() returns (outcome: Outcome)
      requires Valid()
      modifies this
      ensures Valid() && (View(), outcome) == Apply(old(View()), Op.Wait)
    {
      StepKeepsInv(View(), Op.Wait);
      var t := calls;
      calls := calls + 1;
      if counter == 0 {
        granted := granted + [t];
        return Acquired;
      }
      waitQueue := waitQueue + [t];
      return Parked(t);
    }

    /** The re-check of a parked WaitCtx after its context is done. */
    method Cancel(t: Ticket) returns (outcome: Outcome)
      requires Valid()
      modifies this
      ensures Valid() && (View(), outcome) == Apply(old(View()), Op.Cancel(t))
    {
      StepKeepsInv(View(), Op.Cancel(t));
      if t in granted { return Acquired; }
      if t !in waitQueue { return NotParked; }
      waitQueue := RemoveFirst(waitQueue, t);
      cancelled := cancelled + {t};
      return ContextDone;
    }
  }
}
