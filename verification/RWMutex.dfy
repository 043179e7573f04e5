/**
 FiberRWMutex (internal/sync/mutex.go): a writer-preferred reader/writer mutex.

 Reader calls and writer calls carry separate tickets.  Steps are the source's lock
 regions: the two lock entries, the two unlocks with their handoffs, and the re-checks
 that a parked RLockCtx or LockCtx makes when its context is done.
 */
module RWMutex {
  import Fibers
  import opened Sequences
  import opened Tickets

  type FiberID = Fibers.FiberID

  datatype State = State(
    readers: nat,
    writer: nat,                   // fiber holding the write lock, 0 for none
    readerQueue: seq<Ticket>,
    writerQueue: seq<Ticket>,
    readCalls: nat,                // reader tickets issued
    readGranted: seq<Ticket>,
    readCancelled: set<Ticket>,
    readReleases: nat,
    writeCalls: seq<FiberID>,      // fiber of every writer call, in lock order
    writeGranted: seq<Ticket>,
    writeCancelled: set<Ticket>,
    writeReleases: nat)

  datatype Op =
    | RLock
    | RUnlock
    | Lock(fiber: FiberID)
    | Unlock(fiber: FiberID)
    | CancelRead(ticket: Ticket)
    | CancelWrite(ticket: Ticket)

  datatype Outcome = Acquired | Parked(ticket: Ticket) | Released | Panicked | ContextDone | NotParked

  function Init(): State { State(0, 0, [], [], 0, [], {}, 0, [], [], {}, 0) }

  /** Hands a free lock on: to the oldest writer, else to every queued reader. */
  function HandOn(s: State): State {
    if s.writerQueue != [] then
      var t := s.writerQueue[0];
      s.(writerQueue := s.writerQueue[1..], writer := if t < |s.writeCalls| then s.writeCalls[t] else 0,
         writeGranted := s.writeGranted + [t])
    else
      s.(readers := s.readers + |s.readerQueue|, readerQueue := [], readGranted := s.readGranted + s.readerQueue)
  }

  function Apply(s: State, op: Op): (r: (State, Outcome)) {
    match op
    case RLock =>
      var t := s.readCalls;
      if s.writer == 0 && s.writerQueue == [] then
        (s.(readers := s.readers + 1, readCalls := t + 1, readGranted := s.readGranted + [t]), Acquired)
      else (s.(readCalls := t + 1, readerQueue := s.readerQueue + [t]), Parked(t))
    case RUnlock =>
      if s.readers == 0 then (s, Panicked)
      else
        var r := s.(readers := s.readers - 1, readReleases := s.readReleases + 1);
        (if r.readers == 0 then HandOn(r) else r, Released)
    case Lock(f) =>
      var t := |s.writeCalls|;
      if s.readers == 0 && s.writer == 0 && s.writerQueue == [] then
        (s.(writer := f, writeCalls := s.writeCalls + [f], writeGranted := s.writeGranted + [t]), Acquired)
      else (s.(writeCalls := s.writeCalls + [f], writerQueue := s.writerQueue + [t]), Parked(t))
    case Unlock(f) =>
      if s.writer != f then (s, Panicked)
      else (HandOn(s.(writer := 0, writeReleases := s.writeReleases + 1)), Released)
    case CancelRead(t) =>
      if t in s.readGranted then (s, Acquired)
      else if t in s.readerQueue then
        (s.(readerQueue := Without(s.readerQueue, t), readCancelled := s.readCancelled + {t}), ContextDone)
      else (s, NotParked)
    case CancelWrite(t) =>
      if t in s.writeGranted then (s, Acquired)
      else if t in s.writerQueue then
        (s.(writerQueue := Without(s.writerQueue, t), writeCancelled := s.writeCancelled + {t}), ContextDone)
      else (s, NotParked)
  }

  function After(s: State, ops: seq<Op>): State
    decreases |ops|
  {
    if ops == [] then s else After(Apply(s, ops[0]).0, ops[1..])
  }

  ghost predicate Free(s: State) { s.readers == 0 && s.writer == 0 }

  ghost predicate ReadBook(s: State) {
    && Covers(s.readGranted + s.readerQueue, s.readCalls, s.readCancelled)
    && |s.readGranted| == s.readers + s.readReleases
  }

  ghost predicate WriteBook(s: State) {
    && Lists(s.writeGranted + s.writerQueue, |s.writeCalls|, s.writeCancelled)
    && |s.writeGranted| == s.writeReleases + (if s.writer == 0 then 0 else 1)
    && (s.writer != 0 ==>
          var last := s.writeGranted[|s.writeGranted| - 1];
          last < |s.writeCalls| && s.writer == s.writeCalls[last])
  }

  ghost predicate Inv(s: State) {
    && (s.writer != 0 ==> s.readers == 0)
    && (Free(s) ==> s.readerQueue == [] && s.writerQueue == [])
    && ReadBook(s)
    && WriteBook(s)
  }

  lemma InitIsInv()
    ensures Inv(Init())
  {
    EmptyBook();
  }

  /** The handoff of a lock that has just become free restores the invariant. */
  lemma HandOnKeepsInv(s: State)
    requires Free(s) && ReadBook(s) && WriteBook(s)
    ensures Inv(HandOn(s))
  {
    if s.writerQueue != [] {
      assert (s.writeGranted + s.writerQueue)[|s.writeGranted|] == s.writerQueue[0];
      assert s.writeGranted + [s.writerQueue[0]] + s.writerQueue[1..] == s.writeGranted + s.writerQueue;
    } else {
      assert s.readGranted + s.readerQueue + [] == s.readGranted + s.readerQueue;
    }
  }

  lemma CoversAppend(s: seq<Ticket>, n: nat, gone: set<Ticket>)
    requires Covers(s, n, gone)
    ensures Covers(s + [n], n + 1, gone)
  {
  }

  /** A reader admitted ahead of queued readers: the queue may be overtaken, nobody is lost. */
  lemma CoversInsert(a: seq<Ticket>, b: seq<Ticket>, n: nat, gone: set<Ticket>)
    requires Covers(a + b, n, gone)
    ensures Covers(a + [n] + b, n + 1, gone)
  {
    var s, r := a + b, a + [n] + b;
    assert forall k {:trigger r[k]} :: 0 <= k < |r| ==>
             r[k] == if k < |a| then s[k] else if k == |a| then n else s[k - 1];
  }

  lemma ReadStepKeepsInv(s: State, op: Op)
    requires Inv(s) && (op.RLock? || op.RUnlock? || op.CancelRead?)
    ensures Inv(Apply(s, op).0)
  {
    match op {
      case RLock =>
        CoversInsert(s.readGranted, s.readerQueue, s.readCalls, s.readCancelled);
        CoversAppend(s.readGranted + s.readerQueue, s.readCalls, s.readCancelled);
        assert s.readGranted + (s.readerQueue + [s.readCalls]) == s.readGranted + s.readerQueue + [s.readCalls];
      case RUnlock =>
        if s.readers == 1 { HandOnKeepsInv(s.(readers := 0, readReleases := s.readReleases + 1)); }
      case CancelRead(t) =>
        if t in s.readerQueue { CoversCancel(s.readGranted, s.readerQueue, t, s.readCalls, s.readCancelled); }
    }
  }

  lemma WriteStepKeepsInv(s: State, op: Op)
    requires Inv(s) && (op.Lock? || op.Unlock? || op.CancelWrite?)
    ensures Inv(Apply(s, op).0)
  {
    var s' := Apply(s, op).0;
    match op {
      case Lock(f) =>
        ListsAppend(s.writeGranted + s.writerQueue, |s.writeCalls|, s.writeCancelled);
        assert s'.writeGranted + s'.writerQueue == s.writeGranted + s.writerQueue + [|s.writeCalls|];
      case Unlock(f) =>
        if s.writer == f { HandOnKeepsInv(s.(writer := 0, writeReleases := s.writeReleases + 1)); }
      case CancelWrite(t) =>
        if t in s.writerQueue { CoversCancel(s.writeGranted, s.writerQueue, t, |s.writeCalls|, s.writeCancelled); }
    }
  }

  lemma StepKeepsInv(s: State, op: Op)
    requires Inv(s)
    ensures Inv(Apply(s, op).0)
  {
    if op.RLock? || op.RUnlock? || op.CancelRead? { ReadStepKeepsInv(s, op); } else { WriteStepKeepsInv(s, op); }
  }

  /** Grants and cancellations are never taken back. */
  ghost predicate Extends(s: State, s': State) {
    && s.readGranted <= s'.readGranted && s.readCancelled <= s'.readCancelled
    && s.writeGranted <= s'.writeGranted && s.writeCancelled <= s'.writeCancelled
  }

  lemma {:induction false} RunKeepsInv(s: State, ops: seq<Op>)
    requires Inv(s)
    ensures Inv(After(s, ops)) && Extends(s, After(s, ops))
    decreases |ops|
  {
    if ops != [] {
      StepKeepsInv(s, ops[0]);
      RunKeepsInv(Apply(s, ops[0]).0, ops[1..]);
    }
  }

  lemma Reachable(ops: seq<Op>)
    ensures Inv(After(Init(), ops))
  {
    InitIsInv();
    RunKeepsInv(Init(), ops);
  }

  /**
   Safety: a writer excludes readers and other writers, the reader count is the number
   of read holds outstanding, a free lock has nobody queued, every read call is granted
   once, waiting or cancelled, and writers are granted in arrival order with the cancelled
   ones dropped.
   */
  ghost predicate Safe(s: State) {
    && (s.writer != 0 ==> s.readers == 0)
    && s.readers == |s.readGranted| - s.readReleases
    && |s.writeGranted| - s.writeReleases == (if s.writer == 0 then 0 else 1)
    && (s.readers == 0 && s.writer == 0 ==> s.readerQueue == [] && s.writerQueue == [])
    && s.writeGranted + s.writerQueue == Survivors(|s.writeCalls|, s.writeCancelled)
    && NoDuplicates(s.readGranted + s.readerQueue)
    && (forall t: Ticket :: t in s.readGranted + s.readerQueue <==> t < s.readCalls && t !in s.readCancelled)
  }

  lemma InvIsSafe(s: State)
    requires Inv(s)
    ensures Safe(s)
  {
    ListsAreSurvivors(s.writeGranted + s.writerQueue, |s.writeCalls|, s.writeCancelled);
    Complete(s.readGranted + s.readerQueue, s.readCalls, s.readCancelled);
  }

  /** Safety holds in every reachable state, also after any writer or reader cancellation. */
  lemma ExclusionAndNoStranding(ops: seq<Op>)
    ensures Safe(After(Init(), ops))
  {
    Reachable(ops);
    InvIsSafe(After(Init(), ops));
  }

  // ---- What callers are told ----

  /** Every write call so far was cancelled, or was granted and has been released. */
  ghost predicate WritersDone(s: State) {
    |s.writeGranted| == s.writeReleases && |s.writeGranted| + |s.writeCancelled| == |s.writeCalls|
  }

  /** Every read call so far was cancelled, or was granted and has been released. */
  ghost predicate ReadersDone(s: State) {
    |s.readGranted| == s.readReleases && |s.readGranted| + |s.readCancelled| == s.readCalls
  }

  lemma DoneIsFree(s: State)
    requires Inv(s)
    ensures WritersDone(s) <==> s.writer == 0 && s.writerQueue == []
    ensures WritersDone(s) && ReadersDone(s) <==> Free(s)
  {
    assert |s.writeGranted + s.writerQueue| == |s.writeGranted| + |s.writerQueue|;
    assert |s.readGranted + s.readerQueue| == |s.readGranted| + |s.readerQueue|;
  }

  /** The last write call granted is one of fiber `f` and has not been released. */
  ghost predicate WriteHeld(s: State, f: FiberID) {
    && |s.writeGranted| == s.writeReleases + 1
    && var t := s.writeGranted[|s.writeGranted| - 1]; t < |s.writeCalls| && s.writeCalls[t] == f
  }

  /**
   What the two lock calls report is what happened.  Readers share: a read call acquires at once
   exactly when every write call so far is done with.  A write call does exactly when every call is.
   `Acquired` is reported exactly to a call that is granted, `Parked` exactly to one that joins its queue.
   */
  lemma LockTells(s: State, op: Op)
    requires Inv(s) && (op.RLock? || op.Lock?)
    ensures var (s', outcome) := Apply(s, op);
      && (outcome == Acquired || outcome.Parked?)
      && (op.RLock? ==>
            && (outcome == Acquired <==> WritersDone(s))
            && (outcome == Acquired <==> s'.readGranted == s.readGranted + [s.readCalls] && s'.readers == s.readers + 1)
            && (forall t: Ticket :: outcome == Parked(t) <==>
                  t == s.readCalls && s'.readerQueue == s.readerQueue + [t] && s'.readGranted == s.readGranted))
      && (op.Lock? ==>
            && (outcome == Acquired <==> WritersDone(s) && ReadersDone(s))
            && (outcome == Acquired <==>
                  s'.writeGranted == s.writeGranted + [|s.writeCalls|] && WriteHeld(s', op.fiber))
            && (forall t: Ticket :: outcome == Parked(t) <==>
                  t == |s.writeCalls| && s'.writerQueue == s.writerQueue + [t] && s'.writeGranted == s.writeGranted)
            && s'.writeCalls == s.writeCalls + [op.fiber])
  {
    DoneIsFree(s);
    assert |s.readGranted + [s.readCalls]| == |s.readGranted| + 1;
    assert |s.writeGranted + [|s.writeCalls|]| == |s.writeGranted| + 1;
  }

  /** The lock, just freed, went to the oldest waiting writer, or, if none waited, to every waiting reader. */
  ghost predicate HandedOn(s: State, s': State) {
    if s.writerQueue != [] then
      && s'.writeGranted == s.writeGranted + [s.writerQueue[0]] && s'.writerQueue == s.writerQueue[1..]
      && s'.readGranted == s.readGranted && s'.readerQueue == s.readerQueue
      && (s.writerQueue[0] < |s.writeCalls| ==> WriteHeld(s', s.writeCalls[s.writerQueue[0]]))
    else
      && s'.readGranted == s.readGranted + s.readerQueue && s'.readerQueue == [] && s'.readers == |s.readerQueue|
      && s'.writeGranted == s.writeGranted && s'.writerQueue == []
  }

  /**
   RUnlock reports `Released` exactly while some granted read call is not released, Unlock exactly to
   the fiber of the write call that holds the lock.  The last release hands the lock on; one that
   leaves other readers grants nothing; a refused one changes nothing.
   */
  lemma UnlockTells(s: State, op: Op)
    requires Inv(s) && (op.RUnlock? || op.Unlock?)
    ensures var (s', outcome) := Apply(s, op);
      && (outcome == Released || (outcome == Panicked && s' == s))
      && (op.RUnlock? ==> (outcome == Released <==> s.readReleases < |s.readGranted|))
      && (op.Unlock? ==> (outcome == Released <==> WriteHeld(s, op.fiber)))
      && (outcome == Released ==>
            && s'.readReleases == s.readReleases + (if op.RUnlock? then 1 else 0)
            && s'.writeReleases == s.writeReleases + (if op.Unlock? then 1 else 0)
            && (if op.Unlock? || s.readReleases + 1 == |s.readGranted| then HandedOn(s, s')
                else s'.readGranted == s.readGranted && s'.writeGranted == s.writeGranted
                     && s'.readerQueue == s.readerQueue && s'.writerQueue == s.writerQueue))
  {
  }

  /** A re-check grants nothing to anybody; it takes just its own call off its queue, if that waits. */
  lemma CancelTells(s: State, op: Op)
    requires Inv(s) && (op.CancelRead? || op.CancelWrite?)
    ensures var (s', outcome) := Apply(s, op);
      && s'.readGranted == s.readGranted && s'.writeGranted == s.writeGranted
      && s'.readers == s.readers && s'.writer == s.writer
      && s'.readerQueue == (if op.CancelRead? then Without(s.readerQueue, op.ticket) else s.readerQueue)
      && s'.writerQueue == (if op.CancelWrite? then Without(s.writerQueue, op.ticket) else s.writerQueue)
      && (outcome == ContextDone <==> op.ticket in (if op.CancelRead? then s.readerQueue else s.writerQueue))
  {
    Placed(s.readGranted, s.readerQueue, s.readCalls, s.readCancelled, op.ticket);
    Placed(s.writeGranted, s.writerQueue, |s.writeCalls|, s.writeCancelled, op.ticket);
  }

  function ReadBookOf(s: State): Book { Book(s.readGranted, s.readerQueue, s.readCalls, s.readCancelled) }

  /** In `s'` a read call whose context was done in `s` stands granted for good, or gone for good. */
  ghost predicate ReadSettled(s: State, t: Ticket, s': State) {
    var (next, outcome) := Apply(s, CancelRead(t));
    && (outcome == Acquired ==> next == s)
    && SettledIn(outcome == Acquired, outcome == ContextDone, ReadBookOf(s), ReadBookOf(s'), t)
  }

  lemma CancelReadSettles(s: State, t: Ticket, later: seq<Op>)
    requires Inv(s)
    ensures ReadSettled(s, t, After(Apply(s, CancelRead(t)).0, later))
  {
    StepKeepsInv(s, CancelRead(t));
    var next := Apply(s, CancelRead(t)).0;
    RunKeepsInv(next, later);
    BookSettles(ReadBookOf(s), ReadBookOf(After(next, later)), t);
  }

  /** At any point of any run, a read call whose context is done was granted exactly once, or never is. */
  lemma CancelReadIsFinal(before: seq<Op>, t: Ticket, later: seq<Op>)
    ensures var s := After(Init(), before); ReadSettled(s, t, After(Apply(s, CancelRead(t)).0, later))
  {
    Reachable(before);
    CancelReadSettles(After(Init(), before), t, later);
  }

  function WriteBookOf(s: State): Book { Book(s.writeGranted, s.writerQueue, |s.writeCalls|, s.writeCancelled) }

  /** As `ReadSettled`, for a write call. */
  ghost predicate WriteSettled(s: State, t: Ticket, s': State) {
    var (next, outcome) := Apply(s, CancelWrite(t));
    && (outcome == Acquired ==> next == s)
    && SettledIn(outcome == Acquired, outcome == ContextDone, WriteBookOf(s), WriteBookOf(s'), t)
  }

  lemma CancelWriteSettles(s: State, t: Ticket, later: seq<Op>)
    requires Inv(s)
    ensures WriteSettled(s, t, After(Apply(s, CancelWrite(t)).0, later))
  {
    StepKeepsInv(s, CancelWrite(t));
    var next := Apply(s, CancelWrite(t)).0;
    RunKeepsInv(next, later);
    BookSettles(WriteBookOf(s), WriteBookOf(After(next, later)), t);
  }

  /** At any point of any run, a write call whose context is done was granted exactly once, or never is. */
  lemma CancelWriteIsFinal(before: seq<Op>, t: Ticket, later: seq<Op>)
    ensures var s := After(Init(), before); WriteSettled(s, t, After(Apply(s, CancelWrite(t)).0, later))
  {
    Reachable(before);
    CancelWriteSettles(After(Init(), before), t, later);
  }

  /** Successful releases, of either kind. */
  function Releases(s: State): nat { s.readReleases + s.writeReleases }

  /** Releases still to come before the writer queued behind `k` others is granted, at most. */
  function Wait(s: State, k: nat): nat { k + (if s.writer != 0 then 1 else s.readers) }

  /**
   While a writer is queued no step raises the reader count, and a step that does not
   grant or cancel that writer uses up its bound by at least one for each release.
   */
  lemma WaitShrinks(s: State, op: Op, k: nat)
    requires Inv(s) && k < |s.writerQueue| && op != CancelWrite(s.writerQueue[k])
    ensures var s' := Apply(s, op).0;
      var t := s.writerQueue[k];
      && s'.readers <= s.readers
      && (t !in s'.writeGranted ==>
            var k' := Position(s'.writerQueue, t);
            && k' < |s'.writerQueue| && s'.writerQueue[k'] == t
            && Wait(s', k') + Releases(s') <= Wait(s, k) + Releases(s))
  {
    var t := s.writerQueue[k];
    var s' := Apply(s, op).0;
    assert t == (s.writeGranted + s.writerQueue)[|s.writeGranted| + k];
    match op {
      case RLock =>
      case RUnlock => if s.readers == 1 && k > 0 { assert s'.writerQueue[k - 1] == t; }
      case Lock(f) => assert s'.writerQueue[k] == t;
      case Unlock(f) => if s.writer == f && k > 0 { assert s'.writerQueue[k - 1] == t; }
      case CancelRead(u) =>
      case CancelWrite(u) =>
        if u in s.writerQueue && u !in s.writeGranted {
          var i := Position(s.writerQueue, u);
          assert s'.writerQueue[if k < i then k else k - 1] == t;
        }
    }
  }

  ghost predicate CancelsWrite(ops: seq<Op>, t: Ticket) {
    exists i :: 0 <= i < |ops| && ops[i] == CancelWrite(t)
  }

  /**
   Bounded writer bypass: a writer queued behind k others is granted after at most
   k + readers further releases (k + 1 when a writer holds the lock), whatever readers and
   writers arrive or cancel meanwhile, unless its own context is done first.
   */
  lemma {:induction false} WriterGrantedWithinBound(s: State, ops: seq<Op>, k: nat)
    requires Inv(s) && k < |s.writerQueue|
    requires !CancelsWrite(ops, s.writerQueue[k])
    requires Releases(After(s, ops)) >= Releases(s) + k + (if s.writer != 0 then 1 else s.readers)
    ensures s.writerQueue[k] in After(s, ops).writeGranted
    decreases |ops|
  {
    if ops != [] {
      var t := s.writerQueue[k];
      var s' := Apply(s, ops[0]).0;
      StepKeepsInv(s, ops[0]);
      RunKeepsInv(s', ops[1..]);
      WaitShrinks(s, ops[0], k);
      if t !in s'.writeGranted {
        assert forall i :: 0 <= i < |ops[1..]| ==> ops[1..][i] == ops[i + 1];
        WriterGrantedWithinBound(s', ops[1..], Position(s'.writerQueue, t));
      }
    }
  }

  /** The reader/writer mutex object. */
  class FiberRWMutex {
    var readers: nat
    var writer: nat
    var readerQueue: seq<Ticket>
    var writerQueue: seq<Ticket>
    var readCalls: nat
    var readGranted: seq<Ticket>
    var writeCalls: seq<FiberID>
    var writeGranted: seq<Ticket>
    ghost var readCancelled: set<Ticket>
    ghost var readReleases: nat
    ghost var writeCancelled: set<Ticket>
    ghost var writeReleases: nat

    ghost function View(): State reads this {
      State(readers, writer, readerQueue, writerQueue, readCalls, readGranted, readCancelled, readReleases,
            writeCalls, writeGranted, writeCancelled, writeReleases)
    }

    ghost predicate Valid() reads this { Inv(View()) }

    constructor ()
      ensures Valid() && View() == Init()
    {
      readers, writer, readerQueue, writerQueue := 0, 0, [], [];
      readCalls, readGranted, readCancelled, readReleases := 0, [], {}, 0;
      writeCalls, writeGranted, writeCancelled, writeReleases := [], [], {}, 0;
      new;
      assert View() == Init();
      InitIsInv();
    }

    method RLock() returns (outcome: Outcome)
      requires Valid()
      modifies this
      ensures Valid() && (View(), outcome) == Apply(old(View()), Op.RLock)
    {
      StepKeepsInv(View(), Op.RLock);
      var t := readCalls;
      readCalls := readCalls + 1;
      if writer == 0 && |writerQueue| == 0 {
        readers := readers + 1;
        readGranted := readGranted + [t];
        return Acquired;
      }
      readerQueue := readerQueue + [t];
      return Parked(t);
    }

    method RUnlock() returns (outcome: Outcome)
      requires Valid()
      modifies this
      ensures Valid() && (View(), outcome) == Apply(old(View()), Op.RUnlock)
    {
      StepKeepsInv(View(), Op.RUnlock);
      if readers == 0 { return Panicked; }
      readers := readers - 1;
      readReleases := readReleases + 1;
      if readers == 0 {
        var granted := GrantWriter();
        if !granted { WakeReaders(); }
      }
      return Released;
    }

    method Lock(f: FiberID) returns (outcome: Outcome)
      requires Valid()
      modifies this
      ensures Valid() && (View(), outcome) == Apply(old(View()), Op.Lock(f))
    {
      StepKeepsInv(View(), Op.Lock(f));
      var t := |writeCalls|;
      writeCalls := writeCalls + [f];
      if readers == 0 && writer == 0 && |writerQueue| == 0 {
        writer := f;
        writeGranted := writeGranted + [t];
        return Acquired;
      }
      writerQueue := writerQueue + [t];
      return Parked(t);
    }

    method Unlock(f: FiberID) returns (outcome: Outcome)
      requires Valid()
      modifies this
      ensures Valid() && (View(), outcome) == Apply(old(View()), Op.Unlock(f))
    {
      StepKeepsInv(View(), Op.Unlock(f));
      if writer != f { return Panicked; }
      writer := 0;
      writeReleases := writeReleases + 1;
      var granted := GrantWriter();
      if !granted { WakeReaders(); }
      return Released;
    }

    /** grantWriterLocked: hands a free lock to the oldest queued writer, if any. */
    method GrantWriter() returns (granted: bool)
      requires Free(View()) && WriteBook(View())
      modifies this
      ensures granted <==> old(writerQueue) != []
      ensures View() == if granted then HandOn(old(View())) else old(View())
    {
      if |writerQueue| == 0 || readers != 0 || writer != 0 { return false; }
      var t := writerQueue[0];
      assert t == (writeGranted + writerQueue)[|writeGranted|];
      writerQueue := writerQueue[1..];
      writer := writeCalls[t];
      writeGranted := writeGranted + [t];
      return true;
    }

    /** The wake-all loop that RUnlock and Unlock run when no writer is queued. */
    method WakeReaders()
      requires writerQueue == []
      modifies this
      ensures View() == HandOn(old(View()))
    {
      ghost var start := View();
      for i := 0 to |readerQueue|
        invariant i <= |readerQueue|
        invariant View()
          == start.(readers := start.readers + i, readGranted := start.readGranted + start.readerQueue[..i])
      {
        readers := readers + 1;
        readGranted := readGranted + [readerQueue[i]];
        assert readerQueue[..i] + [readerQueue[i]] == readerQueue[..i + 1];
      }
      assert readerQueue[..|readerQueue|] == readerQueue;
      readerQueue := [];
    }

    /** The re-check of a parked RLockCtx after its context is done. */
    method CancelRead(t: Ticket) returns (outcome: Outcome)
      requires Valid()
      modifies this
      ensures Valid() && (View(), outcome) == Apply(old(View()), Op.CancelRead(t))
    {
      StepKeepsInv(View(), Op.CancelRead(t));
      if t in readGranted { return Acquired; }
      if t !in readerQueue { return NotParked; }
      readerQueue := RemoveFirst(readerQueue, t);
      readCancelled := readCancelled + {t};
      return ContextDone;
    }

    /** The re-check of a parked LockCtx after its context is done. */
    method CancelWrite(t: Ticket) returns (outcome: Outcome)
      requires Valid()
      modifies this
      ensures Valid() && (View(), outcome) == Apply(old(View()), Op.CancelWrite(t))
    {
      StepKeepsInv(View(), Op.CancelWrite(t));
      if t in writeGranted { return Acquired; }
      if t !in writerQueue { return NotParked; }
      writerQueue := RemoveFirst(writerQueue, t);
      writeCancelled := writeCancelled + {t};
      return ContextDone;
    }
  }
}
