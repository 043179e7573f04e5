/**
 EventTracker (internal/metrics/metrics.go): lifecycle events in a ring buffer.  The ghost
 log holds every event recorded since the tracker was made or cleared; the ring must always
 agree with its last entries.
 */
module Events {

  /** The last `n` entries of `log`, or all of it when it is shorter. */
  function Last<E>(log: seq<E>, n: nat): (r: seq<E>)
    ensures |r| == if n <= |log| then n else |log|
    ensures forall i {:trigger r[i]} :: 0 <= i < |r| ==> r[i] == log[|log| - |r| + i]
  {
    if n <= |log| then log[|log| - n..] else log
  }

  lemma LastOfLast<E>(log: seq<E>, capacity: nat, n: nat)
    ensures var stored := if |log| <= capacity then |log| else capacity;
      Last(Last(log, capacity), n) == log[|log| - (if n > stored then stored else n)..]
  {
  }

  /** Go's remainder: it has the sign of the dividend. */
  function GoMod(a: int, b: int): int
    requires b > 0
  {
    if a >= 0 then a % b else -((-a) % b)
  }

  /** A ring index one turn beyond the end at most. */
  function Wrap(x: nat, capacity: nat): nat
    requires x < 2 * capacity
  {
    if x < capacity then x else x - capacity
  }

  lemma ModIsWrap(x: nat, capacity: nat)
    requires x < 2 * capacity
    ensures x % capacity == Wrap(x, capacity)
  {
    if x >= capacity {
      assert x == capacity + (x - capacity);
      assert (capacity + (x - capacity)) % capacity == (x - capacity) % capacity;
    }
  }

  lemma GoModBack(x: int, capacity: nat)
    requires capacity > 0 && 0 <= x + capacity && x < capacity
    ensures GoMod(x, capacity) == if x + capacity == 0 then 0 else x
  {
    if x < 0 { ModIsWrap(-x, capacity); } else { ModIsWrap(x, capacity); }
  }

  /** The source's index expression for walking backwards is never out of range. */
  lemma BackwardIndex(x: int, capacity: nat)
    requires capacity > 0 && 0 <= x + capacity && x < capacity
    ensures (GoMod(x, capacity) + capacity) % capacity == if x < 0 then x + capacity else x
  {
    GoModBack(x, capacity);
    hide GoMod;
    ModIsWrap(GoMod(x, capacity) + capacity, capacity);
  }

  method RingIndex(x: int, capacity: nat) returns (idx: nat)
    requires capacity > 0 && 0 <= x + capacity && x < capacity
    ensures idx == if x < 0 then x + capacity else x
  {
    BackwardIndex(x, capacity);
    idx := (GoMod(x, capacity) + capacity) % capacity;
  }

  class EventTracker<E> {
    const events: array<E>
    const zero: E                  // what Clear overwrites entries with
    var head: nat
    var tail: nat
    var count: nat
    ghost var log: seq<E>

    ghost predicate Valid()
      reads this, events
    {
      var capacity := events.Length;
      && 0 < capacity
      && head < capacity && tail < capacity
      && count == (if |log| <= capacity then |log| else capacity)
      && tail == Wrap(head + count, capacity)
      && (forall k {:trigger log[k]} :: |log| - count <= k < |log| ==>
            events[Wrap(head + (k - (|log| - count)), capacity)] == log[k])
    }

    constructor (capacity: int, zero: E)
      ensures Valid() && log == [] && fresh(events)
      ensures events.Length == if capacity <= 0 then 1000 else capacity
    {
      events := new E[if capacity <= 0 then 1000 else capacity](_ => zero);
      this.zero := zero;
      head, tail, count, log := 0, 0, 0, [];
    }

    method RecordEvent(event: E)
      requires Valid()
      modifies this, events
      ensures Valid() && log == old(log) + [event]
    {
      var capacity := events.Length;
      ModIsWrap(tail + 1, capacity);
      ModIsWrap(head + 1, capacity);
      events[tail] := event;
      tail := (tail + 1) % capacity;
      if count < capacity {
        count := count + 1;
      } else {
        head := (head + 1) % capacity;
      }
      log := log + [event];
    }

    /** Exactly the last min(capacity, total) events since the last Clear, oldest first. */
    method GetEvents() returns (result: seq<E>)
      requires Valid()
      ensures result == Last(log, events.Length)
    {
      result := [];
      for i := 0 to count
        invariant |result| == i
        invariant forall k :: 0 <= k < i ==> result[k] == log[|log| - count + k]
      {
        ModIsWrap(head + i, events.Length);
        result := result + [events[(head + i) % events.Length]];
      }
    }

    /** The stored event that `i` later ones follow. */
    method FromEnd(i: nat) returns (e: E)
      requires Valid() && i < count
      ensures e == log[|log| - 1 - i]
    {
      var idx := RingIndex(tail - 1 - i, events.Length);
      assert idx == Wrap(head + (count - 1 - i), events.Length);
      e := events[idx];
    }

    /** The `n` most recent of the stored events: always the suffix of what GetEvents returns. */
    method GetRecentEvents(n: int) returns (result: seq<E>)
      requires Valid()
      ensures result == Last(Last(log, events.Length), if n < 0 then 0 else n)
    {
      hide Wrap; hide Last;
      LastOfLast(log, events.Length, if n < 0 then 0 else n);
      if n <= 0 || count == 0 { return []; }
      var m := if n > count then count else n;
      result := [];
      for i := 0 to m
        invariant result == log[|log| - i..]
      {
        var e := FromEnd(i);
        assert log[|log| - (i + 1)..] == [log[|log| - 1 - i]] + log[|log| - i..];
        result := [e] + result;
      }
    }

    method Clear()
      requires Valid()
      modifies this, events
      ensures Valid() && log == []
      ensures forall i :: 0 <= i < events.Length ==> events[i] == zero
    {
      head, tail, count, log := 0, 0, 0, [];
      for i := 0 to events.Length
        invariant forall k :: 0 <= k < i ==> events[k] == zero
        invariant head == 0 && tail == 0 && count == 0 && log == []
      {
        events[i] := zero;
      }
    }
  }
}
