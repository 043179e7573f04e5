/** What the models share about sequences: first positions, splicing, optional values. */
module Sequences {

  datatype Option<T> = None | Some(value: T)

  /** Where `t` first stands in `q`, or `|q|` when it does not. */
  function Position<T(==)>(q: seq<T>, t: T): (i: nat)
    ensures i <= |q|
    ensures i < |q| ==> q[i] == t
    ensures forall j :: 0 <= j < i ==> q[j] != t
  {
    if q == [] || q[0] == t then 0 else 1 + Position(q[1..], t)
  }

  lemma AppendedPosition<T>(q: seq<T>, t: T)
    requires t !in q
    ensures Position(q + [t], t) == |q|
  {
    assert (q + [t])[|q|] == t && forall j :: 0 <= j < |q| ==> (q + [t])[j] == q[j];
  }

  /** A queue with the first occurrence of `t` taken out. */
  function Without<T(==)>(q: seq<T>, t: T): (r: seq<T>)
    ensures t !in q ==> r == q
    ensures t in q ==> |r| == |q| - 1
  {
    var i := Position(q, t);
    if i < |q| then q[..i] + q[i + 1..] else q
  }

  /** The splice loop that the primitives run on a wait queue after a cancellation. */
  method RemoveFirst<T(==)>(q: seq<T>, t: T) returns (r: seq<T>)
    ensures r == Without(q, t)
  {
    for i := 0 to |q|
      invariant t !in q[..i]
    {
      if q[i] == t {
        assert Position(q, t) == i;
        return q[..i] + q[i + 1..];
      }
    }
    assert q[..|q|] == q;
    return q;
  }
}
