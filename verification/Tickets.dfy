/**
 Waiter bookkeeping shared by the fiber-aware primitives of internal/sync.

 Every blocking call allocates its own waiter and is identified by the address of
 that waiter.  Here a waiter is identified by a ticket: the position of the call in
 the order in which calls took the primitive's lock.  "The ready channel of a waiter
 is closed" becomes "its ticket was moved to a log of granted calls".
 */
module Tickets {
  import opened Sequences

  type Ticket = nat

  ghost predicate Increasing(s: seq<Ticket>) {
    forall i, j :: 0 <= i < j < |s| ==> s[i] < s[j]
  }

  ghost predicate NoDuplicates(s: seq<Ticket>) {
    forall i, j :: 0 <= i < j < |s| ==> s[i] != s[j]
  }

  /**
   Of the `n` tickets issued, each is either in `gone` or exactly once in `s`.
   Completeness is stated by counting; `Complete` gives it ticket by ticket.
   */
  ghost predicate Covers(s: seq<Ticket>, n: nat, gone: set<Ticket>) {
    && NoDuplicates(s)
    && (forall i :: 0 <= i < |s| ==> s[i] < n && s[i] !in gone)
    && (forall t: Ticket :: t in gone ==> t < n)
    && |s| + |gone| == n
  }

  /** As `Covers`, and `s` is in issue order. */
  ghost predicate Lists(s: seq<Ticket>, n: nat, gone: set<Ticket>) {
    Increasing(s) && Covers(s, n, gone)
  }

  /** The tickets below `n` that are not in `gone`, in issue order. */
  function Survivors(n: nat, gone: set<Ticket>): (s: seq<Ticket>) {
    if n == 0 then [] else Survivors(n - 1, gone) + (if n - 1 in gone then [] else [n - 1])
  }

  function Elements(s: seq<Ticket>): (e: set<Ticket>) { set t | t in s }

  lemma {:induction false} ElementsSize(s: seq<Ticket>)
    requires NoDuplicates(s)
    ensures |Elements(s)| == |s|
  {
    if s != [] {
      var last := |s| - 1;
      ElementsSize(s[..last]);
      assert Elements(s) == Elements(s[..last]) + {s[last]};
    }
  }

  lemma ElementsNext(s: seq<Ticket>, i: nat)
    requires i < |s|
    ensures Elements(s[..i + 1]) == Elements(s[..i]) + {s[i]}
  {
    assert s[..i + 1] == s[..i] + [s[i]];
  }

  /** The tickets below `n`. */
  function Below(n: nat): (e: set<Ticket>)
    ensures |e| == n
    ensures forall t: Ticket :: t in e <==> t < n
  {
    if n == 0 then {} else Below(n - 1) + {n - 1}
  }

  lemma SubsetOfSameSize(a: set<Ticket>, b: set<Ticket>)
    requires a <= b && |a| == |b|
    ensures a == b
  {
    assert b == a + (b - a);
  }

  lemma ElementsFit(s: seq<Ticket>, n: nat, gone: set<Ticket>)
    requires NoDuplicates(s)
    requires forall i :: 0 <= i < |s| ==> s[i] < n && s[i] !in gone
    requires forall t: Ticket :: t in gone ==> t < n
    ensures Elements(s) !! gone && Elements(s) + gone <= Below(n)
    ensures |s| + |gone| <= n
    ensures |Elements(s) + gone| == |s| + |gone|
  {
    ElementsSize(s);
    var below := Below(n);
    assert below == (Elements(s) + gone) + (below - (Elements(s) + gone));
  }

  /** Every ticket issued is either gone or listed. */
  lemma Complete(s: seq<Ticket>, n: nat, gone: set<Ticket>)
    requires Covers(s, n, gone)
    ensures forall t: Ticket :: t in s <==> t < n && t !in gone
  {
    ElementsFit(s, n, gone);
    SubsetOfSameSize(Elements(s) + gone, Below(n));
    forall t: Ticket ensures t in s <==> t < n && t !in gone {
      assert t in Elements(s) + gone <==> t in Below(n);
      assert t in Elements(s) <==> t in s;
    }
  }

  /** The last ticket issued, unless gone, ends the list. */
  lemma LastListed(s: seq<Ticket>, n: nat, gone: set<Ticket>)
    requires Lists(s, n, gone) && 0 < n && n - 1 !in gone
    ensures s != [] && s == s[..|s| - 1] + [n - 1]
    ensures Lists(s[..|s| - 1], n - 1, gone)
  {
    Complete(s, n, gone);
    assert n - 1 in s;
    var k :| 0 <= k < |s| && s[k] == n - 1;
    assert s[|s| - 1] < n;
    assert k == |s| - 1;
  }

  /** A covering list in issue order is pinned down completely. */
  lemma {:induction false} ListsAreSurvivors(s: seq<Ticket>, n: nat, gone: set<Ticket>)
    requires Lists(s, n, gone)
    ensures s == Survivors(n, gone)
  {
    if n > 0 {
      if n - 1 in gone {
        var rest := gone - {n - 1};
        assert gone == rest + {n - 1};
        ListsAreSurvivors(s, n - 1, rest);
        SurvivorsIgnore(n - 1, rest, n - 1);
      } else {
        LastListed(s, n, gone);
        ListsAreSurvivors(s[..|s| - 1], n - 1, gone);
      }
    }
  }

  lemma {:induction false} SurvivorsIgnore(n: nat, gone: set<Ticket>, t: Ticket)
    requires n <= t
    ensures Survivors(n, gone + {t}) == Survivors(n, gone)
  {
    if n > 0 { SurvivorsIgnore(n - 1, gone, t); }
  }

  /** Issuing the next ticket at the end of the list. */
  lemma ListsAppend(s: seq<Ticket>, n: nat, gone: set<Ticket>)
    requires Lists(s, n, gone)
    ensures Lists(s + [n], n + 1, gone)
  {
  }

  /** `r` is `s` with position `m` dropped. */
  ghost predicate DropsAt(s: seq<Ticket>, m: nat, r: seq<Ticket>) {
    && m < |s| == |r| + 1
    && forall k {:trigger r[k]} :: 0 <= k < |r| ==> r[k] == s[if k < m then k else k + 1]
  }

  /** Dropping one position drops just the ticket that stood there. */
  lemma CoversDropAt(s: seq<Ticket>, m: nat, r: seq<Ticket>, n: nat, gone: set<Ticket>)
    requires DropsAt(s, m, r) && Covers(s, n, gone)
    ensures Covers(r, n, gone + {s[m]})
    ensures Increasing(s) ==> Increasing(r)
  {
  }

  lemma TailDropsAt(a: seq<Ticket>, b: seq<Ticket>, i: nat)
    requires i < |b|
    ensures DropsAt(a + b, |a| + i, a + (b[..i] + b[i + 1..]))
  {
  }

  /** Taking a ticket out of the second part of a list. */
  lemma CoversCancel(a: seq<Ticket>, b: seq<Ticket>, t: Ticket, n: nat, gone: set<Ticket>)
    requires Covers(a + b, n, gone)
    requires t in b
    ensures Covers(a + Without(b, t), n, gone + {t})
    ensures Increasing(a + b) ==> Increasing(a + Without(b, t))
  {
    var i := Position(b, t);
    TailDropsAt(a, b, i);
    CoversDropAt(a + b, |a| + i, a + (b[..i] + b[i + 1..]), n, gone);
  }

  /** Dropping the whole second part of a list. */
  lemma CoversDrop(a: seq<Ticket>, b: seq<Ticket>, n: nat, gone: set<Ticket>)
    requires Covers(a + b, n, gone)
    ensures Covers(a, n, gone + Elements(b))
    ensures Increasing(a + b) ==> Increasing(a)
  {
    var s := a + b;
    assert forall i :: 0 <= i < |a| ==> a[i] == s[i];
    assert forall j :: 0 <= j < |b| ==> b[j] == s[|a| + j];
    ElementsSize(b);
    assert gone !! Elements(b);
  }

  lemma OccursOnce(a: seq<Ticket>, b: seq<Ticket>, t: Ticket)
    requires t in a && NoDuplicates(a + b)
    ensures multiset(a)[t] == 1 && t !in b
  {
    var k := Position(a, t);
    assert forall i :: 0 <= i < |a| ==> a[i] == (a + b)[i];
    assert forall i :: 0 <= i < |b| ==> b[i] == (a + b)[|a| + i];
    assert a == a[..k] + [t] + a[k + 1..];
    assert t !in a[..k] && t !in a[k + 1..];
  }

  /**
   Where one ticket of a book stands: granted exactly once, or waiting, or gone, and
   only one of these.
   */
  lemma Placed(granted: seq<Ticket>, queue: seq<Ticket>, n: nat, gone: set<Ticket>, t: Ticket)
    requires Covers(granted + queue, n, gone)
    ensures t in granted ==> multiset(granted)[t] == 1 && t !in queue && t !in gone && t < n
    ensures t in queue ==> t !in granted && t !in gone && t < n
    ensures t < n && t !in gone ==> t in granted || t in queue
  {
    Complete(granted + queue, n, gone);
    assert t in granted + queue <==> t in granted || t in queue;
    if t in granted { OccursOnce(granted, queue, t); }
  }

  /** A book with nothing in it. */
  lemma EmptyBook()
    ensures Lists([] + [], 0, {})
  {
    var nobody: seq<Ticket> := [];
    assert nobody + nobody == [];
  }

  /** The calls a primitive has granted, the waiting ones, how many were issued and which are gone. */
  datatype Book = Book(granted: seq<Ticket>, queue: seq<Ticket>, issued: nat, gone: set<Ticket>)

  ghost predicate Kept(b: Book) { Covers(b.granted + b.queue, b.issued, b.gone) }

  /**
   A call whose context was done over `before` stands granted exactly once over `end`, if it
   won, or is gone from it, if it left; and every call of the book does one or the other.
   */
  ghost predicate SettledIn(won: bool, left: bool, before: Book, end: Book, t: Ticket) {
    && (won ==> multiset(end.granted)[t] == 1 && t !in end.gone)
    && (left ==> t in before.queue && t !in end.granted && t !in end.queue && t in end.gone)
    && (t < before.issued && t !in before.gone ==> won || left)
  }

  /** What settles a call: it wins if granted, leaves if waiting, and both are for good. */
  lemma BookSettles(before: Book, end: Book, t: Ticket)
    requires Kept(before) && Kept(end)
    requires t in before.granted ==> t in end.granted
    requires t in before.queue && t !in before.granted ==> t in end.gone
    ensures SettledIn(t in before.granted, t in before.queue && t !in before.granted, before, end, t)
  {
    Placed(before.granted, before.queue, before.issued, before.gone, t);
    Placed(end.granted, end.queue, end.issued, end.gone, t);
  }
}
