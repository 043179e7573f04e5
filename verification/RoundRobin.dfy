/**
 The round robin of the work-stealing scheduler (internal/scheduler/workstealing.go): whose
 turn it is, how often each worker gets its turn, and what the wrap-around of the 64-bit
 counter does to that.
 */
module RoundRobin {
  import opened WorkStealing

  lemma MultipleGrows(d: int, w: nat)
    ensures d >= 1 ==> d * w >= w
    ensures d <= -1 ==> d * w + w <= 0
  {
    if d >= 1 {
      assert d * w == (d - 1) * w + w;
    } else if d <= -1 {
      assert d * w == (d + 1) * w - w;
    }
  }

  /** Quotient and remainder are unique. */
  lemma DivisionIsUnique(w: nat, q: int, r: nat, q': int, r': nat)
    requires r < w && r' < w && q * w + r == q' * w + r'
    ensures q == q' && r == r'
  {
    assert (q - q') * w == r' - r;
    MultipleGrows(q - q', w);
  }

  lemma Remainder(x: int, w: nat, q: int, r: nat)
    requires r < w && x == q * w + r
    ensures x % w == r
  {
    DivisionIsUnique(w, q, r, x / w, x % w);
  }

  lemma NextHome(next: nat, w: nat)
    requires 0 < w
    ensures Home(next + 1, w) == if Home(next, w) == w - 1 then 0 else Home(next, w) + 1
  {
    var q, r := next / w, next % w;
    if r == w - 1 {
      Remainder(next + 1, w, q + 1, 0);
    } else {
      Remainder(next + 1, w, q, r + 1);
    }
  }

  /** Calls until the turn of worker `i` comes. */
  function Distance(next: nat, i: nat, w: nat): (d: nat)
    requires i < w
    ensures d < w
  {
    var h := Home(next, w);
    if h <= i then i - h else i + w - h
  }

  // ---- The counter's wrap-around ----

  /** Whose turn call number `j` from counter value `c` is. */
  function Turn(c: nat, j: nat, w: nat): nat
    requires 0 < w
  {
    Home((c + j) % WORD, w)
  }

  /** The next `w` calls from counter value `c` give every worker its turn. */
  ghost predicate EveryWorkerInTurn(c: nat, w: nat)
    requires 0 < w
  {
    forall i: nat :: i < w ==> Visits(c, w, i)
  }

  ghost predicate Visits(c: nat, w: nat, i: nat)
    requires 0 < w
  {
    exists j: nat :: j < w && Turn(c, j, w) == i
  }

  lemma VisitedAtDistance(c: nat, w: nat, i: nat)
    requires i < w
    ensures Home(c + Distance(c, i, w), w) == i
  {
    var q, h := c / w, c % w;
    if h <= i {
      Remainder(c + Distance(c, i, w), w, q, i);
    } else {
      Remainder(c + Distance(c, i, w), w, q + 1, i);
    }
  }

  lemma WrapIsHarmless(c: nat, w: nat, j: nat)
    requires 0 < w <= WORD && c < WORD && j < w && (c + w <= WORD || WORD % w == 0)
    ensures Turn(c, j, w) == Home(c + j, w)
  {
    if c + j >= WORD {
      var x := c + j - WORD;
      var a, b := WORD / w, x / w;
      assert c + j == (a + b) * w + x % w;
      Remainder(c + j, w, a + b, x % w);
    }
  }

  /** The worker that is passed over when the counter wraps. */
  function PassedOver(c: nat, w: nat): (i: nat)
    requires c < WORD < c + w
    ensures i < w
  {
    var r, m := WORD % w, WORD - c;
    if r <= w - m then w - m else r
  }

  /** Before the wrap: call `j` with word = q * w + r and m calls to go until the counter wraps. */
  lemma HomeBeforeWrap(word: nat, w: nat, q: int, r: nat, m: nat, j: nat)
    requires 0 < r < w && word == q * w + r && j < m < w && m <= word
    ensures (word - m + j) % w != if r <= w - m then w - m else r
  {
    var e := r - m + j;
    if e >= 0 {
      Remainder(word - m + j, w, q, e);
    } else {
      assert (q - 1) * w == q * w - w;
      Remainder(word - m + j, w, q - 1, w + e);
    }
  }

  lemma WordMod(x: nat)
    requires x < 2 * WORD
    ensures x % WORD == if x < WORD then x else x - WORD
  {
  }

  lemma WrapPassesOver(c: nat, w: nat, j: nat)
    requires c < WORD < c + w && w <= WORD && WORD % w != 0 && j < w
    ensures Turn(c, j, w) != PassedOver(c, w)
  {
    var m, q, r := WORD - c, WORD / w, WORD % w;
    assert PassedOver(c, w) == if r <= w - m then w - m else r;
    WordMod(c + j);
    hide PassedOver;
    if j < m {
      HomeBeforeWrap(WORD, w, q, r, m, j);
    } else {
      Remainder(j - m, w, 0, j - m);
    }
  }

  /** Every worker gets its turn exactly when the counter does not wrap or wraps at a multiple. */
  lemma RoundRobinIff(c: nat, w: nat)
    requires c < WORD && 0 < w <= WORD
    ensures EveryWorkerInTurn(c, w) <==> c + w <= WORD || WORD % w == 0
  {
    if c + w <= WORD || WORD % w == 0 {
      forall i: nat | i < w ensures Visits(c, w, i) {
        VisitedAtDistance(c, w, i);
        WrapIsHarmless(c, w, Distance(c, i, w));
      }
    } else {
      forall j: nat | j < w ensures Turn(c, j, w) != PassedOver(c, w) {
        WrapPassesOver(c, w, j);
      }
      assert !Visits(c, w, PassedOver(c, w));
    }
  }

  // ---- How often each worker gets its turn ----

  /** Turns of worker `i` in the next `j` calls from counter value `c`. */
  function Turns(c: nat, w: nat, i: nat, j: nat): (n: nat)
    requires 0 < w
    ensures n <= j
  {
    if j == 0 then 0 else Turns(c, w, i, j - 1) + if Turn(c, j - 1, w) == i then 1 else 0
  }

  /** Numbers below `x` that leave remainder `i`. */
  function Upto(x: nat, w: nat, i: nat): nat
    requires i < w
  {
    x / w + if i < x % w then 1 else 0
  }

  lemma UptoNext(x: nat, w: nat, i: nat)
    requires i < w
    ensures Upto(x + 1, w, i) == Upto(x, w, i) + if x % w == i then 1 else 0
  {
    var q, r := x / w, x % w;
    if r == w - 1 {
      assert x + 1 == (q + 1) * w;
      DivisionIsUnique(w, q + 1, 0, (x + 1) / w, (x + 1) % w);
    } else {
      DivisionIsUnique(w, q, r + 1, (x + 1) / w, (x + 1) % w);
    }
  }

  /** Calls with counter value below `x`, had it never wrapped, that were the turn of worker `i`. */
  function Served(x: nat, w: nat, i: nat): nat
    requires i < w
  {
    (x / WORD) * Upto(WORD, w, i) + Upto(x % WORD, w, i)
  }

  lemma ServedNext(x: nat, w: nat, i: nat)
    requires i < w
    ensures Served(x + 1, w, i) == Served(x, w, i) + if Home(x % WORD, w) == i then 1 else 0
  {
    var q, r := x / WORD, x % WORD;
    UptoNext(r, w, i);
    var all := Upto(WORD, w, i);
    if r == WORD - 1 {
      assert (x + 1) / WORD == q + 1 && (x + 1) % WORD == 0;
      assert Upto(0, w, i) == 0;
      assert (q + 1) * all == q * all + all;
    } else {
      assert (x + 1) / WORD == q && (x + 1) % WORD == r + 1;
    }
  }

  lemma {:induction false} TurnsAre(c: nat, w: nat, i: nat, j: nat)
    requires i < w
    ensures Turns(c, w, i, j) == Served(c + j, w, i) - Served(c, w, i)
  {
    if j > 0 {
      TurnsAre(c, w, i, j - 1);
      ServedNext(c + j - 1, w, i);
    }
  }

  /** Turns of the first `n` workers together. */
  function AllTurns(c: nat, w: nat, n: nat, j: nat): nat
    requires n <= w && 0 < w
  {
    if n == 0 then 0 else AllTurns(c, w, n - 1, j) + Turns(c, w, n - 1, j)
  }

  lemma {:induction false} AllTurnsNext(c: nat, w: nat, n: nat, j: nat)
    requires n <= w && 0 < w
    ensures AllTurns(c, w, n, j + 1) == AllTurns(c, w, n, j) + if Turn(c, j, w) < n then 1 else 0
    ensures AllTurns(c, w, n, 0) == 0
    decreases n
  {
    hide Turn;
    if n > 0 { AllTurnsNext(c, w, n - 1, j); }
  }

  /** Every call is somebody's turn. */
  lemma {:induction false} TurnsAddUp(c: nat, w: nat, j: nat)
    requires 0 < w
    ensures AllTurns(c, w, w, j) == j
  {
    if j == 0 {
      AllTurnsNext(c, w, w, 0);
    } else {
      TurnsAddUp(c, w, j - 1);
      AllTurnsNext(c, w, w, j - 1);
    }
  }

  lemma {:induction false} AllAtLeast(c: nat, w: nat, n: nat, j: nat, least: nat, more: nat)
    requires n <= w && more < w && 0 < w
    requires forall i :: 0 <= i < n ==> Turns(c, w, i, j) >= least + if i == more then 1 else 0
    ensures AllTurns(c, w, n, j) >= n * least + if more < n then 1 else 0
    decreases n
  {
    if n > 0 {
      AllAtLeast(c, w, n - 1, j, least, more);
      assert n * least == (n - 1) * least + least;
    }
  }

  /** The rounds are not even: somebody gets fewer turns than there are rounds. */
  lemma SomebodyFallsShort(c: nat, w: nat, rounds: nat, a: nat, b: nat) returns (i: nat)
    requires a < w && b < w && Turns(c, w, a, rounds * w) != Turns(c, w, b, rounds * w)
    ensures i < w && Turns(c, w, i, rounds * w) < rounds
  {
    var j := rounds * w;
    if forall i :: 0 <= i < w ==> Turns(c, w, i, j) >= rounds {
      var more := if Turns(c, w, a, j) > rounds then a else b;
      AllAtLeast(c, w, w, j, rounds, more);
      TurnsAddUp(c, w, j);
      assert false;
    }
    i :| 0 <= i < w && Turns(c, w, i, j) < rounds;
  }

  /**
   The counter keeps the rounds even: it does not wrap in them, or it wraps at a multiple of
   the number of workers, or it wraps just once and exactly between two rounds.
   */
  predicate Even(c: nat, w: nat, rounds: nat)
    requires 0 < w && c < WORD
  {
    || WORD % w == 0
    || c + rounds * w <= WORD
    || ((WORD - c) % w == 0 && c + rounds * w <= 2 * WORD)
  }

  function Bit(b: bool): nat { if b then 1 else 0 }

  lemma UptoBeyondLast(x: nat, w: nat, i: nat)
    requires i < w
    ensures Upto(x, w, i) == Upto(x, w, w - 1) + Bit(i < x % w)
  {
  }

  lemma ServedBeyondLast(x: nat, w: nat, i: nat)
    requires i < w
    ensures Served(x, w, i) == Served(x, w, w - 1) + (x / WORD) * Bit(i < WORD % w) + Bit(i < x % WORD % w)
  {
    UptoBeyondLast(WORD, w, i);
    UptoBeyondLast(x % WORD, w, i);
    var g, all, d := x / WORD, Upto(WORD, w, w - 1), Bit(i < WORD % w);
    hide Upto; hide Bit;
    Distribute(g, all, d);
  }

  lemma Distribute(g: int, a: int, d: int)
    ensures g * (a + d) == g * a + g * d
  {
  }

  lemma SmallNumber(c: nat)
    requires c < WORD
    ensures c / WORD == 0 && c % WORD == c
  {
  }

  /** Turns beyond those of the last worker. */
  lemma TurnsBeyondLast(c: nat, w: nat, i: nat, j: nat)
    requires i < w && c < WORD
    ensures Turns(c, w, i, j) - Turns(c, w, w - 1, j)
      == (c + j) / WORD * Bit(i < WORD % w) + Bit(i < (c + j) % WORD % w) - Bit(i < c % w)
  {
    TurnsAre(c, w, i, j);
    TurnsAre(c, w, w - 1, j);
    ServedBeyondLast(c + j, w, i);
    ServedBeyondLast(c, w, i);
    SmallNumber(c);
    hide Served; hide Turns; hide Bit;
  }

  /** Otherwise two workers get different numbers of turns. */
  lemma UnevenPair(c: nat, w: nat, rounds: nat) returns (i: nat)
    requires 0 < w && c < WORD && !Even(c, w, rounds)
    ensures i < w && Turns(c, w, i, rounds * w) != Turns(c, w, w - 1, rounds * w)
  {
    var j := rounds * w;
    var r, h, g, p := WORD % w, c % w, (c + j) / WORD, (c + j) % WORD % w;
    assert g >= 1;
    if g >= 2 || p > 0 {
      i := 0;
    } else {
      if r == h { SameRemainder(WORD, c, w); }
      i := if r < h then r else h;
    }
    TurnsBeyondLast(c, w, i, j);
  }

  lemma SameRemainder(x: nat, y: nat, w: nat)
    requires 0 < w && y <= x && x % w == y % w
    ensures (x - y) % w == 0
  {
    assert x - y == (x / w - y / w) * w;
    Remainder(x - y, w, x / w - y / w, 0);
  }

  /** Some worker is then visited too seldom. */
  lemma UnevenFallsShort(c: nat, w: nat, rounds: nat) returns (i: nat)
    requires 0 < w && c < WORD && !Even(c, w, rounds)
    ensures i < w && Turns(c, w, i, rounds * w) < rounds
  {
    var a := UnevenPair(c, w, rounds);
    i := SomebodyFallsShort(c, w, rounds, a, w - 1);
  }
}
