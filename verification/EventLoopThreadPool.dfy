/** Round-robin assignment of connections to loops with a counter that wraps at 2^32. */
module EventLoopThreadPools {

  const WRAP := 0x1_0000_0000

  class EventLoopThreadPool {
    const baseLoop: nat
    var loops: seq<nat>
    var next: nat  // an unsigned 32-bit counter

    ghost var taken: nat  // calls of GetNextLoop that used the counter

    ghost predicate Valid()
      reads this
    {
      next < WRAP && next == taken % WRAP
    }

    constructor (baseLoop: nat)
      ensures Valid() && this.baseLoop == baseLoop && loops == [] && next == 0 && taken == 0
    {
      this.baseLoop := baseLoop;
      loops, next, taken := [], 0, 0;
    }

    /** Starts one loop per thread, in order. */
    method Start(started: seq<nat>)
      requires Valid()
      modifies this`loops
      ensures Valid() && loops == old(loops) + started
    {
      for i := 0 to |started|
        invariant loops == old(loops) + started[..i]
      {
        loops := loops + [started[i]];
      }
    }

    /** The counter's loop, and the counter goes on by one modulo 2^32. */
    method GetNextLoop() returns (loop: nat)
      requires Valid()
      modifies this`next, this`taken
      ensures Valid()
      ensures loops == [] ==> loop == baseLoop && next == old(next) && taken == old(taken)
      ensures loops != [] ==> loop == loops[old(next) % |loops|] && next == (old(next) + 1) % 0x1_0000_0000
      ensures loops != [] ==> loop == loops[Index(old(taken), |loops|)] && taken == old(taken) + 1
    {
      if loops == [] {
        return baseLoop;
      }
      var index := next % |loops|;
      ModNext(taken);
      next := if next + 1 == WRAP then 0 else next + 1;
      taken := taken + 1;
      loop := loops[index];
    }
  }

  lemma ModNext(k: nat)
    ensures (k + 1) % WRAP == if k % WRAP + 1 == WRAP then 0 else k % WRAP + 1
  {
  }

  /** The loop that assignment number `a` since the start goes to. */
  function Index(a: nat, n: nat): (index: nat)
    requires n > 0
    ensures index < n
  {
    (a % WRAP) % n
  }

  /** How many of the `k` assignments from number `a` on go to loop `j`. */
  function Count(a: nat, k: nat, n: nat, j: nat): nat
    requires n > 0
    decreases k
  {
    if k == 0 then 0 else Count(a, k - 1, n, j) + (if Index(a + k - 1, n) == j then 1 else 0)
  }

  /** Only where the counter stands matters, not how often it has wrapped before. */
  lemma {:induction false} WindowCount(a: nat, k: nat, n: nat, j: nat)
    requires n > 0
    ensures Count(a, k, n, j) == Count(a % WRAP, k, n, j)
    decreases k
  {
    if k > 0 {
      hide Index;
      WindowCount(a, k - 1, n, j);
      WindowIndex(a, k - 1, n);
    }
  }

  lemma WindowIndex(a: nat, i: nat, n: nat)
    requires n > 0
    ensures Index(a + i, n) == Index(a % WRAP + i, n)
  {
    var q, r := a / WRAP, a % WRAP;
    assert a + i == q * WRAP + (r + i);
    assert (a + i) % WRAP == (r + i) % WRAP;
  }

  /** The same without wrap-around. */
  function PlainCount(start: nat, k: nat, n: nat, j: nat): nat
    requires n > 0
    decreases k
  {
    if k == 0 then 0 else PlainCount(start, k - 1, n, j) + (if (start + k - 1) % n == j then 1 else 0)
  }

  /** How far loop `j` lies behind loop `first` in the rotation. */
  function Offset(first: nat, n: nat, j: nat): nat
    requires first < n && j < n
  {
    if j >= first then j - first else j + n - first
  }

  lemma ModStep(a: nat, n: nat)
    requires n > 0
    ensures (a + 1) % n == if a % n + 1 == n then 0 else a % n + 1
  {
    var q, r := a / n, a % n;
    assert a == q * n + r;
    if r + 1 == n {
      assert a + 1 == (q + 1) * n;
      MultipleMod(q + 1, n);
    } else {
      assert a + 1 == q * n + (r + 1);
      RemainderIs(q, r + 1, n);
    }
  }

  lemma MultipleMod(q: nat, n: nat)
    requires n > 0
    ensures (q * n) % n == 0
  {
    RemainderIs(q, 0, n);
  }

  lemma RemainderIs(q: nat, r: nat, n: nat)
    requires r < n
    ensures (q * n + r) % n == r && (q * n + r) / n == q
  {
    var x := q * n + r;
    var p, t := x / n, x % n;
    assert x == p * n + t;
    assert (q - p) * n == t - r && (p - q) * n == r - t;
    if q > p {
      AtLeast(q - p, n);
    } else if p > q {
      AtLeast(p - q, n);
    }
  }

  lemma AtLeast(d: nat, n: nat)
    requires d > 0
    ensures d * n >= n
  {
    assert d * n == n + (d - 1) * n;
  }

  /** After `k` assignments without wrap-around, `k == rounds * n + extra`: every loop has had
      `rounds`, and the `extra` loops next in rotation one more. */
  lemma {:induction false} PlainShare(start: nat, k: nat, n: nat, j: nat)
    requires n > 0 && j < n
    ensures k / n * n + k % n == k
    ensures PlainCount(start, k, n, j) == k / n + (if Offset(start % n, n, j) < k % n then 1 else 0)
    ensures (start + k) % n == if start % n + k % n < n then start % n + k % n else start % n + k % n - n
    decreases k
  {
    if k == 0 {
      assert 0 / n == 0 && 0 % n == 0;
    } else {
      PlainShare(start, k - 1, n, j);
      ModStep(k - 1, n);
      ModStep(start + k - 1, n);
      DivStep(k - 1, n);
    }
  }

  lemma DivStep(a: nat, n: nat)
    requires n > 0
    ensures (a + 1) / n == if a % n + 1 == n then a / n + 1 else a / n
    ensures (a + 1) / n * n + (a + 1) % n == a + 1
  {
    var q, r := a / n, a % n;
    assert a == q * n + r;
    if r + 1 == n {
      assert a + 1 == (q + 1) * n + 0;
      RemainderIs(q + 1, 0, n);
    } else {
      RemainderIs(q, r + 1, n);
    }
  }

  lemma SmallIndex(a: nat, n: nat)
    requires n > 0 && a < WRAP
    ensures Index(a, n) == a % n
  {
    assert a % WRAP == a;
  }

  /** As long as the counter does not wrap in the window, wrapping plays no part. */
  lemma {:induction false} NoWrap(start: nat, k: nat, n: nat, j: nat)
    requires n > 0 && start + k <= WRAP
    ensures Count(start, k, n, j) == PlainCount(start, k, n, j)
    decreases k
  {
    if k > 0 {
      NoWrap(start, k - 1, n, j);
      SmallIndex(start + k - 1, n);
    }
  }

  /** Any `k` consecutive assignments in which the counter does not wrap give every loop the
      floor or the ceiling of `k / n`, and the loops next in rotation get the ceiling. */
  lemma FairWithoutWrap(a: nat, k: nat, n: nat, j: nat)
    requires n > 0 && j < n && a % 0x1_0000_0000 + k <= 0x1_0000_0000
    ensures Count(a, k, n, j) == k / n + (if Offset(Index(a, n), n, j) < k % n then 1 else 0)
  {
    WindowCount(a, k, n, j);
    NoWrap(a % WRAP, k, n, j);
    PlainShare(a % WRAP, k, n, j);
  }

  /** Up to the wrap, assignment number `a` goes to loop `a % n`, and any `n` assignments in a
      row serve every loop once. */
  lemma OneRound(a: nat, n: nat, j: nat)
    requires n > 0 && j < n && a + n <= 0x1_0000_0000
    ensures Index(a, n) == a % n
    ensures Count(a, n, n, j) == 1
  {
    SmallIndex(a, n);
    assert a % WRAP == a;
    FairWithoutWrap(a, n, n, j);
    RemainderIs(1, 0, n);
  }

  /** A window is the assignments up to a wrap and those after it. */
  lemma {:induction false} SplitAtWrap(start: nat, k: nat, n: nat, j: nat)
    requires n > 0 && start <= WRAP <= start + k
    ensures Count(start, k, n, j) == Count(start, WRAP - start, n, j) + Count(0, start + k - WRAP, n, j)
    decreases k
  {
    if start + k > WRAP {
      SplitAtWrap(start, k - 1, n, j);
      WrapOnce(start + k - 1);
    }
  }

  lemma WrapOnce(x: nat)
    requires x >= WRAP
    ensures x % WRAP == (x - WRAP) % WRAP
  {
  }

  /** How often the counter passes its end during `k` assignments. */
  function Wraps(a: nat, k: nat): nat {
    (a % 0x1_0000_0000 + k) / 0x1_0000_0000
  }

  /** Each wrap in the window costs at most one more assignment of difference: with `w` wraps
      two loops differ by at most `w + 1`, so by at most 2 when the counter wraps once. */
  lemma FairUpToWraps(a: nat, k: nat, n: nat, i: nat, j: nat)
    requires n > 0 && i < n && j < n
    ensures Count(a, k, n, i) <= Count(a, k, n, j) + Wraps(a, k) + 1
  {
    WindowCount(a, k, n, i);
    WindowCount(a, k, n, j);
    WindowFairUpToWraps(a % WRAP, k, n, i, j);
  }

  lemma {:induction false} WindowFairUpToWraps(start: nat, k: nat, n: nat, i: nat, j: nat)
    requires n > 0 && i < n && j < n && start < WRAP
    ensures Count(start, k, n, i) <= Count(start, k, n, j) + (start + k) / WRAP + 1
    decreases k
  {
    if start + k <= WRAP {
      FairWithoutWrap(start, k, n, i);
      FairWithoutWrap(start, k, n, j);
    } else {
      FairWithoutWrap(start, WRAP - start, n, i);
      FairWithoutWrap(start, WRAP - start, n, j);
      SplitAtWrap(start, k, n, i);
      SplitAtWrap(start, k, n, j);
      WindowFairUpToWraps(0, start + k - WRAP, n, i, j);
      assert (start + k) / WRAP == (start + k - WRAP) / WRAP + 1;
    }
  }

  /** At the wrap the rotation goes on to the next loop exactly when the number of loops
      divides 2^32; otherwise it jumps back to the first. */
  lemma RotationSurvivesWrapIff(n: nat)
    requires n > 0
    ensures Index(0x1_0000_0000, n) == 0
    ensures var last := Index(0xFFFF_FFFF, n);
      Index(0x1_0000_0000, n) == (if last + 1 == n then 0 else last + 1) <==> 0x1_0000_0000 % n == 0
  {
    FirstAfterWrap(n);
    SmallIndex(WRAP - 1, n);
    ModStep(WRAP - 1, n);
  }

  lemma FirstAfterWrap(n: nat)
    requires n > 0
    ensures Index(WRAP, n) == 0
  {
    assert WRAP % WRAP == 0;
    RemainderIs(0, 0, n);
  }

  // ----- every window -----------------------------------------------------------------------

  /** Over any window at all, two loops differ by at most one assignment. */
  ghost predicate AlwaysFair(n: nat)
    requires n > 0
  {
    forall a: nat, k: nat, i: nat, j: nat :: i < n && j < n ==> Count(a, k, n, i) <= Count(a, k, n, j) + 1
  }

  /** Every window is fair exactly when the number of loops divides 2^32. */
  lemma AlwaysFairIff(n: nat)
    requires n > 0
    ensures AlwaysFair(n) <==> 0x1_0000_0000 % n == 0
  {
    if WRAP % n == 0 {
      forall a: nat, k: nat, i: nat, j: nat | i < n && j < n
        ensures Count(a, k, n, i) <= Count(a, k, n, j) + 1
      {
        FairWhenLoopsDivideWrap(a, k, n, i);
        FairWhenLoopsDivideWrap(a, k, n, j);
      }
    } else {
      UnfairAcrossWrap(n);
    }
  }

  /** Otherwise the window from the last start of a round before the wrap to the first
      assignment after it gives loop 0 two assignments and one loop none: the bound of
      `FairUpToWraps` is reached. */
  lemma UnfairAcrossWrap(n: nat)
    requires n > 0 && 0x1_0000_0000 % n != 0
    ensures var r := 0x1_0000_0000 % n;
      && Count(0x1_0000_0000 - r, r + 1, n, 0) == 2 && Count(0x1_0000_0000 - r, r + 1, n, r) == 0
      && Wraps(0x1_0000_0000 - r, r + 1) == 1
  {
    var q, r := WRAP / n, WRAP % n;
    var start := WRAP - r;
    assert start == q * n;
    MultipleMod(q, n);
    FirstAfterWrap(n);
    ShortWindow(start, r, n);
    assert start + (r + 1) - 1 == WRAP;
    WrapsOnce(start, r + 1);
  }

  /** Fewer assignments than loops, from loop 0 on, before any wrap. */
  lemma ShortWindow(start: nat, r: nat, n: nat)
    requires 0 < r < n && start + r == WRAP && start % n == 0
    ensures Count(start, r, n, 0) == 1 && Count(start, r, n, r) == 0
  {
    RemainderIs(0, r, n);
    NoWrap(start, r, n, 0);
    PlainShare(start, r, n, 0);
    NoWrap(start, r, n, r);
    PlainShare(start, r, n, r);
  }

  lemma WrapsOnce(start: nat, k: nat)
    requires WRAP == start + k - 1 && k > 1
    ensures Wraps(start, k) == 1
  {
    assert start % WRAP == start;
  }

  /** When the number of loops divides 2^32, wrap-around is invisible: any window at all gives
      every loop the floor or the ceiling of `k / n`. */
  lemma FairWhenLoopsDivideWrap(a: nat, k: nat, n: nat, j: nat)
    requires n > 0 && j < n && 0x1_0000_0000 % n == 0
    ensures Count(a, k, n, j) == k / n + (if Offset(a % n, n, j) < k % n then 1 else 0)
  {
    DividesCount(a, k, n, WRAP / n, j);
    PlainShare(a, k, n, j);
  }

  lemma {:induction false} DividesCount(a: nat, k: nat, n: nat, m: nat, j: nat)
    requires n > 0 && n * m == WRAP
    ensures Count(a, k, n, j) == PlainCount(a, k, n, j)
    decreases k
  {
    if k > 0 {
      DividesCount(a, k - 1, n, m, j);
      ModOfMod(a + k - 1, n, m);
    }
  }

  lemma ModOfMod(x: nat, n: nat, m: nat)
    requires n > 0 && n * m == WRAP
    ensures (x % WRAP) % n == x % n
  {
    var q, r := x / WRAP, x % WRAP;
    var p, t := r / n, r % n;
    assert x == q * WRAP + r && r == p * n + t;
    assert q * WRAP == q * m * n by {
      assert q * (n * m) == q * m * n;
    }
    assert x == (q * m + p) * n + t;
    RemainderIs(q * m + p, t, n);
  }
}
