/** Capped exponential backoff with jitter, in nanoseconds, on 64-bit durations. */
module Backoff {
  import opened Types

  const MAX_INT64 := 0x7FFF_FFFF_FFFF_FFFF
  const TWO64 := 0x1_0000_0000_0000_0000
  const CAP := 300_000_000_000

  function Wrap64(x: int): int {
    (x + MAX_INT64 + 1) % TWO64 - MAX_INT64 - 1
  }

  function Pow2(e: nat): nat {
    if e == 0 then 1 else 2 * Pow2(e - 1)
  }

  /** A power of two computed in floating point and truncated to a 64-bit integer.  Out of range, the
      conversion gives the smallest integer, as it does on amd64. */
  function PowToInt64(e: int): int {
    if e < 0 then 0 else if e < 63 then Pow2(e) else -MAX_INT64 - 1
  }

  /** The delay before jitter. */
  function Delay(base: int, n: int): int {
    var product := Wrap64(base * PowToInt64(n - 1));
    if product > CAP then CAP else product
  }

  /** Truncation toward zero. */
  function Trunc(x: real): int {
    if x >= 0.0 then x.Floor else -((-x).Floor)
  }

  function Jittered(delay: int, r: real): int {
    Trunc(delay as real * (0.75 + r * 0.5))
  }

  function NextRetry(c: Config, n: int, now: int, r: real): Option<int> {
    if n >= c.maxRetries then None else Some(now + Jittered(Delay(c.baseDelay, n), r))
  }

  // -------------------------------------------------- when the cap holds

  function Min(x: int, y: int): int {
    if x < y then x else y
  }

  /** What the delay before attempt `n + 1` is meant to be. */
  function Intended(base: int, n: int): int
    requires n >= 1
  {
    Min(base * Pow2(n - 1), CAP)
  }

  lemma WrapFits(x: int)
    ensures 0 <= x <= MAX_INT64 ==> Wrap64(x) == x
    ensures MAX_INT64 < x < TWO64 ==> Wrap64(x) == x - TWO64
  {
  }

  lemma {:induction false} Pow2Grows(a: nat, b: nat)
    requires a <= b
    ensures 1 <= Pow2(a) <= Pow2(b)
    decreases b
  {
    if b > 0 {
      Pow2Grows(if a < b then a else b - 1, b - 1);
    }
  }

  lemma Pow2At62()
    ensures 2 * Pow2(62) == MAX_INT64 + 1
  {
    assert Pow2(15) == 0x8000 && Pow2(16) == 0x1_0000;
    Pow2Sum(15, 16);
    Pow2Sum(31, 31);
  }

  lemma {:induction false} Pow2Sum(a: nat, b: nat)
    ensures Pow2(a + b) == Pow2(a) * Pow2(b)
  {
    if a > 0 {
      Pow2Sum(a - 1, b);
      assert Pow2(a) * Pow2(b) == 2 * (Pow2(a - 1) * Pow2(b));
    }
  }

  lemma Scale(base: int, x: int, y: int)
    requires base > 0 && x <= y
    ensures base * x <= base * y && (x > 0 ==> base * x > 0)
  {
  }

  /** A product that fits gives the intended delay. */
  lemma DelayFits(base: int, n: int)
    requires base > 0 && n >= 1 && base * Pow2(n - 1) <= MAX_INT64
    ensures Delay(base, n) == Intended(base, n)
  {
    Pow2Grows(0, n - 1);
    if n - 1 >= 63 {
      Pow2At62();
      Pow2Grows(63, n - 1);
      Scale(1, Pow2(63), Pow2(n - 1));
      BaseScales(base, Pow2(n - 1));
    }
    Scale(base, 1, Pow2(n - 1));
    WrapFits(base * Pow2(n - 1));
  }

  lemma BaseScales(base: int, x: int)
    requires base > 0 && x > 0
    ensures base * x >= x
  {
  }

  /** The first product that does not fit gives a negative delay, which the cap does not catch. */
  lemma FirstOverflow(base: int, n: int)
    requires 0 < base <= MAX_INT64 && n >= 2
    requires base * Pow2(n - 2) <= MAX_INT64 < base * Pow2(n - 1)
    ensures Delay(base, n) <= -2
  {
    Pow2Grows(0, n - 2);
    assert base * Pow2(n - 1) == 2 * (base * Pow2(n - 2));
    Pow2At62();
    if n - 1 >= 63 {
      Pow2Grows(62, n - 2);
      if base >= 2 {
        BaseScales2(base, Pow2(n - 2));
      }
      assert base == 1;
      assert Wrap64(-MAX_INT64 - 1) == -MAX_INT64 - 1;
    } else {
      WrapFits(base * Pow2(n - 1));
    }
  }

  lemma BaseScales2(base: int, x: int)
    requires base >= 2 && x > 0
    ensures base * x >= 2 * x
  {
  }

  lemma {:induction false} FindOverflow(base: int, hi: int) returns (n: int)
    requires 0 < base <= MAX_INT64 && hi >= 1 && base * Pow2(hi - 1) > MAX_INT64
    ensures 2 <= n <= hi && base * Pow2(n - 2) <= MAX_INT64 < base * Pow2(n - 1)
    decreases hi
  {
    if hi >= 2 && base * Pow2(hi - 2) > MAX_INT64 {
      n := FindOverflow(base, hi - 1);
    } else {
      n := hi;
    }
  }

  /** The cap holds for every retry exactly when the largest product fits into 64 bits. */
  lemma CapHolds(base: int, maxRetries: int)
    requires 0 < base <= MAX_INT64 && maxRetries >= 2
    ensures (forall n :: 1 <= n < maxRetries ==> Delay(base, n) == Intended(base, n))
        <==> base * Pow2(maxRetries - 2) <= MAX_INT64
  {
    if base * Pow2(maxRetries - 2) <= MAX_INT64 {
      forall n | 1 <= n < maxRetries
        ensures Delay(base, n) == Intended(base, n)
      {
        ProductFits(base, maxRetries, n);
        DelayFits(base, n);
      }
    } else {
      var n := FindOverflow(base, maxRetries - 1);
      FirstOverflow(base, n);
      Pow2Grows(0, n - 1);
      Scale(base, 1, Pow2(n - 1));
      assert Delay(base, n) != Intended(base, n);
    }
  }

  lemma ProductFits(base: int, maxRetries: int, n: int)
    requires base > 0 && 1 <= n < maxRetries && base * Pow2(maxRetries - 2) <= MAX_INT64
    ensures 0 < base * Pow2(n - 1) <= MAX_INT64
  {
    Pow2Grows(0, n - 1);
    Pow2Grows(n - 1, maxRetries - 2);
    Scale(base, Pow2(n - 1), Pow2(maxRetries - 2));
  }

  /** With the default base of five seconds, the thirty-second retry would be due in the past. */
  lemma DefaultBaseOverflows()
    ensures Delay(5_000_000_000, 32) < 0
    ensures forall n :: 1 <= n < 32 ==> Delay(5_000_000_000, n) == Intended(5_000_000_000, n)
  {
    assert Pow2(15) == 0x8000;
    Pow2Sum(15, 15);
    FirstOverflow(5_000_000_000, 32);
    CapHolds(5_000_000_000, 32);
  }

  /** The delays with the default base: 5, 10, 20, 40, 80 and 160 seconds, and then five minutes. */
  lemma DefaultDelays(n: int)
    requires 1 <= n < 32
    ensures Delay(5_000_000_000, n)
         == if n <= 6 then [5, 10, 20, 40, 80, 160][n - 1] * 1_000_000_000 else 300 * 1_000_000_000
  {
    DefaultBaseOverflows();
    assert Pow2(6) == 64;
    if n <= 6 {
      assert Pow2(n - 1) == [1, 2, 4, 8, 16, 32][n - 1];
    } else {
      Pow2Grows(6, n - 1);
    }
  }

  /** The delays do not shrink from one retry to the next. */
  lemma DelayGrows(base: int, maxRetries: int, n: int, m: int)
    requires base > 0 && 1 <= n <= m < maxRetries && base * Pow2(maxRetries - 2) <= MAX_INT64
    ensures 0 < Delay(base, n) <= Delay(base, m) <= CAP
  {
    ProductFits(base, maxRetries, n);
    ProductFits(base, maxRetries, m);
    DelayFits(base, n);
    DelayFits(base, m);
    Pow2Grows(n - 1, m - 1);
    Scale(base, Pow2(n - 1), Pow2(m - 1));
  }

  /** Jitter keeps a delay within a quarter of itself, up to the truncation to a whole number. */
  lemma JitterBounds(delay: int, r: real)
    requires delay >= 0 && 0.0 <= r < 1.0
    ensures 3 * delay < 4 * (Jittered(delay, r) + 1) && 4 * Jittered(delay, r) <= 5 * delay
    ensures delay > 0 ==> 4 * Jittered(delay, r) < 5 * delay
    ensures Jittered(delay, r) >= 0
  {
    var f := 0.75 + r * 0.5;
    var x := delay as real * f;
    assert 0.75 <= f < 1.25;
    Scaled(delay as real, f, x);
    FloorBounds(delay, x);
    assert Jittered(delay, r) == Trunc(x);
    if delay > 0 {
      WholeStrictlyBelow(4 * Trunc(x), 5 * delay, 4.0 * x);
    }
  }

  lemma FloorBounds(delay: int, x: real)
    requires delay >= 0 && delay as real * 0.75 <= x <= delay as real * 1.25
    ensures Trunc(x) >= 0 && 3 * delay < 4 * (Trunc(x) + 1) && 4 * Trunc(x) <= 5 * delay
  {
    var n := x.Floor;
    assert Trunc(x) == n;
    WholeBelow(4 * n, 5 * delay, 4.0 * x);
    WholeStrictlyBelow(3 * delay, 4 * n + 4, 4.0 * x);
  }

  /** The draw that gives `wait`: the least one for the truncated three quarters, and for the others the one that
      hits them. */
  function DrawFor(delay: int, wait: int): real
    requires delay > 0
  {
    if 4 * wait < 3 * delay then 0.0 else (4 * wait - 3 * delay) as real / (2 * delay) as real
  }

  lemma Halves(wait: int, delay: int)
    requires delay > 0
    ensures delay as real * (0.75 + (4 * wait - 3 * delay) as real / (2 * delay) as real * 0.5) == wait as real
  {
    var d, w := delay as real, wait as real;
    assert (2 * delay) as real == 2.0 * d && (4 * wait - 3 * delay) as real == 4.0 * w - 3.0 * d;
    HalvesOf(d, w, (4.0 * w - 3.0 * d) / (2.0 * d));
  }

  lemma HalvesOf(d: real, w: real, q: real)
    requires d > 0.0 && q == (4.0 * w - 3.0 * d) / (2.0 * d)
    ensures d * (0.75 + q * 0.5) == w
  {
    assert q * (2.0 * d) == 4.0 * w - 3.0 * d;
    assert d * (0.75 + q * 0.5) == 0.75 * d + 0.25 * (q * (2.0 * d));
  }

  lemma FractionBelowOne(a: real, b: real, q: real)
    requires 0.0 <= a < b && q * b == a
    ensures 0.0 <= q < 1.0
  {
  }

  lemma LeastDraw(delay: int, wait: int)
    requires delay > 0 && 3 * delay < 4 * (wait + 1) && 4 * wait < 3 * delay
    ensures Jittered(delay, 0.0) == wait
  {
    JitterBounds(delay, 0.0);
    var x := delay as real * (0.75 + 0.0 * 0.5);
    assert x == delay as real * 0.75;
    WholeBelow(4 * x.Floor, 3 * delay, 4.0 * x);
  }

  lemma OtherDraw(delay: int, wait: int)
    requires delay > 0 && 3 * delay <= 4 * wait < 5 * delay
    ensures 0.0 <= DrawFor(delay, wait) < 1.0 && Jittered(delay, DrawFor(delay, wait)) == wait
  {
    Halves(wait, delay);
    FractionBelowOne((4 * wait - 3 * delay) as real, (2 * delay) as real, DrawFor(delay, wait));
    assert Jittered(delay, DrawFor(delay, wait)) == Trunc(wait as real) == wait;
  }

  /** The jitter draws every whole number in that range, and no other. */
  lemma JitterDraws(delay: int, wait: int)
    requires delay > 0
    ensures (exists r :: 0.0 <= r < 1.0 && Jittered(delay, r) == wait)
        <==> 3 * delay < 4 * (wait + 1) && 4 * wait < 5 * delay
  {
    if 3 * delay < 4 * (wait + 1) && 4 * wait < 5 * delay {
      if 4 * wait < 3 * delay {
        LeastDraw(delay, wait);
      } else {
        OtherDraw(delay, wait);
      }
      var r := DrawFor(delay, wait);
      assert 0.0 <= r < 1.0 && Jittered(delay, r) == wait;
    } else if r :| 0.0 <= r < 1.0 && Jittered(delay, r) == wait {
      JitterBounds(delay, r);
    }
  }

  /** A negative delay is jittered like the positive one: the result is truncated toward zero. */
  lemma JitterMirrors(delay: int, r: real)
    requires delay >= 0 && 0.0 <= r < 1.0
    ensures Jittered(-delay, r) == -Jittered(delay, r)
  {
    var f := 0.75 + r * 0.5;
    NonNegative(delay as real, f);
    assert (-delay) as real == -(delay as real);
    assert (-delay) as real * f == -(delay as real * f);
  }

  lemma WholeBelow(a: int, b: int, x: real)
    requires a as real <= x <= b as real
    ensures a <= b
  {
  }

  lemma WholeStrictlyBelow(a: int, b: int, x: real)
    requires a as real <= x < b as real
    ensures a < b
  {
  }

  lemma Scaled(d: real, f: real, x: real)
    requires d >= 0.0 && 0.75 <= f <= 1.25 && x == d * f
    ensures d * 0.75 <= x <= d * 1.25
    ensures d > 0.0 && f < 1.25 ==> x < d * 1.25
  {
    NonNegative(d, f - 0.75);
    NonNegative(d, 1.25 - f);
    assert d * (f - 0.75) == x - d * 0.75;
    assert d * (1.25 - f) == d * 1.25 - x;
  }

  lemma NonNegative(a: real, b: real)
    requires a >= 0.0 && b >= 0.0
    ensures a * b >= 0.0
  {
  }

  // -------------------------------------------------- the retry time

  /** The wait is a jittered delay for the retry after attempt `n`. */
  ghost predicate WaitFor(base: int, n: int, wait: int) {
    exists r :: 0.0 <= r < 1.0 && wait == Jittered(Delay(base, n), r)
  }

  /** What is scheduled at clock `now` after attempt `n` is due a jittered delay later.  Unless the product overflows,
      that is three to five quarters of the power of two, or of five minutes, later, up to a nanosecond. */
  ghost predicate Timely(base: int, n: int, now: int, at: int) {
    && WaitFor(base, n, at - now)
    && (n >= 1 && base > 0 && base * Pow2(n - 1) <= MAX_INT64 ==>
          var delay := if base * Pow2(n - 1) < 300_000_000_000 then base * Pow2(n - 1) else 300_000_000_000;
          3 * delay < 4 * (at - now + 1) && 4 * (at - now) < 5 * delay)
  }

  lemma WaitIsTimely(base: int, n: int, now: int, at: int)
    requires WaitFor(base, n, at - now)
    ensures Timely(base, n, now, at)
  {
    if n >= 1 && base > 0 && base * Pow2(n - 1) <= MAX_INT64 {
      var r :| 0.0 <= r < 1.0 && at - now == Jittered(Delay(base, n), r);
      DelayFits(base, n);
      Pow2Grows(0, n - 1);
      Scale(base, 1, Pow2(n - 1));
      JitterBounds(Delay(base, n), r);
    }
  }

  lemma NextIsTimely(c: Config, n: int, now: int, r: real)
    requires 0.0 <= r < 1.0
    ensures NextRetry(c, n, now, r).Some? <==> n < c.maxRetries
    ensures n < c.maxRetries ==> Timely(c.baseDelay, n, now, NextRetry(c, n, now, r).value)
  {
    if n < c.maxRetries {
      var at := NextRetry(c, n, now, r).value;
      assert at - now == Jittered(Delay(c.baseDelay, n), r);
      WaitIsTimely(c.baseDelay, n, now, at);
    }
  }

  /** Under the no-overflow condition no retry is due before it is scheduled. */
  lemma TimelyIsLater(base: int, maxRetries: int, n: int, now: int, at: int)
    requires base > 0 && 1 <= n < maxRetries && base * Pow2(maxRetries - 2) <= MAX_INT64
    requires Timely(base, n, now, at)
    ensures at >= now
  {
    ProductFits(base, maxRetries, n);
  }

  lemma TruncPast(x: real)
    requires x <= -1.0
    ensures Trunc(x) <= -1
  {
    var y := -x;
    assert y >= 1.0 && y.Floor >= 1;
  }

  lemma PastDelay(delay: int)
    requires delay <= -2
    ensures Jittered(delay, 0.0) < 0
  {
    var x := delay as real * (0.75 + 0.0 * 0.5);
    assert x == delay as real * 0.75 && delay as real <= -2.0;
    TruncPast(x);
  }

  /** No retry is due before it is scheduled exactly if the largest product fits into 64 bits. */
  lemma NeverInThePast(base: int, maxRetries: int)
    requires 0 < base <= MAX_INT64 && maxRetries >= 2
    ensures (forall n, wait :: 1 <= n < maxRetries && WaitFor(base, n, wait) ==> wait >= 0)
        <==> base * Pow2(maxRetries - 2) <= MAX_INT64
  {
    if base * Pow2(maxRetries - 2) <= MAX_INT64 {
      forall n, wait | 1 <= n < maxRetries && WaitFor(base, n, wait)
        ensures wait >= 0
      {
        WaitIsTimely(base, n, 0, wait);
        TimelyIsLater(base, maxRetries, n, 0, wait);
      }
    } else {
      var n := FindOverflow(base, maxRetries - 1);
      FirstOverflow(base, n);
      PastDelay(Delay(base, n));
      assert WaitFor(base, n, Jittered(Delay(base, n), 0.0));
    }
  }

  // -------------------------------------------------- the retry horizon

  /** The sum of the delays before jitter of the first `n` retries. */
  function TotalDelay(base: int, n: nat): int {
    if n == 0 then 0 else TotalDelay(base, n - 1) + Delay(base, n)
  }

  lemma GeometricStep(base: int, p: int)
    ensures base * (2 * p - 1) == base * (p - 1) + base * p
  {
  }

  /** A geometric sum, or the cap for every retry, whichever is less. */
  lemma {:induction false} TotalDelayBound(base: int, maxRetries: int, n: nat)
    requires base > 0 && n < maxRetries && (n > 0 ==> base * Pow2(maxRetries - 2) <= MAX_INT64)
    ensures TotalDelay(base, n) <= base * (Pow2(n) - 1)
    ensures TotalDelay(base, n) <= n * 300_000_000_000
  {
    if n > 0 {
      TotalDelayBound(base, maxRetries, n - 1);
      ProductFits(base, maxRetries, n);
      DelayFits(base, n);
      GeometricStep(base, Pow2(n - 1));
    }
  }
}
