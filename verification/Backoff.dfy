// Retry delays (src/pgrelay/worker/backoff.py): capped exponential with jitter.
module Backoff {

  /** The retry settings, within the bounds that Settings validates. */
  datatype Settings = Settings(base: int, max: int, jitter: real)
  {
    predicate Valid() { 1 <= base <= 3600 && 1 <= max <= 86400 && 0.0 <= jitter <= 1.0 }
  }

  function Pow2(n: nat): int { if n == 0 then 1 else 2 * Pow2(n - 1) }

  function MinInt(a: int, b: int): int { if a < b then a else b }

  function Exponent(attemptCount: int): nat { if attemptCount - 1 > 0 then attemptCount - 1 else 0 }

  /** min(base * 2 ** exponent, max). */
  function BaseDelay(attemptCount: int, s: Settings): int { MinInt(s.base * Pow2(Exponent(attemptCount)), s.max) }

  /** Python's int() truncates toward zero. */
  function Truncate(x: real): int { if x >= 0.0 then x.Floor else -((-x).Floor) }

  /** draw is what random.uniform(-jitter, jitter) returned. */
  function RetryDelay(attemptCount: int, s: Settings, draw: real): int {
    var delayed := BaseDelay(attemptCount, s) as real + draw;
    var capped := MinInt(s.max, Truncate(delayed));
    if capped > 1 then capped else 1
  }

  /** Half the width of the window that random.uniform draws from. */
  function Jitter(baseDelay: int, ratio: real): real { baseDelay as real * ratio }

  predicate Drawn(attemptCount: int, s: Settings, draw: real) {
    -Jitter(BaseDelay(attemptCount, s), s.jitter) <= draw <= Jitter(BaseDelay(attemptCount, s), s.jitter)
  }

  lemma {:induction false} Pow2Positive(n: nat)
    ensures Pow2(n) >= 1
  {
    if n > 0 { Pow2Positive(n - 1); }
  }

  lemma {:induction false} Pow2Grows(m: nat, n: nat)
    requires m <= n
    ensures Pow2(m) <= Pow2(n)
    decreases n
  {
    if m < n { Pow2Grows(m, n - 1); Pow2Positive(n - 1); }
  }

  lemma ProductGrows(base: int, x: int, y: int)
    requires base >= 0 && x <= y
    ensures base * x <= base * y
  {
  }

  lemma BaseDelayPositive(attemptCount: int, s: Settings)
    requires s.Valid()
    ensures 1 <= BaseDelay(attemptCount, s) <= s.max
  {
    Pow2Positive(Exponent(attemptCount));
    ProductGrows(s.base, 1, Pow2(Exponent(attemptCount)));
  }

  lemma TruncateBounds(x: real)
    requires x >= 0.0
    ensures Truncate(x) as real <= x < Truncate(x) as real + 1.0
  {
  }

  /** The jitter window in plain numbers: a delay of b moved by draw, capped at max and raised to one second. */
  lemma ClampedWindow(b: int, spread: real, draw: real, max: int, d: int)
    requires 1 <= b <= max && 0.0 <= spread <= b as real && -spread <= draw <= spread
    requires var capped := MinInt(max, Truncate(b as real + draw)); d == if capped > 1 then capped else 1
    ensures 1 <= d <= max
    ensures b as real - spread - 1.0 < d as real
    ensures d as real <= b as real + spread
  {
    TruncateBounds(b as real + draw);
  }

  /** Every delay lies between one second and the configured maximum, and, up to the truncation to whole seconds,
      within the jitter of the capped exponential. */
  lemma DelayBounds(attemptCount: int, s: Settings, draw: real)
    requires s.Valid() && Drawn(attemptCount, s, draw)
    ensures 1 <= RetryDelay(attemptCount, s, draw) <= s.max
    ensures var b, d := BaseDelay(attemptCount, s) as real, RetryDelay(attemptCount, s, draw) as real;
            b - Jitter(BaseDelay(attemptCount, s), s.jitter) - 1.0 < d <= b
                + Jitter(BaseDelay(attemptCount, s), s.jitter)
  {
    BaseDelayPositive(attemptCount, s);
    JitterBounds(BaseDelay(attemptCount, s), s.jitter);
    ClampedWindow(BaseDelay(attemptCount, s), Jitter(BaseDelay(attemptCount, s), s.jitter), draw, s.max,
                  RetryDelay(attemptCount, s, draw));
  }

  /** The delay follows the draw: it is the capped exponential plus the draw, rounded down, as long as that lies between
      one second and the maximum, and the nearer of the two otherwise. */
  lemma DelayFollowsDraw(attemptCount: int, s: Settings, draw: real, b: int)
    requires s.Valid() && b == (if s.base * Pow2(Exponent(attemptCount)) < s.max
                                then s.base * Pow2(Exponent(attemptCount)) else s.max)
    ensures var d, x := RetryDelay(attemptCount, s, draw) as real, b as real + draw;
            && (1.0 <= x <= s.max as real ==> d <= x < d + 1.0)
            && (x > s.max as real ==> d == s.max as real)
            && (x < 1.0 ==> d == 1.0)
  {
    if b as real + draw >= 0.0 { TruncateBounds(b as real + draw); } else { TruncateNegative(b as real + draw); }
  }

  lemma TruncateNegative(x: real)
    requires x < 0.0
    ensures Truncate(x) <= 0
  {
  }

  lemma JitterBounds(baseDelay: int, ratio: real)
    requires 1 <= baseDelay && 0.0 <= ratio <= 1.0
    ensures 0.0 <= Jitter(baseDelay, ratio) <= baseDelay as real
  {
  }

  /** Without jitter the delay is the capped exponential itself. */
  lemma PlainDelay(attemptCount: int, s: Settings)
    requires s.Valid()
    ensures RetryDelay(attemptCount, s, 0.0) == BaseDelay(attemptCount, s) >= 1
  {
    Pow2Positive(Exponent(attemptCount));
    ProductGrows(s.base, 1, Pow2(Exponent(attemptCount)));
    assert Truncate(BaseDelay(attemptCount, s) as real) == BaseDelay(attemptCount, s);
  }

  /** Without jitter delays never decrease from one attempt to a later one, and once at the maximum they stay there. */
  lemma PlainDelaysGrow(earlier: int, later: int, s: Settings)
    requires s.Valid() && earlier <= later
    ensures RetryDelay(earlier, s, 0.0) <= RetryDelay(later, s, 0.0)
    ensures RetryDelay(earlier, s, 0.0) == s.max ==> RetryDelay(later, s, 0.0) == s.max
  {
    PlainDelay(earlier, s);
    PlainDelay(later, s);
    Pow2Grows(Exponent(earlier), Exponent(later));
    ProductGrows(s.base, Pow2(Exponent(earlier)), Pow2(Exponent(later)));
  }

  /** Attempt i is unsaturated when its exponential is below the maximum. */
  predicate Unsaturated(i: int, s: Settings) { s.base * Pow2(Exponent(i)) < s.max }

  /** How many of the first m attempts are unsaturated. */
  function UnsaturatedCount(m: nat, s: Settings): nat {
    if m == 0 then 0 else UnsaturatedCount(m - 1, s) + if Unsaturated(m, s) then 1 else 0
  }

  /** The delays after failures 1..m, without jitter. */
  function TotalDelay(m: nat, s: Settings): int {
    if m == 0 then 0 else TotalDelay(m - 1, s) + RetryDelay(m, s, 0.0)
  }

  /** Saturation is reached once: the unsaturated attempts are the first k. */
  lemma {:induction false} UnsaturatedFirst(m: nat, s: Settings)
    requires s.Valid()
    ensures UnsaturatedCount(m, s) <= m
    ensures m > 0 && Unsaturated(m, s) ==> UnsaturatedCount(m, s) == m
    decreases m
  {
    if m > 1 {
      UnsaturatedFirst(m - 1, s);
      Pow2Grows(Exponent(m - 1), Exponent(m));
      ProductGrows(s.base, Pow2(Exponent(m - 1)), Pow2(Exponent(m)));
    }
  }

  /** The total delay of the first m failures: base * (2^k - 1) for the k unsaturated ones, the maximum for the rest. */
  lemma {:induction false} TotalDelayFormula(m: nat, s: Settings)
    requires s.Valid()
    ensures var k := UnsaturatedCount(m, s);
            TotalDelay(m, s) == s.base * (Pow2(k) - 1) + (m - k) * s.max
    decreases m
  {
    if m > 0 {
      TotalDelayFormula(m - 1, s);
      UnsaturatedFirst(m, s);
      PlainDelay(m, s);
      if Unsaturated(m, s) {
        if m > 1 {
          Pow2Grows(Exponent(m - 1), Exponent(m));
          ProductGrows(s.base, Pow2(Exponent(m - 1)), Pow2(Exponent(m)));
          UnsaturatedFirst(m - 1, s);
        }
        assert UnsaturatedCount(m, s) == m && UnsaturatedCount(m - 1, s) == m - 1;
        Doubling(s.base, m - 1);
      } else {
        var k := UnsaturatedCount(m, s);
        assert (m - k) * s.max == (m - 1 - k) * s.max + s.max;
      }
    }
  }

  lemma Doubling(base: int, n: nat)
    ensures base * (Pow2(n) - 1) + base * Pow2(n) == base * (Pow2(n + 1) - 1)
  {
    assert Pow2(n + 1) == 2 * Pow2(n);
    assert base * (2 * Pow2(n) - 1) == base * (Pow2(n) - 1) + base * Pow2(n);
  }
}
