/** kgoconsumer/backoff.go: the upper bound of the random delay between two attempts. */
module Backoff {
  // The source computes with float64; the model uses reals.
  function Pow(factor: real, attempt: nat): real {
    if attempt == 0 then 1.0 else factor * Pow(factor, attempt - 1)
  }

  /** Conversion to an integer duration truncates toward zero. */
  function Truncate(r: real): int {
    if r >= 0.0 then r.Floor else -((-r).Floor)
  }

  /** The argument of rand.N for a computed power; rand.N panics unless it is positive. */
  function BoundFor(base: int, max: int, scale: real): int
    requires 0 < base && 0 < max
  {
    if scale > (max / base) as real then max else base * Truncate(scale)
  }

  function DelayBound(base: int, max: int, factor: real, attempt: nat): int
    requires 0 < base && 0 < max
  {
    BoundFor(base, max, Pow(factor, attempt))
  }

  class BackoffTimer {
    var attempt: nat
    const base: int
    const max: int
    const factor: real

    constructor (base: int, max: int, factor: real)
      ensures this.base == base && this.max == max && this.factor == factor && attempt == 0
    {
      this.base, this.max, this.factor := base, max, factor;
      attempt := 0;
    }

    method Clear()
      modifies this
      ensures attempt == 0
    {
      attempt := 0;
    }

    /** One wait: the attempt is counted before the timer or the context decides how it ends. */
    method Wait() returns (bound: int)
      requires 0 < base && 0 < max
      modifies this
      ensures bound == DelayBound(base, max, factor, old(attempt))
      ensures attempt == old(attempt) + 1
    {
      bound := DelayBound(base, max, factor, attempt);
      attempt := attempt + 1;
    }
  }

  lemma MulMonotone(a: int, b: int, c: int)
    requires 0 <= c && a <= b
    ensures c * a <= c * b
  {
  }

  lemma {:induction false} PowAtLeastOne(factor: real, attempt: nat)
    requires factor >= 1.0
    ensures Pow(factor, attempt) >= 1.0
  {
    if attempt == 0 {
    } else {
      PowAtLeastOne(factor, attempt - 1);
      var p := Pow(factor, attempt - 1);
      assert factor * p >= 1.0 * p;
    }
  }

  lemma PowGrows(factor: real, attempt: nat)
    requires factor >= 1.0
    ensures Pow(factor, attempt) <= Pow(factor, attempt + 1)
  {
    PowAtLeastOne(factor, attempt);
    var p := Pow(factor, attempt);
    assert factor * p >= 1.0 * p;
  }

  lemma {:induction false} PowPositive(factor: real, attempt: nat)
    requires factor > 0.0
    ensures Pow(factor, attempt) > 0.0
  {
    if attempt == 0 {
    } else {
      PowPositive(factor, attempt - 1);
      var p := Pow(factor, attempt - 1);
      assert factor * p > 0.0;
    }
  }

  /** With a factor of at least one, the delay is drawn from a non-empty range below the maximum. */
  lemma DelayWithinMax(base: int, max: int, factor: real, attempt: nat)
    requires 0 < base && 0 < max && factor >= 1.0
    ensures 0 < DelayBound(base, max, factor, attempt) <= max
  {
    PowAtLeastOne(factor, attempt);
    var scale := Pow(factor, attempt);
    if scale <= (max / base) as real {
      assert 1 <= Truncate(scale) <= max / base;
      MulMonotone(1, Truncate(scale), base);
      MulMonotone(Truncate(scale), max / base, base);
    }
  }

  /** Delays never shrink from one attempt to the next. */
  lemma DelayNeverShrinks(base: int, max: int, factor: real, attempt: nat)
    requires 0 < base && 0 < max && factor >= 1.0
    ensures DelayBound(base, max, factor, attempt) <= DelayBound(base, max, factor, attempt + 1)
  {
    PowAtLeastOne(factor, attempt);
    PowGrows(factor, attempt);
    DelayWithinMax(base, max, factor, attempt);
    var scale, next := Pow(factor, attempt), Pow(factor, attempt + 1);
    if next <= (max / base) as real {
      MulMonotone(Truncate(scale), Truncate(next), base);
    }
  }

  predicate WithinOneBase(bound: real, base: real, scale: real) {
    bound <= base * scale < bound + base
  }

  /** Below the maximum the delay follows the power, less than one base behind it; above, it is the
      maximum. */
  lemma DelayFollowsPower(base: int, max: int, factor: real, attempt: nat)
    requires 0 < base && 0 < max && factor >= 1.0
    ensures var bound, scale := DelayBound(base, max, factor, attempt), Pow(factor, attempt);
            if scale <= (max / base) as real then WithinOneBase(bound as real, base as real, scale) else bound == max
  {
    PowAtLeastOne(factor, attempt);
    var scale := Pow(factor, attempt);
    if scale <= (max / base) as real {
      var n := Truncate(scale);
      Split(base as real, n as real, scale);
      AsReals(base, n);
    }
  }

  lemma AsReals(a: int, b: int)
    ensures (a * b) as real == a as real * b as real
  {
  }

  lemma Split(base: real, n: real, scale: real)
    requires 0.0 < base && n <= scale < n + 1.0
    ensures WithinOneBase(base * n, base, scale)
  {
    assert base * (scale - n) >= 0.0;
    assert base * (n + 1.0 - scale) > 0.0;
  }

  ghost predicate NeverPanics(base: int, max: int, factor: real)
    requires 0 < base && 0 < max
  {
    forall attempt: nat :: DelayBound(base, max, factor, attempt) > 0
  }

  lemma ShrinkingFactorPanics(base: int, max: int, factor: real)
    requires 0 < base <= max && factor < 1.0
    ensures DelayBound(base, max, factor, 1) <= 0
  {
    assert Pow(factor, 1) == factor * Pow(factor, 0) == factor;
    assert max / base >= 1;
    MulMonotone(Truncate(factor), 0, base);
  }

  lemma NonPositiveFactorPanics(base: int, max: int, factor: real)
    requires 0 < base && 0 < max && factor <= 0.0
    ensures DelayBound(base, max, factor, 1) <= 0
  {
    assert Pow(factor, 1) == factor * Pow(factor, 0) == factor;
    MulMonotone(Truncate(factor), 0, base);
  }

  /** With real powers, which never reach zero: every delay can be drawn exactly when the factor is at
      least one, or positive while the maximum is below the base. */
  lemma NeverPanicsIff(base: int, max: int, factor: real)
    requires 0 < base && 0 < max
    ensures NeverPanics(base, max, factor) <==> factor >= 1.0 || (factor > 0.0 && max < base)
  {
    if factor >= 1.0 || (factor > 0.0 && max < base) {
      forall attempt: nat
        ensures DelayBound(base, max, factor, attempt) > 0
      {
        if factor >= 1.0 {
          DelayWithinMax(base, max, factor, attempt);
        } else {
          PowPositive(factor, attempt);
          assert max / base == 0;
        }
      }
    } else if factor <= 0.0 {
      NonPositiveFactorPanics(base, max, factor);
    } else {
      ShrinkingFactorPanics(base, max, factor);
    }
  }

  // ---- Underflow ----

  /** A floating-point power below the least positive number is zero. */
  function Flushed(scale: real, least: real): real {
    if -least < scale < least then 0.0 else scale
  }

  ghost predicate NeverPanicsFlushed(base: int, max: int, factor: real, least: real)
    requires 0 < base && 0 < max
  {
    forall attempt: nat :: BoundFor(base, max, Flushed(Pow(factor, attempt), least)) > 0
  }

  /** Bernoulli's inequality for the reciprocal: a power falls at least as fast as 1/(1 + n*x). */
  lemma {:induction false} PowFalls(factor: real, x: real, attempt: nat)
    requires 0.0 < factor && 0.0 < x && factor * (1.0 + x) <= 1.0
    ensures Pow(factor, attempt) * (1.0 + attempt as real * x) <= 1.0
  {
    if attempt == 0 {
    } else {
      var n := (attempt - 1) as real;
      var p := Pow(factor, attempt - 1);
      PowFalls(factor, x, attempt - 1);
      PowPositive(factor, attempt - 1);
      FallStep(factor, x, n, p);
    }
  }

  lemma Scaled(a: real, b: real, c: real)
    requires a <= b && 0.0 <= c
    ensures a * c <= b * c
  {
    assert (b - a) * c >= 0.0;
  }

  lemma Cancelled(a: real, b: real, c: real)
    requires a * c < b * c && 0.0 < c
    ensures a < b
  {
    assert (a - b) * c < 0.0;
  }

  lemma FallStep(factor: real, x: real, n: real, p: real)
    requires 0.0 < factor && 0.0 < x && factor * (1.0 + x) <= 1.0 && 0.0 < p && 0.0 <= n
    requires p * (1.0 + n * x) <= 1.0
    ensures factor * p * (1.0 + (n + 1.0) * x) <= 1.0
  {
    var a, b := factor * (1.0 + x), p * (1.0 + n * x);
    assert (1.0 + x) * (1.0 + n * x) == 1.0 + (n + 1.0) * x + n * (x * x);
    assert n * (x * x) >= 0.0;
    assert factor * p > 0.0;
    assert factor * p * (1.0 + (n + 1.0) * x) <= factor * p * ((1.0 + x) * (1.0 + n * x));
    assert factor * p * ((1.0 + x) * (1.0 + n * x)) == a * b;
    assert b > 0.0;
    Scaled(a, 1.0, b);
  }

  /** The powers of a factor below one fall below any positive number. */
  lemma PowVanishes(factor: real, least: real) returns (attempt: nat)
    requires 0.0 < factor < 1.0 && 0.0 < least
    ensures 0.0 < Pow(factor, attempt) < least
  {
    var x := 1.0 / factor - 1.0;
    assert factor * (1.0 + x) == 1.0;
    attempt := (1.0 / (least * x)).Floor + 1;
    assert attempt as real > 1.0 / (least * x);
    PowFalls(factor, x, attempt);
    PowPositive(factor, attempt);
    VanishStep(Pow(factor, attempt), x, attempt as real, least);
  }

  lemma VanishStep(p: real, x: real, n: real, least: real)
    requires 0.0 < p && 0.0 < x && 0.0 < least && n > 1.0 / (least * x)
    requires p * (1.0 + n * x) <= 1.0
    ensures p < least
  {
    assert least * x > 0.0;
    var d := least * x;
    assert (1.0 / d) * d == 1.0;
    assert (n - 1.0 / d) * d > 0.0;
    assert n * x > 0.0;
    assert p * (n * x) < least * (n * x);
    Cancelled(p, least, n * x);
  }

  /** Once powers underflow to zero, as they do in the source, every delay can be drawn exactly when
      the factor is at least one, whatever the base and the maximum. */
  lemma NeverPanicsFlushedIff(base: int, max: int, factor: real, least: real)
    requires 0 < base && 0 < max && 0.0 < least <= 1.0
    ensures NeverPanicsFlushed(base, max, factor, least) <==> factor >= 1.0
  {
    if factor >= 1.0 {
      forall attempt: nat
        ensures BoundFor(base, max, Flushed(Pow(factor, attempt), least)) > 0
      {
        PowAtLeastOne(factor, attempt);
        DelayWithinMax(base, max, factor, attempt);
      }
    } else if factor <= 0.0 {
      NonPositiveFactorPanics(base, max, factor);
      assert BoundFor(base, max, Flushed(Pow(factor, 1), least)) <= 0;
    } else {
      var attempt := PowVanishes(factor, least);
      assert BoundFor(base, max, Flushed(Pow(factor, attempt), least)) == 0;
    }
  }
}
