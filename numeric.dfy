/** Number handling of the animation loop: Python's `x % 360` on floats,
    `int(x)` (truncation toward zero) and the table index taken from an
    angle. Floats are modelled as exact reals; IEEE rounding is not. */
module Numeric {

  /** Number of whole turns in `x`: Python's `x // 360` on a float. */
  function Turns(x: real): int {
    (x / 360.0).Floor
  }

  /** `d` is a whole number of full turns. */
  predicate WholeTurns(d: real) {
    (d / 360.0).Floor as real == d / 360.0
  }

  /** Python's `x % 360` for a float `x`: the result lies in [0, 360) and
      leaves an angle already in range alone. */
  function Wrap360(x: real): (r: real)
    ensures 0.0 <= r < 360.0
    ensures 0.0 <= x < 360.0 ==> r == x
  {
    var k := Turns(x);
    assert k as real <= x / 360.0 < k as real + 1.0;
    x - 360.0 * k as real
  }

  /** `x % 360` differs from `x` by a whole number of turns. */
  lemma WrapTurns(x: real)
    ensures WholeTurns(x - Wrap360(x))
  {
    var k := Turns(x);
    assert (x - Wrap360(x)) / 360.0 == k as real;
  }

  /** Python's `int(x)` on a float: truncation toward zero, which is the
      floor for non-negative `x` and the ceiling for negative `x`. */
  function Trunc(x: real): (n: int)
    ensures 0.0 <= x ==> 0 <= n && n as real <= x < n as real + 1.0
    ensures x < 0.0 ==> n <= 0 && n as real - 1.0 < x <= n as real
  {
    if x >= 0.0 then x.Floor else -((-x).Floor)
  }

  /** `int(angle)` for an angle that has been wrapped into [0, 360): a
      valid index into a 360-entry table. */
  function TableIndex(angle: real): (i: nat)
    requires 0.0 <= angle < 360.0
    ensures i < 360
    ensures i as real <= angle < i as real + 1.0
  {
    Trunc(angle)
  }

  /** A wrapped value is unique: any representative of `x` in [0, 360)
      that differs from it by `k` turns is `x % 360`. */
  lemma WrapUnique(x: real, r: real, k: int)
    requires 0.0 <= r < 360.0
    requires x == r + 360.0 * k as real
    ensures Wrap360(x) == r
  {
    assert x / 360.0 == r / 360.0 + k as real;
    assert k as real <= x / 360.0 < k as real + 1.0;
    assert Turns(x) == k;
  }

  /** Wrapping before adding a step gives the same angle as adding first
      and wrapping afterwards, so per-frame wrapping never loses a turn. */
  lemma WrapAdd(x: real, s: real)
    ensures Wrap360(Wrap360(x) + s) == Wrap360(x + s)
  {
    var w := Wrap360(x);
    var q := Wrap360(x + s);
    assert w == x - 360.0 * Turns(x) as real;
    assert q == x + s - 360.0 * Turns(x + s) as real;
    WrapUnique(w + s, q, Turns(x + s) - Turns(x));
  }

  /** The angle after `n` frames of advancing `a` by `step` and wrapping,
      as the animation loop computes it frame by frame; after at least one
      frame, or from an angle already in range, it lies in [0, 360). */
  function Iterate(a: real, step: real, n: nat): (r: real)
    ensures n > 0 || 0.0 <= a < 360.0 ==> 0.0 <= r < 360.0
  {
    if n == 0 then a else Wrap360(Iterate(a, step, n - 1) + step)
  }

  /** One more frame of `step` on top of `k` frames is `n = k + 1` frames. */
  lemma OneMoreStep(a: real, step: real, k: nat, n: nat)
    requires n == k + 1
    ensures Wrap360(a + k as real * step + step) == Wrap360(a + n as real * step)
  {
    var before := a + k as real * step + step;
    var after := a + n as real * step;
    assert before == after by {
      assert n as real == k as real + 1.0;
    }
  }

  /** After `n` frames an angle that started in range equals
      `(a + n * step) % 360`: the wrapped accumulator never drifts. */
  lemma {:induction false} IterateClosed(a: real, step: real, n: nat)
    requires 0.0 <= a < 360.0
    ensures Iterate(a, step, n) == Wrap360(a + n as real * step)
  {
    if n != 0 {
      var k: nat := n - 1;
      var x := a + k as real * step;
      assert Iterate(a, step, n) == Wrap360(x + step) by {
        IterateClosed(a, step, k);
        WrapAdd(x, step);
      }
      OneMoreStep(a, step, k, n);
    }
  }

  /** A body advancing one degree per frame is back at its starting angle
      after 360 frames. */
  lemma FullCycle(a: real)
    requires 0.0 <= a < 360.0
    ensures Iterate(a, 1.0, 360) == a
  {
    IterateClosed(a, 1.0, 360);
    WrapUnique(a + 360.0, a, 1);
  }

  /** A sine or cosine value `v` scaled by a non-negative amplitude `amp`
      (the product is passed as `p`) stays within that amplitude on either
      side of zero. */
  lemma ScaledBound(amp: real, v: real, p: real)
    requires 0.0 <= amp
    requires -1.0 <= v <= 1.0
    requires p == v * amp
    ensures -amp <= p <= amp
  {
    assert amp * (1.0 - v) >= 0.0;
    assert amp * (1.0 + v) >= 0.0;
  }

  /** `int(amp * v)` for a sine or cosine value `v` stays within the
      amplitude `amp` on either side of zero. */
  lemma ScaledTruncBound(amp: real, v: real)
    requires 0.0 <= amp
    requires -1.0 <= v <= 1.0
    ensures -amp <= Trunc(amp * v) as real <= amp
  {
    var x := amp * v;
    ScaledBound(amp, v, x);
    var n := Trunc(x);
    assert -amp <= n as real <= amp;
  }
}
