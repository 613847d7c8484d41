/** Exact-real counterparts of the numeric primitives the frame transforms of
    main.py rely on: numpy's clip, Python's int() on a float, the uint8 cast
    of a clipped value, and the progress of a time-parameterised effect. */
module Numerics {

  /** numpy's clip(x, lo, hi), that is minimum(maximum(x, lo), hi) */
  function Clip(x: real, lo: real, hi: real): (r: real)
    ensures lo <= hi ==> lo <= r <= hi
    ensures lo <= x <= hi ==> r == x
    ensures x <= lo <= hi ==> r == lo
    ensures lo <= hi <= x ==> r == hi
  {
    var m := if x < lo then lo else x;
    if m > hi then hi else m
  }

  /** Python's int() of a float: truncation toward zero */
  function Trunc(x: real): (n: int)
    ensures 0.0 <= x ==> 0 <= n && n as real <= x < n as real + 1.0
    ensures x < 0.0 ==> n <= 0 && n as real - 1.0 < x <= n as real
  {
    if x >= 0.0 then x.Floor else -((-x).Floor)
  }

  /** astype(np.uint8) of a value that was clipped to [0, 255] first:
      the cast truncates, it does not round */
  function ToU8(x: real): (b: int)
    requires 0.0 <= x <= 255.0
    ensures 0 <= b <= 255
    ensures b as real <= x < b as real + 1.0
  {
    Trunc(x)
  }

  /** The truncation of a whole number is that number */
  lemma TruncOfInt(n: int)
    ensures Trunc(n as real) == n
  {
  }

  /** Truncation is monotone */
  lemma TruncMonotone(x: real, y: real)
    requires x <= y
    ensures Trunc(x) <= Trunc(y)
  {
  }

  /** Scaling a non-negative value by a larger factor gives a larger value */
  lemma ScaleMonotone(a: real, k1: real, k2: real)
    requires 0.0 <= a && k1 <= k2
    ensures a * k1 <= a * k2
  {
    assert a * k2 - a * k1 == a * (k2 - k1);
  }

  /** The product of non-negative values is non-negative */
  lemma ProductNonNegative(a: real, b: real)
    requires 0.0 <= a && 0.0 <= b
    ensures 0.0 <= a * b
  {
  }

  /** Clipping is monotone */
  lemma ClipMonotone(x: real, y: real, lo: real, hi: real)
    requires x <= y && lo <= hi
    ensures Clip(x, lo, hi) <= Clip(y, lo, hi)
  {
  }

  /** floor(min(v * k, 255)): an 8-bit value scaled by k and capped at white */
  function ScaleCap(v: int, k: real): int
  {
    var s := v as real * k;
    if s > 255.0 then 255 else Trunc(s)
  }

  /** Scaling a non-negative value by a non-negative gain, clipping to
      [0, 255] and casting to uint8 is scale-and-cap */
  lemma ClippedScaleIsScaleCap(v: int, k: real)
    requires 0 <= v && 0.0 <= k
    ensures ToU8(Clip(v as real * k, 0.0, 255.0)) == ScaleCap(v, k)
  {
    ScaleMonotone(v as real, 0.0, k);
    if v as real * k > 255.0 {
      assert Clip(v as real * k, 0.0, 255.0) == 255.0;
      TruncOfInt(255);
    } else {
      assert Clip(v as real * k, 0.0, 255.0) == v as real * k;
    }
  }

  /** `progress = t / duration`, shared by the zoom/pan and slider closures;
      it is not clamped, so a time outside [0, duration] gives a progress
      outside [0, 1] */
  function Progress(t: real, duration: real): (p: real)
    requires duration != 0.0
    ensures 0.0 < duration && 0.0 <= t <= duration ==> 0.0 <= p <= 1.0
  {
    t / duration
  }

  /** The progress is 0 at the start and 1 at the end of the effect */
  lemma ProgressEnds(duration: real)
    requires duration != 0.0
    ensures Progress(0.0, duration) == 0.0 && Progress(duration, duration) == 1.0
  {
    assert duration * (1.0 / duration) == 1.0;
  }
}
