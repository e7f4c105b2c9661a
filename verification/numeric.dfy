/** Numeric helpers of the beat analyzer: the two pure functions `clamp` and
    `smooth`, and the outcome of a JavaScript division, whose divisor may be zero. */
module Numeric {

  /** A JavaScript number as produced by dividing two reals: a finite
      quotient, a signed infinity (non-zero divided by zero) or NaN (0 / 0). */
  datatype Extended = Finite(value: real) | PlusInfinity | MinusInfinity | NotANumber

  /** `dividend / divisor` with the JavaScript outcome for a zero divisor
      (the divisor is never -0 in this model, so the sign comes from the dividend). */
  function Divide(dividend: real, divisor: real): (q: Extended)
    ensures q.Finite? <==> divisor != 0.0
    ensures q.Finite? ==> q.value * divisor == dividend
    ensures q == PlusInfinity <==> divisor == 0.0 && dividend > 0.0
    ensures q == MinusInfinity <==> divisor == 0.0 && dividend < 0.0
    ensures q == NotANumber <==> divisor == 0.0 && dividend == 0.0
  {
    if divisor != 0.0 then Finite(dividend / divisor)
    else if dividend > 0.0 then PlusInfinity
    else if dividend < 0.0 then MinusInfinity
    else NotANumber
  }

  function Abs(x: real): (r: real)
    ensures r >= 0.0
    ensures r == x || r == -x
  {
    if x < 0.0 then -x else x
  }

  /** `Math.min(Math.max(value, min), max)`. */
  function Clamp(min: real, max: real, value: real): (r: real)
    ensures r <= max
    ensures min <= max ==> min <= r
    ensures min <= max ==> (r == value <==> min <= value <= max)
    ensures value < min && min <= max ==> r == min
    ensures value > max ==> r == max
  {
    var atLeastMin := if value > min then value else min;
    if atLeastMin < max then atLeastMin else max
  }

  /** One step of an exponential moving average with time constant `smoothness`. */
  function Smooth(oldValue: real, value: real, smoothness: real): (r: real)
    requires smoothness >= 1.0
    ensures oldValue <= value ==> oldValue <= r <= value
    ensures value <= oldValue ==> value <= r <= oldValue
  {
    ConvexStep(oldValue, value, smoothness);
    (oldValue * (smoothness - 1.0) + value) / smoothness
  }

  lemma ConvexStep(oldValue: real, value: real, k: real)
    requires k >= 1.0
    ensures (oldValue * (k - 1.0) + value) / k - value == (oldValue - value) * ((k - 1.0) / k)
    ensures 0.0 <= (k - 1.0) / k < 1.0
  {
    calc {
      (oldValue * (k - 1.0) + value) / k - value;
      (oldValue * (k - 1.0) + value - value * k) / k;
      ((oldValue - value) * (k - 1.0)) / k;
      (oldValue - value) * ((k - 1.0) / k);
    }
  }

  /** The distance of the average to the new value shrinks by the factor
      `(smoothness - 1) / smoothness`, which lies in [0, 1). */
  lemma SmoothGap(oldValue: real, value: real, smoothness: real, factor: real)
    requires smoothness >= 1.0 && factor == (smoothness - 1.0) / smoothness
    ensures Smooth(oldValue, value, smoothness) - value == (oldValue - value) * factor
    ensures 0.0 <= factor < 1.0
  {
    ConvexStep(oldValue, value, smoothness);
  }

  /** A value that is already reached is a fixpoint of smoothing. */
  lemma SmoothFixpoint(c: real, smoothness: real)
    requires smoothness >= 1.0
    ensures Smooth(c, c, smoothness) == c
  {
  }

  function Power(base: real, n: nat): (r: real)
    ensures 0.0 <= base ==> 0.0 <= r
  {
    if n == 0 then 1.0 else base * Power(base, n - 1)
  }

  /** `n` successive smoothing steps towards the same value `c`. */
  function SmoothRun(x: real, c: real, smoothness: real, n: nat): real
    requires smoothness >= 1.0
    decreases n
  {
    if n == 0 then x else SmoothRun(Smooth(x, c, smoothness), c, smoothness, n - 1)
  }

  /** One more factor in a geometric product: `before * factor * rest`, regrouped. */
  lemma GeometricStep(after: real, middle: real, before: real, factor: real, rest: real)
    requires after == middle * rest
    requires middle == before * factor
    ensures after == before * (factor * rest)
  {
  }

  /** The last of `n + 1` steps is one step from where `n` steps left off. */
  lemma {:induction false} SmoothRunLast(x: real, c: real, smoothness: real, n: nat)
    requires smoothness >= 1.0
    ensures SmoothRun(x, c, smoothness, n + 1) == Smooth(SmoothRun(x, c, smoothness, n), c, smoothness)
    decreases n
  {
    if n > 0 {
      SmoothRunLast(Smooth(x, c, smoothness), c, smoothness, n - 1);
    }
  }

  /** Steps towards `c` approach it monotonically: one more step never
      takes the result further from `c`, nor past it. */
  lemma SmoothRunApproaches(x: real, c: real, smoothness: real, n: nat)
    requires smoothness >= 1.0
    ensures Abs(SmoothRun(x, c, smoothness, n + 1) - c) <= Abs(SmoothRun(x, c, smoothness, n) - c)
    ensures SmoothRun(x, c, smoothness, n) <= c ==> SmoothRun(x, c, smoothness, n + 1) <= c
    ensures SmoothRun(x, c, smoothness, n) >= c ==> SmoothRun(x, c, smoothness, n + 1) >= c
  {
    SmoothRunLast(x, c, smoothness, n);
  }
}
