/** Step 2 of an update: the statistics kept for one bucket and how one
    frame's bucket mean moves them. Every bucket evolves independently. */
module BeatStatistics {
  import opened Numeric

  /** Time constant of the fast ("mildly smoothed") moving average, in frames. */
  const MildSmoothness: real := 4.0
  /** Time constant of the slow moving average and of the variance, in frames. */
  const Smoothness: real := 100.0

  /** Entry `i` of the analyzer's six per-bucket arrays. */
  datatype BucketState = BucketState(
    value: real,           // the bucket mean of the latest frame
    mildlySmoothed: real,  // fast moving average of the means
    smoothed: real,        // slow moving average of the means
    variance: real,        // slow moving average of |mildlySmoothed - smoothed|
    beat: Extended,        // raw beat: delta divided by the previous variance
    clampedBeat: real)     // raw beat clamped to [0, 2] and halved

  /** Every array entry starts at 0. */
  const Initial: BucketState := BucketState(0.0, 0.0, 0.0, 0.0, Finite(0.0), 0.0)

  /** What every reachable bucket state satisfies. */
  predicate Healthy(s: BucketState)
  {
    s.variance >= 0.0 && 0.0 <= s.clampedBeat <= 1.0
  }

  /** `clamp(0, 2, beat) / 2`, with NaN mapped to 0 (see ClampedBeatAsWritten). */
  function ClampedBeat(beat: Extended): (r: real)
    ensures 0.0 <= r <= 1.0
    ensures beat.Finite? && 0.0 <= beat.value <= 2.0 ==> r * 2.0 == beat.value
    ensures beat.Finite? && beat.value <= 0.0 ==> r == 0.0
    ensures beat.Finite? && beat.value >= 2.0 ==> r == 1.0
    ensures beat == PlusInfinity ==> r == 1.0
    ensures beat == MinusInfinity || beat == NotANumber ==> r == 0.0
  {
    match beat
    case Finite(x) => Clamp(0.0, 2.0, x) / 2.0
    case PlusInfinity => 1.0
    case MinusInfinity => 0.0
    case NotANumber => 0.0
  }

  /** `clamp(0, 2, beat) / 2` over JavaScript numbers, as written: `Math.max`
      and `Math.min` return NaN when given NaN, so NaN passes through. */
  function ClampedBeatAsWritten(beat: Extended): (r: Extended)
    ensures r == NotANumber <==> beat == NotANumber
    ensures r.Finite? ==> 0.0 <= r.value <= 1.0
    ensures beat != NotANumber ==> r.Finite?
  {
    match beat
    case Finite(x) => Finite(Clamp(0.0, 2.0, x) / 2.0)
    case PlusInfinity => Finite(1.0)
    case MinusInfinity => Finite(0.0)
    case NotANumber => NotANumber
  }

  /** The correction changes nothing but the NaN case. */
  lemma ClampedBeatAgreesExceptNaN(beat: Extended)
    requires beat != NotANumber
    ensures ClampedBeatAsWritten(beat) == Finite(ClampedBeat(beat))
  {
  }

  /** One frame for one bucket whose new mean is `v`. */
  function Step(s: BucketState, v: real): (r: BucketState)
    ensures r.value == v
    ensures s.variance >= 0.0 ==> r.variance >= 0.0
    ensures 0.0 <= r.clampedBeat <= 1.0
    ensures Healthy(s) ==> Healthy(r)
  {
    var mildlySmoothed := Smooth(s.mildlySmoothed, v, MildSmoothness);
    var smoothed := Smooth(s.smoothed, v, Smoothness);
    var delta := mildlySmoothed - smoothed;
    var beat := Divide(delta, s.variance);
    var variance := Smooth(s.variance, Abs(delta), Smoothness);
    BucketState(v, mildlySmoothed, smoothed, variance, beat, ClampedBeat(beat))
  }

  /** A step reads the old averages and variance, never the old mean. */
  lemma StepIgnoresValue(s: BucketState, t: BucketState, v: real)
    requires s.mildlySmoothed == t.mildlySmoothed && s.smoothed == t.smoothed
    requires s.variance == t.variance
    ensures Step(s, v) == Step(t, v)
  {
  }

  /** The raw beat divides by the variance from BEFORE this frame: while that
      is still 0 the beat is never finite, even though the variance it leaves
      behind is already positive whenever the two averages differ. */
  lemma BeatUsesPreviousVariance(s: BucketState, v: real)
    requires s.variance == 0.0
    ensures var r := Step(s, v);
      && !r.beat.Finite?
      && (r.beat == NotANumber <==> r.mildlySmoothed == r.smoothed)
      && (r.beat == PlusInfinity <==> r.mildlySmoothed > r.smoothed)
      && (r.mildlySmoothed != r.smoothed ==> r.variance > 0.0)
  {
    var r := Step(s, v);
    var delta := r.mildlySmoothed - r.smoothed;
    assert r.variance == (0.0 * (Smoothness - 1.0) + Abs(delta)) / Smoothness;
  }

  /** Several frames, oldest first. */
  function Frames(s: BucketState, means: seq<real>): (r: BucketState)
    ensures |means| == 0 ==> r == s
    ensures |means| > 0 ==> r.value == means[|means| - 1]
    decreases |means|
  {
    if |means| == 0 then s else Frames(Step(s, means[0]), means[1..])
  }

  /** Healthy states stay healthy however many frames follow. */
  lemma {:induction false} FramesStayHealthy(s: BucketState, means: seq<real>)
    requires Healthy(s)
    ensures Healthy(Frames(s, means))
    decreases |means|
  {
    if |means| > 0 {
      FramesStayHealthy(Step(s, means[0]), means[1..]);
    }
  }

  /** Both moving averages are bounded by the means they have absorbed. */
  predicate AveragesWithin(s: BucketState, lo: real, hi: real)
  {
    lo <= s.mildlySmoothed <= hi && lo <= s.smoothed <= hi
  }

  /** Once both averages are within [lo, hi], they stay there as long as the
      bucket means are within [lo, hi]. */
  lemma {:induction false} FramesStayWithin(s: BucketState, means: seq<real>, lo: real, hi: real)
    requires AveragesWithin(s, lo, hi)
    requires forall k :: 0 <= k < |means| ==> lo <= means[k] <= hi
    ensures AveragesWithin(Frames(s, means), lo, hi)
    decreases |means|
  {
    if |means| > 0 {
      var v := means[0];
      assert lo <= v <= hi;
      var t := Step(s, v);
      assert AveragesWithin(t, lo, hi);
      var rest := means[1..];
      assert forall k :: 0 <= k < |rest| ==> lo <= rest[k] <= hi by {
        forall k | 0 <= k < |rest| ensures lo <= rest[k] <= hi {
          assert rest[k] == means[k + 1];
        }
      }
      FramesStayWithin(t, rest, lo, hi);
    }
  }

  function Repeat(c: real, n: nat): (r: seq<real>)
    ensures |r| == n && forall k :: 0 <= k < n ==> r[k] == c
  {
    seq(n, _ => c)
  }

  /** Under a constant bucket mean `c` each average evolves on its own: the
      fast one by `n` smoothing steps of window 4, the slow one by `n` steps
      of window 100 (which FastRunGap, SlowRunGap and SmoothRunApproaches
      describe). */
  lemma {:induction false} ConstantInputRuns(s: BucketState, c: real, n: nat)
    ensures Frames(s, Repeat(c, n)).mildlySmoothed == SmoothRun(s.mildlySmoothed, c, MildSmoothness, n)
    ensures Frames(s, Repeat(c, n)).smoothed == SmoothRun(s.smoothed, c, Smoothness, n)
    decreases n
  {
    if n > 0 {
      assert Repeat(c, n)[1..] == Repeat(c, n - 1);
      ConstantInputRuns(Step(s, c), c, n - 1);
    }
  }

  /** `n` fast smoothing steps towards `c` scale the distance to `c` by (3/4)^n. */
  lemma {:induction false} FastRunGap(x: real, c: real, n: nat)
    ensures SmoothRun(x, c, MildSmoothness, n) - c == (x - c) * Power(0.75, n)
    decreases n
  {
    if n > 0 {
      var y := Smooth(x, c, MildSmoothness);
      FastRunGap(y, c, n - 1);
      GeometricStep(SmoothRun(x, c, MildSmoothness, n) - c, y - c, x - c, 0.75, Power(0.75, n - 1));
    }
  }

  /** `n` slow smoothing steps towards `c` scale the distance to `c` by (99/100)^n. */
  lemma {:induction false} SlowRunGap(x: real, c: real, n: nat)
    ensures SmoothRun(x, c, Smoothness, n) - c == (x - c) * Power(0.99, n)
    decreases n
  {
    if n > 0 {
      var y := Smooth(x, c, Smoothness);
      SlowRunGap(y, c, n - 1);
      GeometricStep(SmoothRun(x, c, Smoothness, n) - c, y - c, x - c, 0.99, Power(0.99, n - 1));
    }
  }

  /** Under a constant bucket mean `c` the distance of the fast average to
      `c` shrinks geometrically, by 3/4 per frame. */
  lemma ConstantInputFastGap(s: BucketState, c: real, n: nat)
    ensures Frames(s, Repeat(c, n)).mildlySmoothed - c == (s.mildlySmoothed - c) * Power(0.75, n)
  {
    ConstantInputRuns(s, c, n);
    FastRunGap(s.mildlySmoothed, c, n);
  }

  /** Under a constant bucket mean `c` the distance of the slow average to
      `c` shrinks geometrically, by 99/100 per frame. */
  lemma ConstantInputSlowGap(s: BucketState, c: real, n: nat)
    ensures Frames(s, Repeat(c, n)).smoothed - c == (s.smoothed - c) * Power(0.99, n)
  {
    ConstantInputRuns(s, c, n);
    SlowRunGap(s.smoothed, c, n);
  }

  /** Under a constant bucket mean both averages approach it monotonically:
      one more frame never takes either of them further away. */
  lemma ConstantInputApproaches(s: BucketState, c: real, n: nat)
    ensures Abs(Frames(s, Repeat(c, n + 1)).mildlySmoothed - c)
         <= Abs(Frames(s, Repeat(c, n)).mildlySmoothed - c)
    ensures Abs(Frames(s, Repeat(c, n + 1)).smoothed - c)
         <= Abs(Frames(s, Repeat(c, n)).smoothed - c)
  {
    ConstantInputRuns(s, c, n);
    ConstantInputRuns(s, c, n + 1);
    SmoothRunApproaches(s.mildlySmoothed, c, MildSmoothness, n);
    SmoothRunApproaches(s.smoothed, c, Smoothness, n);
  }

  /** Once both averages have reached a constant mean `c`, they stay at `c`
      and the variance is smoothed towards 0 in every frame. */
  lemma {:induction false} SettledRuns(s: BucketState, c: real, n: nat)
    requires s.mildlySmoothed == c && s.smoothed == c
    ensures Frames(s, Repeat(c, n)).mildlySmoothed == c
    ensures Frames(s, Repeat(c, n)).smoothed == c
    ensures Frames(s, Repeat(c, n)).variance == SmoothRun(s.variance, 0.0, Smoothness, n)
    decreases n
  {
    if n > 0 {
      SmoothFixpoint(c, MildSmoothness);
      SmoothFixpoint(c, Smoothness);
      assert Repeat(c, n)[1..] == Repeat(c, n - 1);
      SettledRuns(Step(s, c), c, n - 1);
    }
  }

  /** Once both averages have reached a constant mean `c`, they stay at `c`
      and the variance decays by 99/100 per frame. */
  lemma SettledVarianceDecays(s: BucketState, c: real, n: nat)
    requires s.mildlySmoothed == c && s.smoothed == c
    ensures Frames(s, Repeat(c, n)).mildlySmoothed == c
    ensures Frames(s, Repeat(c, n)).smoothed == c
    ensures Frames(s, Repeat(c, n)).variance == s.variance * Power(0.99, n)
  {
    SettledRuns(s, c, n);
    SlowRunGap(s.variance, 0.0, n);
  }

  /** How far the two averages start from a constant mean `c`, together. */
  function Spread(s: BucketState, c: real): (r: real)
    ensures r >= 0.0
  {
    Abs(s.mildlySmoothed - c) + Abs(s.smoothed - c)
  }

  /** The variance after `n` frames of constant mean `c`, starting from the
      variance and the two averages given. */
  function VarianceRun(variance: real, mild: real, slow: real, c: real, n: nat): real
    decreases n
  {
    if n == 0 then variance
    else
      var mild', slow' := Smooth(mild, c, MildSmoothness), Smooth(slow, c, Smoothness);
      VarianceRun(Smooth(variance, Abs(mild' - slow'), Smoothness), mild', slow', c, n - 1)
  }

  /** Under a constant mean the variance evolves as VarianceRun. */
  lemma {:induction false} ConstantInputVarianceRun(s: BucketState, c: real, n: nat)
    ensures Frames(s, Repeat(c, n)).variance
         == VarianceRun(s.variance, s.mildlySmoothed, s.smoothed, c, n)
    decreases n
  {
    if n > 0 {
      assert Repeat(c, n)[1..] == Repeat(c, n - 1);
      ConstantInputVarianceRun(Step(s, c), c, n - 1);
    }
  }

  /** One frame of constant mean shrinks the averages' joint distance to it
      at least by 99/100, and the gap between them is at most that distance. */
  lemma SpreadStep(mild: real, slow: real, c: real)
    ensures var mild', slow' := Smooth(mild, c, MildSmoothness), Smooth(slow, c, Smoothness);
      && Abs(mild' - c) + Abs(slow' - c) <= 0.99 * (Abs(mild - c) + Abs(slow - c))
      && Abs(mild' - slow') <= Abs(mild' - c) + Abs(slow' - c)
  {
    var mild', slow' := Smooth(mild, c, MildSmoothness), Smooth(slow, c, Smoothness);
    assert mild' - c == (mild - c) * 0.75;
    assert slow' - c == (slow - c) * 0.99;
  }

  /** An upper envelope of the variance: per frame the variance keeps 99/100
      and absorbs at most 1/100 of the spread, which itself keeps at most 99/100. */
  function VarianceEnvelope(variance: real, spread: real, n: nat): real
    decreases n
  {
    if n == 0 then variance
    else VarianceEnvelope(0.99 * variance + 0.99 * spread / 100.0, 0.99 * spread, n - 1)
  }

  /** The envelope grows with the variance and the spread it starts from. */
  lemma {:induction false} EnvelopeMonotone(v: real, w: real, s: real, t: real, n: nat)
    requires v <= w && s <= t
    ensures VarianceEnvelope(v, s, n) <= VarianceEnvelope(w, t, n)
    decreases n
  {
    if n > 0 {
      EnvelopeMonotone(0.99 * v + 0.99 * s / 100.0, 0.99 * w + 0.99 * t / 100.0,
                       0.99 * s, 0.99 * t, n - 1);
    }
  }

  /** The envelope in closed form: `(99/100)^n * (variance + n * spread / 100)`. */
  lemma {:induction false} EnvelopeClosedForm(variance: real, spread: real, n: nat)
    ensures VarianceEnvelope(variance, spread, n)
         == Power(0.99, n) * (variance + n as real * spread / 100.0)
    decreases n
  {
    if n > 0 {
      var m: nat := n - 1;
      var v', s' := 0.99 * variance + 0.99 * spread / 100.0, 0.99 * spread;
      EnvelopeClosedForm(v', s', m);
      assert v' + m as real * s' / 100.0 == 0.99 * (variance + n as real * spread / 100.0);
      GeometricStep(VarianceEnvelope(variance, spread, n), Power(0.99, m) * 0.99,
                    Power(0.99, m), 0.99, variance + n as real * spread / 100.0);
      assert Power(0.99, n) == 0.99 * Power(0.99, m);
    } else {
      assert n as real * spread == 0.0;
    }
  }

  /** The variance never exceeds its envelope, taken from the variance and
      spread it starts from. */
  lemma {:induction false} VarianceRunBound(variance: real, mild: real, slow: real, c: real, n: nat)
    ensures VarianceRun(variance, mild, slow, c, n)
         <= VarianceEnvelope(variance, Abs(mild - c) + Abs(slow - c), n)
    decreases n
  {
    if n > 0 {
      var mild', slow' := Smooth(mild, c, MildSmoothness), Smooth(slow, c, Smoothness);
      var variance' := Smooth(variance, Abs(mild' - slow'), Smoothness);
      var spread, spread' := Abs(mild - c) + Abs(slow - c), Abs(mild' - c) + Abs(slow' - c);
      SpreadStep(mild, slow, c);
      assert variance' <= 0.99 * variance + 0.99 * spread / 100.0;
      VarianceRunBound(variance', mild', slow', c, n - 1);
      EnvelopeMonotone(variance', 0.99 * variance + 0.99 * spread / 100.0, spread', 0.99 * spread, n - 1);
    }
  }

  /** From ANY state, under a constant mean `c` the variance after `n` frames
      is at most `(99/100)^n * (variance + n * Spread / 100)`: the old
      variance decays by 99/100 per frame and the gaps it absorbs shrink at
      least as fast, so the variance tends to 0 (with FramesStayHealthy, it
      stays non-negative on the way). */
  lemma ConstantInputVarianceBound(s: BucketState, c: real, n: nat)
    ensures Frames(s, Repeat(c, n)).variance
         <= Power(0.99, n) * (s.variance + n as real * Spread(s, c) / 100.0)
  {
    ConstantInputVarianceRun(s, c, n);
    VarianceRunBound(s.variance, s.mildlySmoothed, s.smoothed, c, n);
    EnvelopeClosedForm(s.variance, Spread(s, c), n);
  }

  /** A silent snapshot on the first frame (all state zero, mean zero) gives
      0 / 0: the source stores NaN as the raw beat AND as the clamped beat,
      which is outside [0, 1]; the corrected clamped beat is 0. */
  lemma SilentFirstFrame()
    ensures Step(Initial, 0.0).beat == NotANumber
    ensures ClampedBeatAsWritten(Step(Initial, 0.0).beat) == NotANumber
    ensures Step(Initial, 0.0).clampedBeat == 0.0
  {
    BeatUsesPreviousVariance(Initial, 0.0);
  }

  /** A first frame with a positive mean: the fast average moves by v / 4,
      the slow one by v / 100, and the zero variance makes the beat +Infinity,
      which clamps to the top of the range. */
  lemma LoudFirstFrame(v: real)
    requires v > 0.0
    ensures Step(Initial, v).mildlySmoothed == v / 4.0
    ensures Step(Initial, v).smoothed == v / 100.0
    ensures Step(Initial, v).beat == PlusInfinity
    ensures Step(Initial, v).clampedBeat == 1.0
  {
    BeatUsesPreviousVariance(Initial, v);
  }
}
