# BeatAnalyzer, modelled in Dafny

This project models the `BeatAnalyzer` class of the music page
(`src/routes/musik/beat-analyzer.js`). The analyzer turns a stream of
frequency snapshots into a per-bucket "beat" signal in `[0, 1]`. It keeps six
arrays with one entry per bucket:

- `values`
- `mildlySmoothedValues`
- `smoothedValues`
- `smoothedVariances`
- `beats`
- `clampedBeats`

Each call to `updateWithFrequencies` works in two passes:

1. It splits the snapshot into `bucketsNumber` equal, contiguous buckets of
   `floor(N / bucketsNumber)` samples and stores each bucket's mean.
2. For each bucket it:
   - moves a fast (window 4) and a slow (window 100) moving average towards
     that mean;
   - divides their difference by the variance from before this frame, which
     gives the raw beat;
   - folds the absolute difference into the variance;
   - clamps the raw beat to `[0, 2]` and halves it.

The project has four modules:

- `Numeric` (`numeric.dfy`):
  - `clamp` and `smooth` as functions;
  - a JavaScript division whose divisor may be zero, as the datatype
    `Extended`: a finite quotient, +Infinity, -Infinity or NaN;
  - repeated smoothing, `SmoothRun`.
- `Bucketing` (`bucketing.dfy`): bucket length, bucket slices, sums and means,
  plus the worked examples in `BucketingExamples`.
- `BeatStatistics` (`beat_statistics.dfy`):
  - one bucket's six entries as a `BucketState` value;
  - one frame of the second pass as the function `Step`;
  - runs of frames as `Frames`.
- `BeatAnalysis` (`beat_analyzer.dfy`): the class `BeatAnalyzer`, with:
  - its six arrays;
  - a constructor that zero-fills them;
  - `UpdateWithFrequencies`, which overwrites the entries in place in two
    loops (`BucketMeans` and `UpdateStatistics`).

Each loop is proved against `Mean` and `Step`. The properties of the analyzer
are proved as lemmas about those functions:

- ranges;
- non-negativity;
- convergence under a constant input;
- the behaviour on the first frame.

Numbers are mathematical reals. The raw beat is an `Extended`, so the
`Infinity` and `NaN` that the source stores in `beats` are kept as they are.

## Model

| member | source | states |
|---|---|---|
| Numeric.Divide | src/routes/musik/beat-analyzer.js:28 | The quotient is finite exactly when the divisor is non-zero, and then it times the divisor gives the dividend. A zero divisor gives +Infinity for a positive dividend, -Infinity for a negative one and NaN for 0 / 0. |
| Numeric.Abs | src/routes/musik/beat-analyzer.js:29 | `Math.abs`: the result is non-negative and is either the argument or its negation. |
| Numeric.Clamp | src/routes/musik/beat-analyzer.js:36-38 | The result never exceeds `max`. When `min <= max` it is at least `min`, and it equals `value` exactly when `value` lies in `[min, max]`. Below `min` it is `min`; above `max` it is `max`. |
| Numeric.Smooth | src/routes/musik/beat-analyzer.js:40-42 | For `smoothness >= 1` the result lies between the old value and the new value, in either order (a convex combination). |
| Numeric.SmoothGap | src/routes/musik/beat-analyzer.js:40-42 | One step shrinks the distance to the new value by the factor `(smoothness - 1) / smoothness`, which lies in `[0, 1)`. |
| Numeric.SmoothFixpoint | src/routes/musik/beat-analyzer.js:40-42 | Smoothing a value towards itself leaves it unchanged. |
| Numeric.SmoothRunLast | src/routes/musik/beat-analyzer.js:24-26 | `n + 1` smoothing steps equal one step after the first `n`. |
| Numeric.SmoothRunApproaches | src/routes/musik/beat-analyzer.js:24-26 | Repeated smoothing towards a fixed value never moves further from it, and never crosses it. |
| Bucketing.BucketLength | src/routes/musik/beat-analyzer.js:13 | `floor(N / bucketsNumber)` characterised without division: `r * bucketsNumber <= N < (r + 1) * bucketsNumber`, so fewer than `bucketsNumber` trailing samples are dropped. With no buckets the length is 0. |
| Bucketing.BucketInBounds | src/routes/musik/beat-analyzer.js:13-19 | Bucket `i` ends at or before `bucketsNumber * bucketLength`, which is at most `N`, so every read `i * bucketLength + j` with `j < bucketLength` is in bounds. |
| Bucketing.BucketSamples | src/routes/musik/beat-analyzer.js:13-19 | The slice read for bucket `i` holds exactly `floor(N / bucketsNumber)` samples. |
| Bucketing.SumConcat | src/routes/musik/beat-analyzer.js:16-19 | The sum accumulated left to right, as the inner loop does, does not depend on where the run is cut: the sum of two runs put together is the sum of their sums. |
| Bucketing.Mean | src/routes/musik/beat-analyzer.js:20 | The mean of a non-empty run times its length gives back its sum, so the division of line 20 loses nothing. |
| Bucketing.SumWithin | src/routes/musik/beat-analyzer.js:16-19 | The sum of samples in `[lo, hi]` lies between `count * lo` and `count * hi`. |
| Bucketing.MeanWithin | src/routes/musik/beat-analyzer.js:20 | The mean of a non-empty run of samples in `[lo, hi]` lies in `[lo, hi]`. |
| Bucketing.BucketMeanWithin | src/routes/musik/beat-analyzer.js:13-21 | With at least one sample per bucket, each bucket is non-empty. If every sample lies in `[lo, hi]` (for example `[0, 255]` for byte spectra), so does each bucket mean. |
| Bucketing.TrailingSamplesIgnored | src/routes/musik/beat-analyzer.js:13-19 | Two snapshots of the same length that agree on the first `bucketsNumber * bucketLength` samples have the same buckets: trailing samples are never read. |
| BucketingExamples.FourBucketsOfFour | src/routes/musik/beat-analyzer.js:13-21 | Sixteen samples 0, 10, …, 150 in four buckets give buckets of four and means 15, 55, 95 and 135. |
| BucketingExamples.TenSamplesThreeBuckets | src/routes/musik/beat-analyzer.js:13-19 | Ten samples in three buckets give buckets of three, `[0, 3)`, `[3, 6)` and `[6, 9)`, and the tenth sample is in none of them. |
| BeatStatistics.ClampedBeat | src/routes/musik/beat-analyzer.js:31 | The clamped beat always lies in `[0, 1]`. It is half the raw beat for a raw beat in `[0, 2]`, 0 at or below 0, and 1 at or above 2. +Infinity gives 1; -Infinity and NaN give 0 (corrected NaN case, see Findings). |
| BeatStatistics.ClampedBeatAsWritten | src/routes/musik/beat-analyzer.js:31 | As written over JavaScript numbers, the result is NaN exactly when the raw beat is NaN and finite otherwise (never infinite), and every finite result lies in `[0, 1]`. |
| BeatStatistics.ClampedBeatAgreesExceptNaN | src/routes/musik/beat-analyzer.js:31 | For every raw beat other than NaN, the corrected clamped beat equals the value the source computes. |
| BeatStatistics.Step | src/routes/musik/beat-analyzer.js:23-32 | One frame stores the new mean and leaves the clamped beat in `[0, 1]`. It keeps a non-negative variance non-negative, so it preserves `Healthy`. |
| BeatStatistics.StepIgnoresValue | src/routes/musik/beat-analyzer.js:23-32 | The new state of a bucket depends on its old averages and variance, never on the old mean or beats, so the first pass may overwrite `values` first. |
| BeatStatistics.BeatUsesPreviousVariance | src/routes/musik/beat-analyzer.js:27-30 | The raw beat divides by the variance from before this frame. While that is 0 the beat is never finite: NaN exactly when the averages agree, +Infinity exactly when the fast one is above. Yet the variance left behind is already positive whenever the averages differ. |
| BeatStatistics.Frames | src/routes/musik/beat-analyzer.js:12-33 | Successive frames of one bucket, oldest first. No frames leave the state unchanged; otherwise the stored mean is the one from the last frame. |
| BeatStatistics.FramesStayHealthy | src/routes/musik/beat-analyzer.js:29-31 | Over any number of frames, the variance stays non-negative and the clamped beat stays in `[0, 1]`. |
| BeatStatistics.FramesStayWithin | src/routes/musik/beat-analyzer.js:24-26 | Once both averages are in `[lo, hi]`, they stay there for any sequence of bucket means in `[lo, hi]`. |
| BeatStatistics.ConstantInputRuns | src/routes/musik/beat-analyzer.js:24-26 | Under a constant mean, the fast average evolves as repeated window-4 smoothing and the slow one as repeated window-100 smoothing, each on its own. |
| BeatStatistics.FastRunGap | src/routes/musik/beat-analyzer.js:24-25 | `n` window-4 steps towards `c` scale the distance to `c` by exactly `(3/4)^n`. |
| BeatStatistics.SlowRunGap | src/routes/musik/beat-analyzer.js:26 | `n` window-100 steps towards `c` scale the distance to `c` by exactly `(99/100)^n`. |
| BeatStatistics.ConstantInputFastGap | src/routes/musik/beat-analyzer.js:24-25 | Under a constant mean `c`, after `n` frames the fast average's distance to `c` is the initial distance times `(3/4)^n`. |
| BeatStatistics.ConstantInputSlowGap | src/routes/musik/beat-analyzer.js:26 | Under a constant mean `c`, after `n` frames the slow average's distance to `c` is the initial distance times `(99/100)^n`. |
| BeatStatistics.ConstantInputApproaches | src/routes/musik/beat-analyzer.js:24-26 | Under a constant mean, one more frame never takes either average further from it. |
| BeatStatistics.SettledRuns | src/routes/musik/beat-analyzer.js:24-29 | Once both averages equal a constant mean, they stay equal to it, and the variance evolves as repeated window-100 smoothing towards 0. |
| BeatStatistics.SettledVarianceDecays | src/routes/musik/beat-analyzer.js:29 | Once both averages equal a constant mean, the variance after `n` frames is the initial variance times `(99/100)^n`. |
| BeatStatistics.ConstantInputVarianceRun | src/routes/musik/beat-analyzer.js:24-29 | Under a constant mean, the variance after `n` frames is `VarianceRun` of the starting variance and averages: each frame smooths it towards the gap between the freshly smoothed averages. |
| BeatStatistics.SpreadStep | src/routes/musik/beat-analyzer.js:24-27 | One frame of constant mean brings the averages' joint distance to it down by at least 99/100, and the new gap between them is at most that new distance. |
| BeatStatistics.EnvelopeMonotone | src/routes/musik/beat-analyzer.js:29 | The variance envelope grows with the variance and the spread it starts from. |
| BeatStatistics.EnvelopeClosedForm | src/routes/musik/beat-analyzer.js:29 | The variance envelope after `n` frames is `(99/100)^n * (variance + n * spread / 100)`. |
| BeatStatistics.VarianceRunBound | src/routes/musik/beat-analyzer.js:24-29 | Under a constant mean, the variance never exceeds the envelope taken from its starting variance and the averages' joint distance to the mean. |
| BeatStatistics.ConstantInputVarianceBound | src/routes/musik/beat-analyzer.js:24-29 | From any state, under a constant mean `c`, the variance after `n` frames is at most `(99/100)^n * (variance + n * Spread / 100)`, `Spread` being how far the two averages start from `c`. The bound tends to 0. |
| BeatStatistics.SilentFirstFrame | src/routes/musik/beat-analyzer.js:28-31 | A silent first frame gives 0 / 0. The raw beat is NaN, the clamped beat as written is NaN, and the corrected clamped beat is 0. |
| BeatStatistics.LoudFirstFrame | src/routes/musik/beat-analyzer.js:23-31 | A first frame with positive mean `v` moves the fast average to `v / 4` and the slow one to `v / 100`. The raw beat is +Infinity and the clamped beat is 1. |
| BeatAnalysis.BeatAnalyzer.constructor | src/routes/musik/beat-analyzer.js:2-10 | All six arrays are new, have `bucketNumber` entries, and every bucket is `BeatStatistics.Initial`: every entry is 0 (the raw beat is the finite 0). The invariant holds. |
| BeatAnalysis.BeatAnalyzer.UpdateWithFrequencies | src/routes/musik/beat-analyzer.js:12-33 | Preserves the invariant (lengths, variance >= 0, clamped beat in `[0, 1]`). A snapshot with fewer samples than buckets is rejected and changes nothing. Otherwise every bucket `i`, and nothing else, takes exactly one `Step` with the mean of its own non-empty slice. |
| BeatAnalysis.BeatAnalyzer.BucketMeans | src/routes/musik/beat-analyzer.js:15-21 | After the first pass, `values[i]` is the mean of bucket `i`'s slice, for every bucket. Only `values` is written. |
| BeatAnalysis.BeatAnalyzer.UpdateStatistics | src/routes/musik/beat-analyzer.js:23-32 | After the second pass, every bucket's entries are `Step` of its entries before the pass, taken with `values[i]`. `values` is not written. |

## Left out

- `src/routes/musik/index.json.js` (an HTTP handler serving a song list) and
  `src/routes/musik/_stores.js` (Svelte stores) are not part of this model:
  they are I/O and library glue with no logic of the analyzer.
- Whatever produces the frequency snapshots (audio capture, FFT) and whatever
  renders `clampedBeats` are not part of this model. A snapshot is a
  `seq<real>` parameter.
- IEEE-754 rounding is not modelled: numbers are reals. Only the
  zero-divisor outcomes of the division at line 28 are modelled, through
  `Extended`. The divisor there is a variance built from `0` and
  non-negative steps, so it is never `-0`, and the sign of an infinite
  result comes from the dividend.
- BeatAnalysis.BeatAnalyzer.UpdateWithFrequencies: the source does not reject
  a snapshot with `N < bucketsNumber` (the empty snapshot included) when
  there is at least one bucket. Its bucket length is then 0, line 20
  computes `0 / 0`, and NaN spreads into `values` and, through the smoothing,
  into every statistic of every bucket from then on. The model returns
  `InsufficientSamples` instead and leaves the state unchanged, so that
  `Healthy` keeps meaning something. Every other snapshot is handled as the
  source handles it.
- BeatAnalysis.BeatAnalyzer.constructor: the source takes any JavaScript
  number, and `new Array` throws for a negative or fractional count. The
  model takes a `nat`. With 0 buckets the source's bucket length is
  `floor(N / 0) = Infinity`, or NaN for an empty snapshot, but no loop runs. The model uses length 0
  there, which is equally unused.
- The contents of `clampedBeats` follow the corrected `ClampedBeat` (NaN
  becomes 0). The as-written behaviour is modelled by `ClampedBeatAsWritten`
  and shown by `SilentFirstFrame` (see Findings). `beats` keeps the source's
  raw NaN and infinities unchanged.
- Convergence is stated as exact geometric rates, bounds and monotone
  approach, not as an epsilon-style limit:
  - the averages under a constant mean;
  - the variance under a constant mean, from any state.
- BeatStatistics.ConstantInputVarianceBound: states an explicit bound that
  tends to 0, not the limit itself; that `n * (99/100)^n` tends to 0 is
  not proved.
- BeatStatistics.SettledVarianceDecays: the exact rate `(99/100)^n` holds only
  once both averages EQUAL the constant mean. From any other start, a
  constant mean never reaches that state, since the fast average's distance
  shrinks by exactly `(3/4)^n`. ConstantInputVarianceBound covers the
  general case with a bound instead of an exact rate.
- The source fills `beats` with the number 0; the model writes it as
  `Finite(0.0)`.

## Findings

| source | as written | input that shows it | evidently intended | confidence | as-written member | corrected member |
|---|---|---|---|---|---|---|
| src/routes/musik/beat-analyzer.js:28-31 | `clamp(0, 2, beat) / 2` with `beat = delta / smoothedVariances[i]`; `Math.max`/`Math.min` propagate NaN | a first frame (or any frame while the state is all 0) whose bucket mean is 0: `delta = 0` and the old variance is 0, so `beat = 0 / 0 = NaN` and `clampedBeats[i]` becomes NaN | `clampedBeats[i]` always lies in `[0, 1]`; 0 / 0 means "no beat", i.e. 0 | medium, not executed | BeatStatistics.SilentFirstFrame | BeatStatistics.ClampedBeat |
