/** The beat analyzer: per-bucket running statistics over a stream of
    frequency snapshots, updated in place once per frame. */
module BeatAnalysis {
  import opened Numeric
  import opened Bucketing
  import opened BeatStatistics

  /** How a call to UpdateWithFrequencies ended. */
  datatype Status = Updated | InsufficientSamples

  class BeatAnalyzer {
    const bucketsNumber: nat
    // The six per-bucket arrays; the arrays themselves are never replaced,
    // only their entries are overwritten.
    const values: array<real>
    const mildlySmoothedValues: array<real>
    const smoothedValues: array<real>
    const smoothedVariances: array<real>
    const beats: array<Extended>
    const clampedBeats: array<real>

    /** Every array has one entry per bucket, and no two arrays are the same. */
    ghost predicate Valid()
    {
      && values.Length == bucketsNumber
      && mildlySmoothedValues.Length == bucketsNumber
      && smoothedValues.Length == bucketsNumber
      && smoothedVariances.Length == bucketsNumber
      && beats.Length == bucketsNumber
      && clampedBeats.Length == bucketsNumber
      && values != mildlySmoothedValues && values != smoothedValues
      && values != smoothedVariances && values != clampedBeats
      && mildlySmoothedValues != smoothedValues && mildlySmoothedValues != smoothedVariances
      && mildlySmoothedValues != clampedBeats
      && smoothedValues != smoothedVariances && smoothedValues != clampedBeats
      && smoothedVariances != clampedBeats
    }

    /** Entry `i` of all six arrays. */
    ghost function Bucket(i: nat): BucketState
      requires Valid() && i < bucketsNumber
      reads values, mildlySmoothedValues, smoothedValues, smoothedVariances, beats, clampedBeats
    {
      BucketState(values[i], mildlySmoothedValues[i], smoothedValues[i],
                  smoothedVariances[i], beats[i], clampedBeats[i])
    }

    /** Valid, and every bucket's variance is non-negative and its clamped
        beat lies in [0, 1]. */
    ghost predicate Invariant()
      reads values, mildlySmoothedValues, smoothedValues, smoothedVariances, beats, clampedBeats
    {
      Valid() && forall i :: 0 <= i < bucketsNumber ==> Healthy(Bucket(i))
    }

    /** All six arrays zero-filled, one entry per bucket. */
    constructor (bucketNumber: nat)
      ensures bucketsNumber == bucketNumber
      ensures Valid() && Invariant()
      ensures fresh(values) && fresh(mildlySmoothedValues) && fresh(smoothedValues)
      ensures fresh(smoothedVariances) && fresh(beats) && fresh(clampedBeats)
      ensures forall i :: 0 <= i < bucketNumber ==> Bucket(i) == Initial
    {
      bucketsNumber := bucketNumber;
      values := new real[bucketNumber](_ => 0.0);
      mildlySmoothedValues := new real[bucketNumber](_ => 0.0);
      smoothedValues := new real[bucketNumber](_ => 0.0);
      smoothedVariances := new real[bucketNumber](_ => 0.0);
      beats := new Extended[bucketNumber](_ => Finite(0.0));
      clampedBeats := new real[bucketNumber](_ => 0.0);
    }

    /** Folds one snapshot into the statistics. A snapshot too short to give
        every bucket a sample is rejected and changes nothing; otherwise each
        bucket `i` takes one Step with the mean of its own samples, and
        nothing else. */
    method UpdateWithFrequencies(frequencies: seq<real>) returns (status: Status)
      requires Invariant()
      modifies values, mildlySmoothedValues, smoothedValues, smoothedVariances, beats, clampedBeats
      ensures Invariant()
      ensures status == InsufficientSamples <==> 0 < bucketsNumber && |frequencies| < bucketsNumber
      ensures status == InsufficientSamples ==>
        forall i :: 0 <= i < bucketsNumber ==> Bucket(i) == old(Bucket(i))
      ensures status == Updated ==>
        forall i :: 0 <= i < bucketsNumber ==>
          |BucketSamples(frequencies, bucketsNumber, i)| > 0 &&
          Bucket(i) == Step(old(Bucket(i)), Mean(BucketSamples(frequencies, bucketsNumber, i)))
    {
      var bucketLength := BucketLength(|frequencies|, bucketsNumber);
      if 0 < bucketsNumber && bucketLength == 0 {
        return InsufficientSamples;
      }
      BucketMeans(frequencies);
      label meansDone:
      UpdateStatistics();
      forall i | 0 <= i < bucketsNumber
        ensures Bucket(i) == Step(old(Bucket(i)), Mean(BucketSamples(frequencies, bucketsNumber, i)))
      {
        StepIgnoresValue(old@meansDone(Bucket(i)), old(Bucket(i)), values[i]);
      }
      return Updated;
    }

    /** First pass: `values[i]` becomes the mean of bucket `i`'s samples;
        the other arrays are untouched. */
    method BucketMeans(frequencies: seq<real>)
      requires Valid()
      requires 0 < bucketsNumber ==> BucketLength(|frequencies|, bucketsNumber) > 0
      modifies values
      ensures forall i :: 0 <= i < bucketsNumber ==>
        |BucketSamples(frequencies, bucketsNumber, i)| > 0 &&
        values[i] == Mean(BucketSamples(frequencies, bucketsNumber, i))
    {
      var bucketLength := BucketLength(|frequencies|, bucketsNumber);
      var i := 0;
      while i < bucketsNumber
        invariant 0 <= i <= bucketsNumber
        invariant forall k :: 0 <= k < i ==>
          values[k] == Mean(BucketSamples(frequencies, bucketsNumber, k))
      {
        BucketInBounds(|frequencies|, bucketsNumber, i);
        var start := i * bucketLength;
        ghost var bucket := BucketSamples(frequencies, bucketsNumber, i);
        var sum := 0.0;
        var j := 0;
        while j < bucketLength
          invariant 0 <= j <= bucketLength
          invariant sum == Sum(bucket[..j])
        {
          assert bucket[..j + 1][..j] == bucket[..j];
          sum := sum + frequencies[start + j];
          j := j + 1;
        }
        assert bucket[..bucketLength] == bucket;
        values[i] := sum / bucketLength as real;
        i := i + 1;
      }
    }

    /** Second pass: every bucket takes one Step with its current mean;
        `values` is untouched. */
    method UpdateStatistics()
      requires Valid()
      modifies mildlySmoothedValues, smoothedValues, smoothedVariances, beats, clampedBeats
      ensures forall i :: 0 <= i < bucketsNumber ==> Bucket(i) == Step(old(Bucket(i)), values[i])
    {
      var i := 0;
      while i < bucketsNumber
        invariant 0 <= i <= bucketsNumber
        invariant forall k :: 0 <= k < i ==> Bucket(k) == Step(old(Bucket(k)), values[k])
        invariant forall k :: i <= k < bucketsNumber ==>
          && mildlySmoothedValues[k] == old(mildlySmoothedValues[k])
          && smoothedValues[k] == old(smoothedValues[k])
          && smoothedVariances[k] == old(smoothedVariances[k])
          && beats[k] == old(beats[k])
          && clampedBeats[k] == old(clampedBeats[k])
      {
        var value := values[i];
        ghost var target := Step(old(Bucket(i)), value);
        var mildlySmoothedValue := Smooth(mildlySmoothedValues[i], value, MildSmoothness);
        mildlySmoothedValues[i] := mildlySmoothedValue;
        smoothedValues[i] := Smooth(smoothedValues[i], value, Smoothness);
        var delta := mildlySmoothedValue - smoothedValues[i];
        var beat := Divide(delta, smoothedVariances[i]);
        smoothedVariances[i] := Smooth(smoothedVariances[i], Abs(delta), Smoothness);
        beats[i] := beat;
        clampedBeats[i] := ClampedBeat(beat);
        assert Bucket(i) == target;
        i := i + 1;
      }
    }
  }
}
