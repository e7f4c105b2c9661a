/** Step 1 of an update: splitting a frequency snapshot into equal,
    contiguous buckets and averaging each one. */
module Bucketing {

  /** `Math.floor(N / bucketsNumber)`; with no buckets nothing is ever read. */
  function BucketLength(sampleCount: nat, bucketCount: nat): (r: nat)
    ensures bucketCount > 0 ==> r * bucketCount <= sampleCount < (r + 1) * bucketCount
    ensures bucketCount == 0 ==> r == 0
  {
    if bucketCount == 0 then 0 else sampleCount / bucketCount
  }

  /** Sum accumulated from left to right, as the inner loop of the source does. */
  function Sum(s: seq<real>): real
  {
    if |s| == 0 then 0.0 else Sum(s[..|s| - 1]) + s[|s| - 1]
  }

  function Mean(s: seq<real>): (r: real)
    requires |s| > 0
    ensures r * |s| as real == Sum(s)
  {
    Sum(s) / |s| as real
  }

  /** The left-to-right accumulation does not depend on where the run is cut:
      the sum of two runs put together is the sum of their sums. */
  lemma {:induction false} SumConcat(a: seq<real>, b: seq<real>)
    ensures Sum(a + b) == Sum(a) + Sum(b)
    decreases |b|
  {
    if |b| > 0 {
      var b' := b[..|b| - 1];
      assert (a + b)[..|a + b| - 1] == a + b';
      SumConcat(a, b');
    } else {
      assert a + b == a;
    }
  }

  predicate AllWithin(s: seq<real>, lo: real, hi: real)
  {
    forall k :: 0 <= k < |s| ==> lo <= s[k] <= hi
  }

  /** Every bucket ends inside the used prefix, which itself fits in the snapshot. */
  lemma BucketInBounds(sampleCount: nat, bucketCount: nat, i: nat)
    requires i < bucketCount
    ensures i * BucketLength(sampleCount, bucketCount) + BucketLength(sampleCount, bucketCount)
            <= bucketCount * BucketLength(sampleCount, bucketCount) <= sampleCount
  {
    var len := BucketLength(sampleCount, bucketCount);
    assert i * len + len == (i + 1) * len;
    MulMonotone(i + 1, bucketCount, len);
  }

  lemma MulMonotone(a: nat, b: nat, c: nat)
    requires a <= b
    ensures a * c <= b * c
  {
  }

  /** The samples of bucket `i`: the `i`-th slice of `BucketLength` samples
      (BucketInBounds: it lies within the used prefix). */
  function BucketSamples(frequencies: seq<real>, bucketCount: nat, i: nat): (r: seq<real>)
    requires i < bucketCount
    ensures |r| == BucketLength(|frequencies|, bucketCount)
  {
    var len := BucketLength(|frequencies|, bucketCount);
    BucketInBounds(|frequencies|, bucketCount, i);
    frequencies[i * len .. i * len + len]
  }

  /** The sum of samples within [lo, hi] lies within [|s| * lo, |s| * hi]. */
  lemma {:induction false} SumWithin(s: seq<real>, lo: real, hi: real)
    requires AllWithin(s, lo, hi)
    ensures |s| as real * lo <= Sum(s) <= |s| as real * hi
  {
    if |s| > 0 {
      var init := s[..|s| - 1];
      assert AllWithin(init, lo, hi) by {
        forall k | 0 <= k < |init| ensures lo <= init[k] <= hi {
          assert init[k] == s[k];
        }
      }
      SumWithin(init, lo, hi);
      assert lo <= s[|s| - 1] <= hi;
    }
  }

  /** A mean of samples within [lo, hi] lies within [lo, hi]. */
  lemma MeanWithin(s: seq<real>, lo: real, hi: real)
    requires |s| > 0 && AllWithin(s, lo, hi)
    ensures lo <= Mean(s) <= hi
  {
    SumWithin(s, lo, hi);
    var n := |s| as real;
    assert n * lo <= Sum(s) <= n * hi;
    assert lo == (n * lo) / n && hi == (n * hi) / n;
  }

  /** When every sample of the snapshot lies in [lo, hi], so does the mean of each bucket. */
  lemma BucketMeanWithin(frequencies: seq<real>, bucketCount: nat, i: nat, lo: real, hi: real)
    requires i < bucketCount <= |frequencies|
    requires AllWithin(frequencies, lo, hi)
    ensures |BucketSamples(frequencies, bucketCount, i)| > 0
    ensures lo <= Mean(BucketSamples(frequencies, bucketCount, i)) <= hi
  {
    var b := BucketSamples(frequencies, bucketCount, i);
    var len := BucketLength(|frequencies|, bucketCount);
    assert len >= 1 by {
      MulMonotone(1, len, bucketCount);
    }
    BucketInBounds(|frequencies|, bucketCount, i);
    assert AllWithin(b, lo, hi) by {
      forall j | 0 <= j < |b| ensures lo <= b[j] <= hi {
        assert b[j] == frequencies[i * len + j];
      }
    }
    MeanWithin(b, lo, hi);
  }

  /** Trailing samples, at positions `bucketCount * BucketLength` and beyond,
      never reach any bucket: two snapshots of one length that agree on the
      used prefix have the same buckets. */
  lemma TrailingSamplesIgnored(f: seq<real>, g: seq<real>, bucketCount: nat, i: nat)
    requires i < bucketCount
    requires |f| == |g|
    requires f[..bucketCount * BucketLength(|f|, bucketCount)]
          == g[..bucketCount * BucketLength(|g|, bucketCount)]
    ensures BucketSamples(f, bucketCount, i) == BucketSamples(g, bucketCount, i)
  {
    var len := BucketLength(|f|, bucketCount);
    BucketInBounds(|f|, bucketCount, i);
    var used := bucketCount * len;
    var bf, bg := BucketSamples(f, bucketCount, i), BucketSamples(g, bucketCount, i);
    forall j | 0 <= j < len ensures bf[j] == bg[j] {
      assert f[..used][i * len + j] == g[..used][i * len + j];
    }
  }
}

/** Worked examples of the bucketing. */
module BucketingExamples {
  import opened Bucketing

  /** Sixteen evenly spaced samples over four buckets of four. */
  lemma FourBucketsOfFour()
    ensures var f := [0.0, 10.0, 20.0, 30.0, 40.0, 50.0, 60.0, 70.0,
                      80.0, 90.0, 100.0, 110.0, 120.0, 130.0, 140.0, 150.0];
      && BucketLength(|f|, 4) == 4
      && Mean(BucketSamples(f, 4, 0)) == 15.0
      && Mean(BucketSamples(f, 4, 1)) == 55.0
      && Mean(BucketSamples(f, 4, 2)) == 95.0
      && Mean(BucketSamples(f, 4, 3)) == 135.0
  {
    var f := [0.0, 10.0, 20.0, 30.0, 40.0, 50.0, 60.0, 70.0,
              80.0, 90.0, 100.0, 110.0, 120.0, 130.0, 140.0, 150.0];
    assert BucketSamples(f, 4, 0) == [0.0, 10.0, 20.0, 30.0];
    assert BucketSamples(f, 4, 1) == [40.0, 50.0, 60.0, 70.0];
    assert BucketSamples(f, 4, 2) == [80.0, 90.0, 100.0, 110.0];
    assert BucketSamples(f, 4, 3) == [120.0, 130.0, 140.0, 150.0];
    SumOfFour(0.0, 10.0, 20.0, 30.0);
    SumOfFour(40.0, 50.0, 60.0, 70.0);
    SumOfFour(80.0, 90.0, 100.0, 110.0);
    SumOfFour(120.0, 130.0, 140.0, 150.0);
  }

  lemma SumOfFour(a: real, b: real, c: real, d: real)
    ensures Sum([a, b, c, d]) == a + b + c + d
  {
    assert [a][..0] == [];
    assert Sum([a]) == a;
    assert [a, b][..1] == [a];
    assert Sum([a, b]) == a + b;
    assert [a, b, c][..2] == [a, b];
    assert Sum([a, b, c]) == a + b + c;
    assert [a, b, c, d][..3] == [a, b, c];
  }

  /** Ten samples over three buckets: buckets of three, and the tenth sample
      belongs to none of them. */
  lemma TenSamplesThreeBuckets(f: seq<real>)
    requires |f| == 10
    ensures BucketLength(|f|, 3) == 3
    ensures BucketSamples(f, 3, 0) == f[0..3]
    ensures BucketSamples(f, 3, 1) == f[3..6]
    ensures BucketSamples(f, 3, 2) == f[6..9]
  {
  }
}
