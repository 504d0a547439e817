/**
 The latency summary of the database simulation: samples of all threads merged, sorted, and
 read at percentiles by linear interpolation. Latencies are real numbers.
 */
module Latency {

  predicate Sorted(s: seq<real>) {
    forall i, j :: 0 <= i <= j < |s| ==> s[i] <= s[j]
  }

  /** The position of a percentile in a sample of n; the C code truncates it to an index. */
  function Position(n: nat, p: real): real
    requires n > 0
  {
    p / 100.0 * (n - 1) as real
  }

  function Percentile(sorted: seq<real>, p: real): real
    requires p >= 0.0
  {
    var n := |sorted|;
    if n == 0 then 0.0
    else
      var idx := Position(n, p);
      PositionInOrder(n, 0.0, p);
      var lo := idx.Floor;
      var hi := lo + 1;
      if hi >= n then sorted[n - 1]
      else
        var frac := idx - lo as real;
        sorted[lo] * (1.0 - frac) + sorted[hi] * frac
  }

  lemma PositionInOrder(n: nat, p: real, q: real)
    requires n > 0 && 0.0 <= p <= q
    ensures 0.0 <= Position(n, p) <= Position(n, q)
  {
    var m := (n - 1) as real;
    assert Position(n, q) - Position(n, p) == (q - p) / 100.0 * m;
  }

  lemma NonNegativeProduct(x: real, y: real)
    requires x >= 0.0 && y >= 0.0
    ensures x * y >= 0.0
  {
  }

  lemma Interpolation(a: real, b: real, x: real, y: real)
    requires a <= b && 0.0 <= x <= y <= 1.0
    ensures a <= a * (1.0 - x) + b * x <= a * (1.0 - y) + b * y <= b
  {
    assert a * (1.0 - x) + b * x == a + (b - a) * x;
    assert a * (1.0 - y) + b * y == a + (b - a) * y;
    NonNegativeProduct(b - a, y - x);
    NonNegativeProduct(b - a, 1.0 - y);
    NonNegativeProduct(b - a, x);
  }

  /** The value lies between the two neighbours of its position, in particular in the sample's range. */
  lemma PercentileBetweenNeighbours(sorted: seq<real>, p: real)
    requires Sorted(sorted) && sorted != [] && p >= 0.0
    ensures var lo := Position(|sorted|, p).Floor;
            var last := |sorted| - 1;
            0 <= lo
            && sorted[if lo < last then lo else last] <= Percentile(sorted, p)
            && Percentile(sorted, p) <= sorted[if lo < last then lo + 1 else last]
  {
    var n := |sorted|;
    var idx := Position(n, p);
    PositionInOrder(n, 0.0, p);
    var lo := idx.Floor;
    if lo + 1 < n {
      Interpolation(sorted[lo], sorted[lo + 1], idx - lo as real, 1.0);
    }
  }

  lemma PercentileInRange(sorted: seq<real>, p: real)
    requires Sorted(sorted) && sorted != [] && p >= 0.0
    ensures sorted[0] <= Percentile(sorted, p) <= sorted[|sorted| - 1]
  {
    PercentileBetweenNeighbours(sorted, p);
  }

  /** A higher percentile is never lower. */
  lemma PercentileMonotone(sorted: seq<real>, p: real, q: real)
    requires Sorted(sorted) && 0.0 <= p <= q
    ensures Percentile(sorted, p) <= Percentile(sorted, q)
  {
    var n := |sorted|;
    if n > 0 {
      PositionInOrder(n, p, q);
      var x, y := Position(n, p), Position(n, q);
      PercentileBetweenNeighbours(sorted, p);
      PercentileBetweenNeighbours(sorted, q);
      if x.Floor == y.Floor && x.Floor + 1 < n {
        Interpolation(sorted[x.Floor], sorted[x.Floor + 1], x - x.Floor as real, y - y.Floor as real);
      }
    }
  }

  /**
   The value itself: with n samples, `p` falls at x = p (n - 1) / 100, and the value is read
   on the straight line between the samples at the whole positions around x; from the last
   position on it is the last sample, and without samples it is 0.
   */
  lemma PercentileValue(sorted: seq<real>, p: real, k: nat)
    requires p >= 0.0
    ensures sorted == [] ==> Percentile(sorted, p) == 0.0
    ensures k + 1 < |sorted| && 100.0 * k as real <= p * (|sorted| - 1) as real < 100.0 * (k + 1) as real ==>
              var x := p * (|sorted| - 1) as real / 100.0;
              Percentile(sorted, p) == sorted[k] + (x - k as real) * (sorted[k + 1] - sorted[k])
    ensures sorted != [] && p >= 100.0 ==> Percentile(sorted, p) == sorted[|sorted| - 1]
  {
    var n := |sorted|;
    if n > 0 {
      var x := p * (n - 1) as real / 100.0;
      assert Position(n, p) == x;
      PositionInOrder(n, 0.0, p);
      if k + 1 < n && 100.0 * k as real <= p * (n - 1) as real < 100.0 * (k + 1) as real {
        assert k as real <= x < (k + 1) as real && x.Floor == k;
        OnTheLine(sorted[k], sorted[k + 1], x - k as real);
      }
      if p >= 100.0 {
        PositionInOrder(n, 100.0, p);
        assert Position(n, 100.0) == (n - 1) as real;
      }
    }
  }

  lemma OnTheLine(a: real, b: real, x: real)
    ensures a * (1.0 - x) + b * x == a + x * (b - a)
  {
  }

  /** So the median of 1 and 2 is 1.5. */
  lemma MedianOfTwo()
    ensures Percentile([1.0, 2.0], 50.0) == 1.5
  {
    PercentileValue([1.0, 2.0], 50.0, 0);
  }

  /** At a whole position the percentile is the order statistic. */
  lemma PercentileAtWholePosition(sorted: seq<real>, p: real, k: nat)
    requires k < |sorted| && p >= 0.0 && Position(|sorted|, p) == k as real
    ensures Percentile(sorted, p) == sorted[k]
  {
  }

  // ----- merging

  function Flatten(samples: seq<seq<real>>): seq<real> {
    if samples == [] then [] else Flatten(samples[..|samples| - 1]) + samples[|samples| - 1]
  }

  lemma {:induction false} FlattenPrefix(samples: seq<seq<real>>, i: nat)
    requires i <= |samples|
    ensures Flatten(samples[..i]) <= Flatten(samples)
  {
    if i < |samples| {
      assert samples[..|samples| - 1][..i] == samples[..i];
      FlattenPrefix(samples[..|samples| - 1], i);
    } else {
      assert samples[..i] == samples;
    }
  }

  /** The summing loop and the two nested copying loops. */
  method MergeSamples(samples: seq<seq<real>>) returns (all: array<real>)
    ensures fresh(all) && all[..] == Flatten(samples)
  {
    var total := 0;
    for i := 0 to |samples|
      invariant total == |Flatten(samples[..i])|
    {
      assert samples[..i + 1][..i] == samples[..i];
      total := total + |samples[i]|;
    }
    assert samples[..|samples|] == samples;
    all := new real[total](_ => 0.0);
    var idx := 0;
    for i := 0 to |samples|
      invariant idx == |Flatten(samples[..i])| <= total && all[..idx] == Flatten(samples[..i])
    {
      assert samples[..i + 1][..i] == samples[..i];
      FlattenPrefix(samples, i + 1);
      ghost var merged := Flatten(samples[..i]);
      for j := 0 to |samples[i]|
        invariant idx == |merged| + j && idx <= total && all[..idx] == merged + samples[i][..j]
      {
        all[idx] := samples[i][j];
        idx := idx + 1;
        assert all[..idx] == all[..idx - 1] + [samples[i][j]];
      }
      assert samples[i][..|samples[i]|] == samples[i];
    }
    assert all[..] == all[..idx];
  }

  // ----- the summary

  /** Sample `j` of thread `i` comes after all samples of the threads before it. */
  lemma FlattenAt(samples: seq<seq<real>>, i: nat, j: nat)
    requires i < |samples| && j < |samples[i]|
    ensures |Flatten(samples[..i])| + j < |Flatten(samples)|
    ensures Flatten(samples)[|Flatten(samples[..i])| + j] == samples[i][j]
  {
    FlattenPrefix(samples, i + 1);
    assert samples[..i + 1][..i] == samples[..i];
  }

  lemma {:induction false} SampleIsMerged(samples: seq<seq<real>>, i: nat, x: real)
    requires i < |samples| && x in samples[i]
    ensures x in Flatten(samples)
  {
    if i < |samples| - 1 {
      SampleIsMerged(samples[..|samples| - 1], i, x);
    }
  }

  lemma {:induction false} MergedIsSample(samples: seq<seq<real>>, x: real) returns (i: nat)
    requires x in Flatten(samples)
    ensures i < |samples| && x in samples[i]
  {
    i := |samples| - 1;
    if x !in samples[i] {
      i := MergedIsSample(samples[..|samples| - 1], x);
    }
  }

  /**
   For the merged samples in sorted order, by whatever sort: the reported minimum and
   maximum are samples and bound every sample of every thread, and p50 and p99 lie between
   them in that order.
   */
  lemma SummaryIsOrdered(samples: seq<seq<real>>, sorted: seq<real>, i: nat, x: real)
    requires Sorted(sorted) && multiset(sorted) == multiset(Flatten(samples))
    requires i < |samples| && x in samples[i]
    ensures sorted != []
    ensures sorted[0] <= x <= sorted[|sorted| - 1]
    ensures sorted[0] <= Percentile(sorted, 50.0) <= Percentile(sorted, 99.0) <= sorted[|sorted| - 1]
  {
    SampleIsMerged(samples, i, x);
    assert x in multiset(sorted);
    PercentileInRange(sorted, 50.0);
    PercentileInRange(sorted, 99.0);
    PercentileMonotone(sorted, 50.0, 99.0);
  }

  /** The reported extremes were measured by some thread. */
  lemma ExtremesAreSamples(samples: seq<seq<real>>, sorted: seq<real>) returns (i: nat, j: nat)
    requires Sorted(sorted) && multiset(sorted) == multiset(Flatten(samples)) && sorted != []
    ensures i < |samples| && sorted[0] in samples[i]
    ensures j < |samples| && sorted[|sorted| - 1] in samples[j]
  {
    assert sorted[0] in multiset(sorted) && sorted[|sorted| - 1] in multiset(sorted);
    i := MergedIsSample(samples, sorted[0]);
    j := MergedIsSample(samples, sorted[|sorted| - 1]);
  }
}
