/**
  * What the histogram's summary says about the samples themselves: percentiles against the exact nearest rank,
  * the mean against the true mean.
  */
module HistogramAccuracy {
  import opened Basics
  import opened LatencyHistogram
  import opened NearestRank

  // ---------------------------------------------------------------- counting

  function CountIf<T>(s: seq<T>, p: T -> bool): nat {
    if s == [] then 0
    else CountIf(s[..|s| - 1], p) + if p(s[|s| - 1]) then 1 else 0
  }

  lemma {:induction false} CountIfConcat<T>(a: seq<T>, b: seq<T>, p: T -> bool)
    ensures CountIf(a + b, p) == CountIf(a, p) + CountIf(b, p)
    decreases |b|
  {
    if b == [] {
      assert a + b == a;
    } else {
      assert (a + b)[..|a + b| - 1] == a + b[..|b| - 1];
      CountIfConcat(a, b[..|b| - 1], p);
    }
  }

  lemma RemoveAt<T>(s: seq<T>, k: nat)
    requires k < |s|
    ensures multiset(s[..k] + s[k + 1..]) == multiset(s) - multiset{s[k]}
  {
    assert s == s[..k] + [s[k]] + s[k + 1..];
  }

  lemma CountIfRemoved<T>(s: seq<T>, k: nat, p: T -> bool)
    requires k < |s|
    ensures CountIf(s, p) == CountIf(s[..k] + s[k + 1..], p) + if p(s[k]) then 1 else 0
  {
    var x := s[k];
    assert s == s[..k] + [x] + s[k + 1..];
    CountIfConcat(s[..k], [x], p);
    CountIfConcat(s[..k] + [x], s[k + 1..], p);
    CountIfConcat(s[..k], s[k + 1..], p);
    assert [x][..0] == [];
  }

  /** The count depends on which elements there are, not on their order. */
  lemma {:induction false} CountIfPermutation<T>(s: seq<T>, t: seq<T>, p: T -> bool)
    requires multiset(s) == multiset(t)
    ensures CountIf(s, p) == CountIf(t, p)
    decreases |s|
  {
    assert |s| == |multiset(s)| == |multiset(t)| == |t|;
    if s != [] {
      hide CountIf;
      var last := |s| - 1;
      assert s[last] in multiset(t);
      var k :| 0 <= k < |t| && t[k] == s[last];
      RemoveAt(t, k);
      RemoveAt(s, last);
      CountIfPermutation(s[..last] + s[last + 1..], t[..k] + t[k + 1..], p);
      CountIfRemoved(s, last, p);
      CountIfRemoved(t, k, p);
    }
  }

  function Below(x: real): real -> bool {
    y => y < x
  }

  /** In a sorted list the elements below a bound come first. */
  lemma {:induction false} SortedCount(s: seq<real>, x: real)
    requires Sorted(s)
    ensures CountIf(s, Below(x)) <= |s|
    ensures forall i :: 0 <= i < |s| ==> (s[i] < x <==> i < CountIf(s, Below(x)))
  {
    if s != [] {
      SortedCount(s[..|s| - 1], x);
    }
  }

  // ---------------------------------------------------------------- counters and samples

  lemma {:induction false} TotalUpdate(counts: seq<nat>, k: nat, n: nat)
    requires k < |counts| && n <= |counts|
    ensures Total(counts[k := counts[k] + 1], n) == Total(counts, n) + if k < n then 1 else 0
  {
    if n > 0 {
      TotalUpdate(counts, k, n - 1);
    }
  }

  lemma {:induction false} TotalZero(counts: seq<nat>, n: nat)
    requires n <= |counts| && forall i :: 0 <= i < |counts| ==> counts[i] == 0
    ensures Total(counts, n) == 0
  {
    if n > 0 {
      TotalZero(counts, n - 1);
    }
  }

  /** A latency falls in the first `n` buckets exactly when it is below the lower bound of the next. */
  lemma BucketBefore(c: Config, ms: real, n: nat)
    requires ConfigOk(c) && c.lowest <= ms
    ensures BucketIndex(c, ms) < n <==> ms < Lower(c, n)
  {
    hide Lower;
    var k := BucketIndex(c, ms);
    if k < n {
      LowerMonotone(c, k + 1, n);
    } else {
      LowerMonotone(c, n, k);
    }
  }

  lemma LowestBelow(c: Config, n: nat)
    requires ConfigOk(c)
    ensures c.lowest == Lower(c, 0) && c.lowest <= Lower(c, n) && Lower(c, n) > 0.0
  {
    LowerMonotone(c, 0, n);
  }

  /** The zeros and the first `n` buckets together count the accepted latencies below the next bucket. */
  lemma {:induction false} CountersCount(c: Config, samples: seq<Sample>, n: nat)
    requires ConfigOk(c) && n <= BucketCount(c)
    ensures var h := RecordAll(c, samples);
            h.zeroCount + Total(h.counts, n) == CountIf(Accepted(c, samples), Below(Lower(c, n)))
    decreases |samples|
  {
    hide Lower, BucketCount, Total, BucketIndex;
    if samples == [] {
      TotalZero(Empty(c).counts, n);
    } else {
      var front, last := samples[..|samples| - 1], samples[|samples| - 1];
      CountersCount(c, front, n);
      LowestBelow(c, n);
      var h := RecordAll(c, front);
      if last.Finite? && InRange(c, last.ms) {
        assert Accepted(c, samples)[..|Accepted(c, samples)| - 1] == Accepted(c, front);
        if last.ms != 0.0 {
          BucketBefore(c, last.ms, n);
          ClampNeverBinds(c, last.ms);
          TotalUpdate(h.counts, BucketIndex(c, last.ms), n);
        }
      } else {
        assert Accepted(c, samples) == Accepted(c, front);
      }
    }
  }

  /** The zeros and the buckets account for the count. */
  predicate Balanced(h: Histogram) {
    h.count == h.zeroCount + Total(h.counts, |h.counts|)
  }

  lemma {:induction false} CountIsAccepted(c: Config, samples: seq<Sample>)
    requires ConfigOk(c)
    ensures var h := RecordAll(c, samples);
            h.count == |Accepted(c, samples)| && Balanced(h)
    decreases |samples|
  {
    hide Lower, BucketCount, BucketIndex;
    if samples == [] {
      TotalZero(Empty(c).counts, |Empty(c).counts|);
    } else {
      var front, last := samples[..|samples| - 1], samples[|samples| - 1];
      CountIsAccepted(c, front);
      var h := RecordAll(c, front);
      if last.Finite? && c.lowest <= last.ms <= c.highest {
        ClampNeverBinds(c, last.ms);
        TotalUpdate(h.counts, BucketIndex(c, last.ms), |h.counts|);
      }
    }
  }

  // ---------------------------------------------------------------- each counter on its own

  function IsNonFinite(): Sample -> bool {
    (s: Sample) => s.NonFinite?
  }

  function IsZero(): Sample -> bool {
    (s: Sample) => s.Finite? && s.ms == 0.0
  }

  function IsBelow(c: Config): Sample -> bool {
    (s: Sample) => s.Finite? && s.ms != 0.0 && s.ms < c.lowest
  }

  function IsAbove(c: Config): Sample -> bool {
    (s: Sample) => s.Finite? && s.ms > c.highest
  }

  /** The sample is in the range and between the bounds of the bucket. */
  function IsInBucket(c: Config, i: nat): Sample -> bool {
    (s: Sample) => s.Finite? && c.lowest <= s.ms <= c.highest && Lower(c, i) <= s.ms < Lower(c, i + 1)
  }

  /** Every counter counts the samples of its own kind. */
  lemma {:induction false} CountersExact(c: Config, samples: seq<Sample>, i: nat)
    requires ConfigOk(c)
    ensures var h := RecordAll(c, samples);
            && h.nonFinite == CountIf(samples, IsNonFinite())
            && h.zeroCount == CountIf(samples, IsZero())
            && h.belowRange == CountIf(samples, IsBelow(c))
            && h.aboveRange == CountIf(samples, IsAbove(c))
            && (i < |h.counts| ==> h.counts[i] == CountIf(samples, IsInBucket(c, i)))
            && h.count + h.nonFinite + h.belowRange + h.aboveRange == |samples|
    decreases |samples|
  {
    hide Lower, BucketCount;
    if samples != [] {
      var last := samples[|samples| - 1];
      CountersExact(c, samples[..|samples| - 1], i);
      if last.Finite? && c.lowest <= last.ms <= c.highest {
        ClampNeverBinds(c, last.ms);
        BucketBefore(c, last.ms, i);
        BucketBefore(c, last.ms, i + 1);
      }
      hide BucketIndex;
    }
  }

  /** The last bucket is the first whose lower bound reaches the highest latency. */
  lemma BucketCountExact(c: Config, n: nat)
    requires ConfigOk(c)
    ensures BucketCount(c) == n + 1 <==> Lower(c, n) >= c.highest && (n > 0 ==> Lower(c, n - 1) < c.highest)
  {
    hide Lower;
    var top := CeilingFrom(c, 0);
    if n < top {
      LowerMonotone(c, n, top - 1);
    } else if n > top {
      LowerMonotone(c, top, n - 1);
    }
  }

  /** Bucket bounds begin at the lowest latency, and each is the one before it times one plus twice the accuracy. */
  lemma BoundsExact(c: Config, i: nat)
    requires ConfigOk(c)
    ensures Lower(c, 0) == c.lowest && Lower(c, i + 1) == Lower(c, i) * (1.0 + 2.0 * c.accuracy)
  {
    LowestBelow(c, 0);
    LowerStep(c, i);
  }

  /** Everything handed to a recorder, accepted or not. */
  function Observations(h: Histogram): nat {
    h.count + h.nonFinite + h.belowRange + h.aboveRange
  }

  /** Every sample is accepted or rejected for one reason. */
  lemma {:induction false} AllObserved(c: Config, samples: seq<Sample>)
    requires ConfigOk(c)
    ensures Observations(RecordAll(c, samples)) == |samples|
    decreases |samples|
  {
    hide Lower, BucketCount, BucketIndex;
    if samples != [] {
      AllObserved(c, samples[..|samples| - 1]);
    }
  }

  lemma {:induction false} AcceptedInRange(c: Config, samples: seq<Sample>)
    requires ConfigOk(c)
    ensures forall i :: 0 <= i < |Accepted(c, samples)| ==> InRange(c, Accepted(c, samples)[i])
    decreases |samples|
  {
    if samples != [] {
      AcceptedInRange(c, samples[..|samples| - 1]);
    }
  }

  // ---------------------------------------------------------------- quantiles

  /** The scan stops where the running total first reaches the rank, and only an unreached rank falls through. */
  lemma {:induction false} ScanFinds(counts: seq<nat>, zeros: nat, i: nat, rank: nat)
    requires i <= |counts| && zeros + Total(counts, i) < rank
    ensures var r := Scan(counts, i, zeros + Total(counts, i), rank);
            match r
            case None => zeros + Total(counts, |counts|) < rank
            case Some(k) => k < |counts| && zeros + Total(counts, k) < rank <= zeros + Total(counts, k + 1)
    decreases |counts| - i
  {
    if i < |counts| {
      assert Total(counts, i + 1) == Total(counts, i) + counts[i];
      if zeros + Total(counts, i + 1) < rank {
        ScanFinds(counts, zeros, i + 1, rank);
      }
    }
  }

  lemma RankInCount(count: nat, fraction: real)
    requires count > 0 && 0.0 <= fraction <= 1.0
    ensures 1 <= Rank(count, fraction) <= count
  {
    var n := count as real;
    assert n * fraction <= n * 1.0;
    assert Ceiling(n * fraction) <= count;
  }

  /** A reported value is off by at most the given fraction of the exact one. */
  predicate Within(accuracy: real, exact: real, reported: real) {
    -(accuracy * exact) <= reported - exact <= accuracy * exact
  }

  lemma WithinZero(accuracy: real)
    ensures Within(accuracy, 0.0, 0.0)
  {
  }

  lemma WithinSum(accuracy: real, a: real, x: real, b: real, y: real)
    requires Within(accuracy, a, x) && Within(accuracy, b, y)
    ensures Within(accuracy, a + b, x + y)
  {
    assert accuracy * (a + b) == accuracy * a + accuracy * b;
  }

  /** A bucket's midpoint is within the accuracy of every latency of the bucket up to the highest. */
  lemma MidpointAccuracy(c: Config, ms: real, k: nat)
    requires ConfigOk(c) && Lower(c, k) <= ms < Lower(c, k + 1) && ms <= c.highest
    ensures Within(c.accuracy, ms, Midpoint(c, k))
  {
    LowerStep(c, k);
    MidpointBounds(c.accuracy, Lower(c, k), ms);
  }

  lemma MidpointBounds(accuracy: real, lower: real, ms: real)
    requires 0.0 < accuracy < 1.0 && 0.0 < lower <= ms < lower + 2.0 * accuracy * lower
    ensures Within(accuracy, ms, lower * (1.0 + accuracy))
  {
    assert accuracy * lower <= accuracy * ms;
    assert lower * (1.0 + accuracy) == lower + accuracy * lower;
  }

  /** The value of that rank is zero, or is in the range and in the bucket that the scan finds. */
  predicate Located(c: Config, h: Histogram, rank: nat, exact: real) {
    InRange(c, exact) &&
    if rank <= h.zeroCount then exact == 0.0
    else
      var k := Scan(h.counts, 0, h.zeroCount, rank);
      k.Some? && Lower(c, k.value) <= exact < Lower(c, k.value + 1)
  }

  /** Where the exact quantile lies, from the counters alone: it is zero, or in the bucket that the scan finds. */
  lemma ExactQuantileBucket(c: Config, samples: seq<Sample>, fraction: real)
    requires ConfigOk(c) && 0.0 <= fraction <= 1.0 && Accepted(c, samples) != []
    ensures var h := RecordAll(c, samples);
            var rank := Rank(h.count, fraction);
            && 1 <= rank <= |Accepted(c, samples)| == h.count
            && Located(c, h, rank, ToSorted(Accepted(c, samples))[rank - 1])
  {
    hide Lower, Scan, Total, Rank, RecordAll, Accepted, ToSorted, CountIf, Below;
    var h := RecordAll(c, samples);
    var accepted := Accepted(c, samples);
    CountIsAccepted(c, samples);
    RankInCount(h.count, fraction);
    var rank := Rank(h.count, fraction);
    var sorted := ToSorted(accepted);
    var exact := sorted[rank - 1];
    AcceptedInRange(c, samples);
    assert exact in multiset(sorted);
    assert exact in accepted;
    ExactBelow(c, samples, 0, rank);
    LowestBelow(c, 0);
    TotalNone(h.counts);
    if rank > h.zeroCount {
      ScanFinds(h.counts, h.zeroCount, 0, rank);
      var r := Scan(h.counts, 0, h.zeroCount, rank);
      assert r.Some?;
      ExactBelow(c, samples, r.value, rank);
      ExactBelow(c, samples, r.value + 1, rank);
    }
  }

  lemma TotalNone(counts: seq<nat>)
    ensures Total(counts, 0) == 0
  {
  }

  lemma ExactBelow(c: Config, samples: seq<Sample>, n: nat, rank: nat)
    requires ConfigOk(c) && n <= BucketCount(c) && 1 <= rank <= |Accepted(c, samples)|
    ensures var h := RecordAll(c, samples);
            ToSorted(Accepted(c, samples))[rank - 1] < Lower(c, n) <==> rank <= h.zeroCount + Total(h.counts, n)
  {
    hide Lower, Total, RecordAll, Accepted, ToSorted, CountIf, BucketCount;
    var accepted := Accepted(c, samples);
    var sorted := ToSorted(accepted);
    CountersCount(c, samples, n);
    CountIfPermutation(sorted, accepted, Below(Lower(c, n)));
    SortedCount(sorted, Lower(c, n));
  }

  /** The exact quantile is the element whose rank the histogram looks for. */
  lemma ExactQuantileRank(values: seq<real>, fraction: real)
    requires 0.0 <= fraction <= 1.0 && values != []
    ensures 1 <= Rank(|values|, fraction) <= |values|
    ensures QuantileNearestRank(values, fraction) == Ok(Some(ToSorted(values)[Rank(|values|, fraction) - 1]))
  {
    hide ToSorted, Rank, NearestIndex;
    RankInCount(|values|, fraction);
    NearestIndexIsRank(|values|, fraction);
  }

  lemma NearestIndexIsRank(length: nat, fraction: real)
    requires 0.0 <= fraction <= 1.0 && length > 0
    ensures NearestIndex(length, fraction) == Rank(length, fraction) - 1
  {
    RankInCount(length, fraction);
  }

  function AtMost(x: real): real -> bool {
    y => y <= x
  }

  /** In a sorted list the elements up to a bound come first. */
  lemma {:induction false} SortedAtMost(s: seq<real>, x: real)
    requires Sorted(s)
    ensures CountIf(s, AtMost(x)) <= |s|
    ensures forall i :: 0 <= i < |s| ==> (s[i] <= x <==> i < CountIf(s, AtMost(x)))
  {
    if s != [] {
      SortedAtMost(s[..|s| - 1], x);
    }
  }

  /** A fraction of a number of values. */
  function Share(fraction: real, n: nat): real {
    fraction * n as real
  }

  /** The least value of a list that at least this fraction of its values do not exceed. */
  predicate IsNearestRank(values: seq<real>, fraction: real, v: real) {
    && v in values
    && CountIf(values, AtMost(v)) as real >= Share(fraction, |values|)
    && forall u :: u in values && u < v ==> (CountIf(values, AtMost(u)) as real) < Share(fraction, |values|)
  }

  lemma RankReaches(n: nat, fraction: real)
    requires n > 0 && 0.0 <= fraction <= 1.0
    ensures 1 <= Rank(n, fraction) <= n && Rank(n, fraction) as real >= Share(fraction, n)
    ensures Rank(n, fraction) > 1 ==> (Rank(n, fraction) - 1) as real < Share(fraction, n)
  {
    RankInCount(n, fraction);
  }

  lemma SortedCounts(values: seq<real>, x: real)
    ensures CountIf(values, AtMost(x)) == CountIf(ToSorted(values), AtMost(x)) <= |values|
    ensures forall i :: 0 <= i < |values| ==> (ToSorted(values)[i] <= x <==> i < CountIf(values, AtMost(x)))
  {
    hide ToSorted, CountIf;
    CountIfPermutation(ToSorted(values), values, AtMost(x));
    SortedAtMost(ToSorted(values), x);
  }

  /** Values before the ranked one do not reach the fraction. */
  lemma BelowRank(values: seq<real>, fraction: real, u: real)
    requires 0.0 <= fraction <= 1.0 && values != [] && u in values
    requires 1 <= Rank(|values|, fraction) <= |values| && u < ToSorted(values)[Rank(|values|, fraction) - 1]
    ensures (CountIf(values, AtMost(u)) as real) < Share(fraction, |values|)
  {
    hide ToSorted, CountIf, Rank, Share;
    var rank := Rank(|values|, fraction);
    RankReaches(|values|, fraction);
    SortedCounts(values, u);
    SortedMembers(values);
    assert u in ToSorted(values);
    assert CountIf(values, AtMost(u)) <= rank - 1;
    assert CountIf(values, AtMost(u)) > 0;
  }

  lemma RankedIsNearest(values: seq<real>, fraction: real)
    requires 0.0 <= fraction <= 1.0 && values != []
    ensures 1 <= Rank(|values|, fraction) <= |values|
    ensures IsNearestRank(values, fraction, ToSorted(values)[Rank(|values|, fraction) - 1])
  {
    hide ToSorted, CountIf, Rank, Share;
    RankReaches(|values|, fraction);
    var exact := ToSorted(values)[Rank(|values|, fraction) - 1];
    SortedCounts(values, exact);
    SortedMembers(values);
    assert exact in ToSorted(values);
    forall u | u in values && u < exact
      ensures (CountIf(values, AtMost(u)) as real) < Share(fraction, |values|)
    {
      BelowRank(values, fraction, u);
    }
  }

  /** The exact quantile is the least value that at least this fraction of the values do not exceed. */
  lemma NearestRankExactly(values: seq<real>, fraction: real, v: real)
    requires 0.0 <= fraction <= 1.0 && values != []
    ensures QuantileNearestRank(values, fraction) == Ok(Some(v)) <==> IsNearestRank(values, fraction, v)
  {
    hide ToSorted, Rank, QuantileNearestRank, CountIf, Share;
    ExactQuantileRank(values, fraction);
    RankedIsNearest(values, fraction);
    assert IsNearestRank(values, fraction, v) ==> v == ToSorted(values)[Rank(|values|, fraction) - 1];
  }

  lemma SortedMembers(values: seq<real>)
    ensures forall x :: x in ToSorted(values) <==> x in values
  {
    hide ToSorted;
    forall x: real
      ensures x in ToSorted(values) <==> x in values
    {
      assert x in multiset(ToSorted(values)) <==> x in multiset(values);
    }
  }

  /** What stands for an accepted value: zero, or the midpoint of its bucket, but not more than the highest latency. */
  function Representative(c: Config, ms: real): real
    requires ConfigOk(c)
  {
    if ms < c.lowest then 0.0
    else
      var midpoint := Lower(c, BucketIndex(c, ms)) * (1.0 + c.accuracy);
      if c.highest < midpoint then c.highest else midpoint
  }

  /**
    * Every reported percentile is what stands for the least accepted sample that at least this fraction of the accepted
    * samples do not exceed, and so within the configured accuracy of it; nothing is reported exactly when nothing was
    * accepted.
    */
  lemma QuantileAccuracy(c: Config, samples: seq<Sample>, fraction: real, exact: real)
    requires ConfigOk(c) && 0.0 <= fraction <= 1.0
    ensures var reported := Quantile(c, RecordAll(c, samples), fraction);
            && (reported.Some? <==> Accepted(c, samples) != [])
            && (IsNearestRank(Accepted(c, samples), fraction, exact) ==>
                  reported == Some(Representative(c, exact)) && Within(c.accuracy, exact, reported.value))
  {
    hide Lower, Scan, RecordAll, Accepted, ToSorted, Rank, QuantileNearestRank, Midpoint, Within, IsNearestRank;
    var accepted := Accepted(c, samples);
    CountIsAccepted(c, samples);
    if accepted == [] {
      NoNearestRank(fraction, exact);
    } else if IsNearestRank(accepted, fraction, exact) {
      ExactQuantileRank(accepted, fraction);
      NearestRankExactly(accepted, fraction, exact);
      ExactQuantileBucket(c, samples, fraction);
      var h := RecordAll(c, samples);
      var rank := Rank(h.count, fraction);
      WithinZero(c.accuracy);
      if rank > h.zeroCount {
        var k := Scan(h.counts, 0, h.zeroCount, rank).value;
        LowestBelow(c, k);
        MidpointAccuracy(c, exact, k);
        OneBucket(c, exact, k);
        MidpointIs(c, k);
      }
    }
  }

  lemma MidpointIs(c: Config, k: nat)
    requires ConfigOk(c)
    ensures var m := Lower(c, k) * (1.0 + c.accuracy); Midpoint(c, k) == if c.highest < m then c.highest else m
  {
    hide Lower;
  }

  /** The bounds of a bucket determine it. */
  lemma OneBucket(c: Config, ms: real, k: nat)
    requires ConfigOk(c) && c.lowest <= ms && Lower(c, k) <= ms < Lower(c, k + 1)
    ensures BucketIndex(c, ms) == k
  {
    BucketBefore(c, ms, k);
    BucketBefore(c, ms, k + 1);
  }

  function Representatives(c: Config, values: seq<real>): seq<real>
    requires ConfigOk(c)
  {
    if values == [] then []
    else Representatives(c, values[..|values| - 1]) + [Representative(c, values[|values| - 1])]
  }

  lemma NoNearestRank(fraction: real, v: real)
    ensures !IsNearestRank([], fraction, v)
  {
  }

  /** The fall-through return of the scan is never taken while the buckets account for the count. */
  lemma FallThroughUnreachable(h: Histogram, fraction: real)
    requires Balanced(h) && 0.0 <= fraction <= 1.0
    ensures var rank := Rank(h.count, fraction);
            h.count > 0 && rank > h.zeroCount ==> Scan(h.counts, 0, h.zeroCount, rank).Some?
  {
    hide Scan, Rank, Total;
    var rank := Rank(h.count, fraction);
    if h.count > 0 && rank > h.zeroCount {
      RankInCount(h.count, fraction);
      TotalNone(h.counts);
      ScanFinds(h.counts, h.zeroCount, 0, rank);
    }
  }

  lemma RankMonotone(count: nat, f: real, g: real)
    requires 0.0 <= f <= g <= 1.0
    ensures Rank(count, f) <= Rank(count, g)
  {
    Scale(count as real, f, g);
    CeilingMonotone(count as real * f, count as real * g);
  }

  lemma Scale(x: real, f: real, g: real)
    requires x >= 0.0 && f <= g
    ensures x * f <= x * g
  {
  }

  lemma CeilingMonotone(x: real, y: real)
    requires x <= y
    ensures Ceiling(x) <= Ceiling(y)
  {
  }

  lemma {:induction false} TotalMonotone(counts: seq<nat>, i: nat, j: nat)
    requires i <= j <= |counts|
    ensures Total(counts, i) <= Total(counts, j)
    decreases j - i
  {
    if i < j {
      TotalMonotone(counts, i, j - 1);
    }
  }

  lemma MidpointMonotone(c: Config, i: nat, j: nat)
    requires ConfigOk(c) && i <= j
    ensures 0.0 < Midpoint(c, i) <= Midpoint(c, j) <= c.highest
  {
    LowerMonotone(c, i, j);
    LowestBelow(c, i);
    assert Lower(c, i) * (1.0 + c.accuracy) <= Lower(c, j) * (1.0 + c.accuracy);
    assert Lower(c, i) * (1.0 + c.accuracy) >= Lower(c, i) * 1.0;
  }

  /** Percentiles are ordered by their fractions and bounded by the highest trackable latency. */
  lemma QuantileMonotone(c: Config, h: Histogram, f: real, g: real)
    requires ConfigOk(c) && h.count > 0 && 0.0 <= f <= g <= 1.0
    ensures Quantile(c, h, f).Some? && Quantile(c, h, g).Some?
    ensures 0.0 <= Quantile(c, h, f).value <= Quantile(c, h, g).value <= c.highest
  {
    hide Scan, Rank, Midpoint, Total;
    var p, q := Rank(h.count, f), Rank(h.count, g);
    RankMonotone(h.count, f, g);
    TotalNone(h.counts);
    if q > h.zeroCount {
      ScanFinds(h.counts, h.zeroCount, 0, q);
      var j := Scan(h.counts, 0, h.zeroCount, q);
      if j.Some? {
        MidpointMonotone(c, j.value, j.value);
      }
      if p > h.zeroCount {
        ScanFinds(h.counts, h.zeroCount, 0, p);
        var i := Scan(h.counts, 0, h.zeroCount, p);
        if i.Some? {
          MidpointMonotone(c, i.value, i.value);
        }
        if j.Some? {
          TotalMonotone(h.counts, j.value + 1, |h.counts|);
          if i.Some? && i.value > j.value {
            TotalMonotone(h.counts, j.value + 1, i.value);
          } else if i.Some? {
            MidpointMonotone(c, i.value, j.value);
          }
        }
      }
    }
  }

  // ---------------------------------------------------------------- mean

  function Sum(s: seq<real>): real {
    if s == [] then 0.0 else Sum(s[..|s| - 1]) + s[|s| - 1]
  }

  lemma {:induction false} WeightedUpdate(c: Config, counts: seq<nat>, k: nat, n: nat)
    requires k < |counts| && n <= |counts|
    ensures Weighted(c, counts[k := counts[k] + 1], n) == Weighted(c, counts, n) + if k < n then Midpoint(c, k) else 0.0
  {
    hide Midpoint;
    if n > 0 {
      WeightedUpdate(c, counts, k, n - 1);
      if k == n - 1 {
        assert (counts[k] + 1) as real == counts[k] as real + 1.0;
        assert Midpoint(c, k) * (counts[k] as real + 1.0) == Midpoint(c, k) * counts[k] as real + Midpoint(c, k);
      }
    }
  }

  lemma {:induction false} WeightedZero(c: Config, counts: seq<nat>, n: nat)
    requires n <= |counts| && forall i :: 0 <= i < |counts| ==> counts[i] == 0
    ensures Weighted(c, counts, n) == 0.0
  {
    hide Midpoint;
    if n > 0 {
      WeightedZero(c, counts, n - 1);
    }
  }

  lemma {:induction false} WeightedAccuracy(c: Config, samples: seq<Sample>)
    requires ConfigOk(c)
    ensures var h := RecordAll(c, samples);
            Within(c.accuracy, Sum(Accepted(c, samples)), Weighted(c, h.counts, |h.counts|))
    decreases |samples|
  {
    hide Lower, BucketCount, BucketIndex, Midpoint, Weighted, Within;
    if samples == [] {
      WithinZero(c.accuracy);
      WeightedZero(c, Empty(c).counts, |Empty(c).counts|);
    } else {
      var front, last := samples[..|samples| - 1], samples[|samples| - 1];
      WeightedAccuracy(c, front);
      var h := RecordAll(c, front);
      var sum := Sum(Accepted(c, front));
      if last.Finite? && InRange(c, last.ms) {
        assert Accepted(c, samples)[..|Accepted(c, samples)| - 1] == Accepted(c, front);
        if last.ms != 0.0 {
          var k := BucketIndex(c, last.ms);
          ClampNeverBinds(c, last.ms);
          WeightedUpdate(c, h.counts, k, |h.counts|);
          MidpointAccuracy(c, last.ms, k);
          WithinSum(c.accuracy, sum, Weighted(c, h.counts, |h.counts|), last.ms, Midpoint(c, k));
        }
      } else {
        assert Accepted(c, samples) == Accepted(c, front);
      }
    }
  }

  lemma NoRepresentatives(c: Config)
    requires ConfigOk(c)
    ensures Sum(Representatives(c, [])) == 0.0
  {
  }

  lemma RepresentativesLast(c: Config, values: seq<real>, ms: real)
    requires ConfigOk(c)
    ensures Sum(Representatives(c, values + [ms])) == Sum(Representatives(c, values)) + Representative(c, ms)
  {
    hide Representative;
    assert (values + [ms])[..|values|] == values;
    var before := Representatives(c, values);
    assert (before + [Representative(c, ms)])[..|before|] == before;
  }

  lemma RepresentativeIs(c: Config, ms: real)
    requires ConfigOk(c) && InRange(c, ms)
    ensures Representative(c, ms) == if ms == 0.0 then 0.0 else Midpoint(c, BucketIndex(c, ms))
  {
    hide Lower;
  }

  /** The weighted midpoints add up to what stands for the accepted samples. */
  lemma {:induction false} WeightedExact(c: Config, samples: seq<Sample>)
    requires ConfigOk(c)
    ensures var h := RecordAll(c, samples);
            Weighted(c, h.counts, |h.counts|) == Sum(Representatives(c, Accepted(c, samples)))
    decreases |samples|
  {
    hide Lower, BucketCount, BucketIndex, Midpoint, Weighted, Representative, Representatives, Sum;
    if samples == [] {
      WeightedZero(c, Empty(c).counts, |Empty(c).counts|);
      NoRepresentatives(c);
    } else {
      var front, last := samples[..|samples| - 1], samples[|samples| - 1];
      WeightedExact(c, front);
      var h := RecordAll(c, front);
      if last.Finite? && InRange(c, last.ms) {
        RepresentativesLast(c, Accepted(c, front), last.ms);
        RepresentativeIs(c, last.ms);
        if last.ms != 0.0 {
          ClampNeverBinds(c, last.ms);
          WeightedUpdate(c, h.counts, BucketIndex(c, last.ms), |h.counts|);
        }
      } else {
        assert Accepted(c, samples) == Accepted(c, front);
      }
    }
  }

  /**
    * The reported mean is the mean of what stands for the accepted samples, and within the configured accuracy of their
    * true mean.
    */
  lemma AverageAccuracy(c: Config, samples: seq<Sample>)
    requires ConfigOk(c)
    ensures var accepted := Accepted(c, samples);
            var reported := Average(c, RecordAll(c, samples));
            && (reported.Some? <==> accepted != [])
            && (accepted != [] ==> reported.value == Sum(Representatives(c, accepted)) / |accepted| as real)
            && (accepted != [] ==> Within(c.accuracy, Sum(accepted) / |accepted| as real, reported.value))
  {
    hide Weighted, RecordAll, Accepted, Sum, Within, Representatives;
    var accepted := Accepted(c, samples);
    CountIsAccepted(c, samples);
    WeightedAccuracy(c, samples);
    WeightedExact(c, samples);
    if accepted != [] {
      var h := RecordAll(c, samples);
      DivideBounds(Weighted(c, h.counts, |h.counts|), Sum(accepted), c.accuracy, |accepted| as real);
    }
  }

  lemma DivideBounds(reported: real, sum: real, accuracy: real, n: real)
    requires n > 0.0 && Within(accuracy, sum, reported)
    ensures Within(accuracy, sum / n, reported / n)
  {
    var p, q := reported / n, sum / n;
    assert p * n == reported && q * n == sum;
    assert accuracy * (q * n) == (accuracy * q) * n;
    assert (p - q) * n == reported - sum;
    assert (-(accuracy * q)) * n == -((accuracy * q) * n);
    Cancel(p - q, accuracy * q, n);
    Cancel(-(accuracy * q), p - q, n);
  }
}
