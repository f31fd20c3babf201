/** The recorder as the repository writes it: an array of counters and counter fields updated in place. */
module BoundedLatencyRecorderCode {
  import opened Basics
  import opened LatencyHistogram

  const MAX_BUCKETS := 1_000_000

  datatype ConfigError = BadLowest | BadHighest | BadAccuracy | TooManyBuckets

  /** The constructor's checks in order. */
  function CheckConfig(c: Config): (r: Option<ConfigError>)
    ensures r == None ==> ConfigOk(c)
  {
    if c.lowest <= 0.0 then Some(BadLowest)
    else if c.highest < c.lowest then Some(BadHighest)
    else if c.accuracy <= 0.0 || c.accuracy >= 1.0 then Some(BadAccuracy)
    else if BucketCount(c) > MAX_BUCKETS then Some(TooManyBuckets)
    else None
  }

  method NewRecorder(c: Config) returns (r: Result<BoundedLatencyRecorder, ConfigError>)
    ensures r.Err? <==> CheckConfig(c).Some?
    ensures r.Err? ==> CheckConfig(c) == Some(r.error)
    ensures r.Ok? ==> fresh(r.value) && fresh(r.value.counts) && r.value.config == c
                      && r.value.Valid() && r.value.View() == Empty(c)
  {
    var error := CheckConfig(c);
    if error.Some? {
      return Err(error.value);
    }
    var recorder := new BoundedLatencyRecorder(c);
    return Ok(recorder);
  }

  class BoundedLatencyRecorder {
    const config: Config
    const counts: array<nat>
    var zeroCount: nat
    var count: nat
    var nonFinite: nat
    var belowRange: nat
    var aboveRange: nat

    predicate Valid() {
      ConfigOk(config) && counts.Length == BucketCount(config)
    }

    function View(): Histogram
      reads this, counts
    {
      Histogram(counts[..], zeroCount, count, nonFinite, belowRange, aboveRange)
    }

    constructor (c: Config)
      requires ConfigOk(c)
      ensures config == c && Valid() && fresh(counts) && View() == Empty(c)
    {
      config := c;
      counts := new nat[BucketCount(c)](_ => 0);
      zeroCount, count, nonFinite, belowRange, aboveRange := 0, 0, 0, 0, 0;
    }

    method Record(sample: Sample)
      requires Valid()
      modifies this, counts
      ensures View() == LatencyHistogram.Record(config, old(View()), sample)
    {
      hide BucketCount, BucketIndex, Lower;
      if sample.NonFinite? {
        nonFinite := nonFinite + 1;
        return;
      }
      var ms := sample.ms;
      if ms == 0.0 {
        zeroCount := zeroCount + 1;
        count := count + 1;
        return;
      }
      if ms < config.lowest {
        belowRange := belowRange + 1;
        return;
      }
      if ms > config.highest {
        aboveRange := aboveRange + 1;
        return;
      }
      var bucket := BucketIndex(config, ms);
      var index := if counts.Length - 1 < bucket then counts.Length - 1 else bucket;
      ClampNeverBinds(config, ms);
      counts[index] := counts[index] + 1;
      count := count + 1;
    }

    method Merge(value: Snapshot) returns (thrown: Option<SnapshotError>)
      requires Valid()
      modifies this, counts
      ensures match LatencyHistogram.Merge(config, old(View()), value)
              case Err(e) => thrown == Some(e) && View() == old(View())
              case Ok(h) => thrown == None && View() == h
    {
      hide BucketCount, SafeCounters, Total;
      thrown := Validate(config, value);
      if thrown.Some? {
        return;
      }
      ghost var before := counts[..];
      for index := 0 to counts.Length
        invariant View() == old(View()).(counts := counts[..])
        invariant forall i :: 0 <= i < index ==> counts[i] == before[i] + value.histogram.counts[i]
        invariant forall i :: index <= i < counts.Length ==> counts[i] == before[i]
      {
        counts[index] := counts[index] + value.histogram.counts[index];
      }
      zeroCount := zeroCount + value.histogram.zeroCount;
      count := count + value.histogram.count;
      nonFinite := nonFinite + value.histogram.nonFinite;
      belowRange := belowRange + value.histogram.belowRange;
      aboveRange := aboveRange + value.histogram.aboveRange;
      assert counts[..] == AddCounts(before, value.histogram.counts);
    }

    method TakeSnapshot() returns (s: Snapshot)
      ensures s == Snapshot(1, config, View())
    {
      s := Snapshot(1, config, Histogram(counts[..], zeroCount, count, nonFinite, belowRange, aboveRange));
    }

    method Reset()
      requires Valid()
      modifies this, counts
      ensures View() == Empty(config)
    {
      hide BucketCount;
      for index := 0 to counts.Length
        invariant forall i :: 0 <= i < index ==> counts[i] == 0
      {
        counts[index] := 0;
      }
      zeroCount, count, nonFinite, belowRange, aboveRange := 0, 0, 0, 0, 0;
      assert counts[..] == Empty(config).counts;
    }

    method ReadQuantile(fraction: real) returns (q: Option<real>)
      ensures q == Quantile(config, View(), fraction)
    {
      hide Rank, Midpoint;
      if count == 0 {
        return None;
      }
      var rank := Rank(count, fraction);
      if rank <= zeroCount {
        return Some(0.0);
      }
      var cumulative: nat := zeroCount;
      for index := 0 to counts.Length
        invariant Scan(counts[..], index, cumulative, rank) == Scan(counts[..], 0, zeroCount, rank)
      {
        assert Scan(counts[..], index, cumulative, rank)
            == if cumulative + counts[index] >= rank then Some(index)
               else Scan(counts[..], index + 1, cumulative + counts[index], rank);
        cumulative := cumulative + counts[index];
        if cumulative >= rank {
          return Some(Midpoint(config, index));
        }
      }
      return Some(config.highest);
    }

    method ReadAverage() returns (average: Option<real>)
      ensures average == Average(config, View())
    {
      hide Midpoint;
      if count == 0 {
        return None;
      }
      var totalMs := 0.0;
      for index := 0 to counts.Length
        invariant totalMs == Weighted(config, counts[..], index)
      {
        var bucketCount := counts[index];
        if bucketCount == 0 {
          assert Weighted(config, counts[..], index + 1) == totalMs;
          continue;
        }
        totalMs := totalMs + Midpoint(config, index) * bucketCount as real;
      }
      return Some(totalMs / count as real);
    }
  }
}
