/**
  * Summing up the workers of a load (src/load/shared/aggregate-load-phase.ts): totals and one merged histogram,
  * and what the totals and the reported percentiles mean for the requests of all workers together.
  */
module AggregateLoad {
  import opened Basics
  import opened Http1Engine
  import opened EngineInvariant
  import opened LatencyHistogram
  import HistogramAccuracy
  import HistogramMerge
  import EngineRuns
  import EngineTheorems
  import opened BoundedLatencyRecorderCode

  /** What a worker posts: its counters, the histogram of its latencies and what was in flight at the end. */
  datatype WorkerResult = WorkerResult(m: Measurement, latency: Histogram, inFlightAtStop: nat)

  datatype Totals = Totals(
    sent: nat,
    completed: nat,
    connectionErrors: nat,
    timeouts: nat,
    protocolErrors: nat,
    aborted: nat,
    rateDropped: nat,
    inFlightAtStop: nat)

  const NO_TOTALS := Totals(0, 0, 0, 0, 0, 0, 0, 0)

  function AddWorker(t: Totals, r: WorkerResult): Totals {
    Totals(t.sent + r.m.sent, t.completed + r.m.completed, t.connectionErrors + r.m.connectionErrors,
           t.timeouts + r.m.timeouts, t.protocolErrors + r.m.protocolErrors, t.aborted + r.m.aborted,
           t.rateDropped + r.m.rateDropped, t.inFlightAtStop + r.inFlightAtStop)
  }

  function TotalsOf(workers: seq<WorkerResult>): Totals {
    if workers == [] then NO_TOTALS else AddWorker(TotalsOf(workers[..|workers| - 1]), workers[|workers| - 1])
  }

  /** What a total counts. */
  datatype Counter = Sent | Completed | ConnectionErrors | Timeouts | ProtocolErrors | Aborted | RateDropped | InFlight

  function OfWorker(r: WorkerResult, counter: Counter): nat {
    match counter
    case Sent => r.m.sent
    case Completed => r.m.completed
    case ConnectionErrors => r.m.connectionErrors
    case Timeouts => r.m.timeouts
    case ProtocolErrors => r.m.protocolErrors
    case Aborted => r.m.aborted
    case RateDropped => r.m.rateDropped
    case InFlight => r.inFlightAtStop
  }

  function OfTotals(t: Totals, counter: Counter): nat {
    match counter
    case Sent => t.sent
    case Completed => t.completed
    case ConnectionErrors => t.connectionErrors
    case Timeouts => t.timeouts
    case ProtocolErrors => t.protocolErrors
    case Aborted => t.aborted
    case RateDropped => t.rateDropped
    case InFlight => t.inFlightAtStop
  }

  function SumOf(workers: seq<WorkerResult>, counter: Counter): nat {
    if workers == [] then 0 else OfWorker(workers[0], counter) + SumOf(workers[1..], counter)
  }

  lemma {:induction false} SumOfLast(workers: seq<WorkerResult>, last: WorkerResult, counter: Counter)
    ensures SumOf(workers + [last], counter) == SumOf(workers, counter) + OfWorker(last, counter)
    decreases |workers|
  {
    hide OfWorker;
    if workers == [] {
      assert workers + [last] == [last];
      assert [last][1..] == [];
    } else {
      assert (workers + [last])[1..] == workers[1..] + [last];
      SumOfLast(workers[1..], last, counter);
    }
  }

  /** Every total is the sum of that counter, and of no other, over all the workers. */
  lemma {:induction false} TotalsExact(workers: seq<WorkerResult>, counter: Counter)
    ensures OfTotals(TotalsOf(workers), counter) == SumOf(workers, counter)
    decreases |workers|
  {
    if workers != [] {
      var n := |workers| - 1;
      TotalsExact(workers[..n], counter);
      SumOfLast(workers[..n], workers[n], counter);
      assert workers == workers[..n] + [workers[n]];
      hide SumOf;
    }
  }

  function SnapshotsOf(c: Config, workers: seq<WorkerResult>): (s: seq<Snapshot>)
    ensures |s| == |workers| && forall i :: 0 <= i < |s| ==> s[i] == Snapshot(1, c, workers[i].latency)
  {
    seq(|workers|, i requires 0 <= i < |workers| => Snapshot(1, c, workers[i].latency))
  }

  lemma {:induction false} MergeAllLast(c: Config, h: Histogram, front: seq<Snapshot>, last: Snapshot)
    requires ConfigOk(c) && |h.counts| == BucketCount(c)
    ensures var before := HistogramMerge.MergeAll(c, h, front);
            HistogramMerge.MergeAll(c, h, front + [last])
            == (if before.Err? then before else Merge(c, before.value, last))
    decreases |front|
  {
    hide Merge, BucketCount;
    if front == [] {
      assert front + [last] == [last];
      assert [last][1..] == [];
    } else {
      assert (front + [last])[1..] == front[1..] + [last];
      var next := Merge(c, h, front[0]);
      if next.Ok? {
        MergeLength(c, h, front[0]);
        MergeAllLast(c, next.value, front[1..], last);
      }
    }
  }

  lemma MergeLength(c: Config, h: Histogram, s: Snapshot)
    requires ConfigOk(c) && |h.counts| == BucketCount(c)
    ensures Merge(c, h, s).Ok? ==> |Merge(c, h, s).value.counts| == BucketCount(c)
  {
  }

  /** The loop over the workers; a snapshot that does not validate throws. */
  method AggregateLoadPhase(c: Config, workers: seq<WorkerResult>)
    returns (totals: Totals, latency: Result<Histogram, SnapshotError>)
    requires ConfigOk(c)
    ensures latency == HistogramMerge.MergeAll(c, Empty(c), SnapshotsOf(c, workers))
    ensures latency.Ok? ==> totals == TotalsOf(workers)
  {
    hide Merge, BucketCount, AddWorker;
    var recorder := new BoundedLatencyRecorder(c);
    totals := NO_TOTALS;
    ghost var snapshots := SnapshotsOf(c, workers);
    for index := 0 to |workers|
      invariant fresh(recorder) && fresh(recorder.counts) && recorder.config == c
      invariant totals == TotalsOf(workers[..index])
      invariant HistogramMerge.MergeAll(c, Empty(c), snapshots[..index]) == Ok(recorder.View())
    {
      assert workers[..index + 1][..index] == workers[..index];
      assert snapshots[..index + 1] == snapshots[..index] + [snapshots[index]];
      MergeAllLast(c, Empty(c), snapshots[..index], snapshots[index]);
      var thrown := recorder.Merge(Snapshot(1, c, workers[index].latency));
      if thrown.Some? {
        MergeAllStops(c, Empty(c), snapshots[..index + 1], snapshots[index + 1..]);
        assert snapshots[..index + 1] + snapshots[index + 1..] == snapshots;
        latency := Err(thrown.value);
        return;
      }
      totals := AddWorker(totals, workers[index]);
    }
    assert workers[..|workers|] == workers && snapshots[..|workers|] == snapshots;
    latency := Ok(recorder.View());
  }

  lemma {:induction false} MergeAllStops(c: Config, h: Histogram, front: seq<Snapshot>, rest: seq<Snapshot>)
    requires ConfigOk(c) && |h.counts| == BucketCount(c)
    requires HistogramMerge.MergeAll(c, h, front).Err?
    ensures HistogramMerge.MergeAll(c, h, front + rest) == HistogramMerge.MergeAll(c, h, front)
    decreases |front|
  {
    hide Merge, BucketCount;
    if front != [] {
      assert (front + rest)[1..] == front[1..] + rest;
      var next := Merge(c, h, front[0]);
      if next.Ok? {
        MergeLength(c, h, front[0]);
        MergeAllStops(c, next.value, front[1..], rest);
      }
    }
  }

  // ---------------------------------------------------------------- what the aggregate means

  /** A result as a worker posts it. */
  predicate PostedBy(d: Options, r: WorkerResult) {
    ConfigOk(d.histogram) && ResultOk(d, Posted(r.m, r.inFlightAtStop))
    && r.latency == RecordAll(d.histogram, r.m.latencies)
  }

  /** Every message a reachable worker posted as its result is one. */
  lemma ReachableResult(d: Options, w: Worker, k: nat)
    requires OptionsOk(d) && EngineRuns.Reachable(d, w) && k < |w.posted| && w.posted[k].Posted?
    ensures var m := w.posted[k].result;
            PostedBy(d, WorkerResult(m, RecordAll(d.histogram, m.latencies), w.posted[k].inFlightAtStop))
  {
    hide RecordAll, ConnsOk;
    EngineTheorems.ReachableInv(d, w);
    assert ResultOk(d, w.posted[k]);
  }

  predicate AllPosted(c: Config, data: seq<Options>, workers: seq<WorkerResult>) {
    |data| == |workers| && forall i :: 0 <= i < |workers| ==> PostedAt(c, data, workers, i)
  }

  predicate PostedAt(c: Config, data: seq<Options>, workers: seq<WorkerResult>, i: nat)
    requires i < |workers| == |data|
  {
    data[i].histogram == c && PostedBy(data[i], workers[i])
  }

  lemma AllPostedFront(c: Config, data: seq<Options>, workers: seq<WorkerResult>)
    requires AllPosted(c, data, workers) && workers != []
    ensures AllPosted(c, data[..|data| - 1], workers[..|workers| - 1])
  {
    hide PostedBy;
    var data0, workers0 := data[..|data| - 1], workers[..|workers| - 1];
    forall i | 0 <= i < |workers0|
      ensures PostedAt(c, data0, workers0, i)
    {
      assert PostedAt(c, data, workers, i);
    }
  }

  /** The latencies that each worker recorded. */
  function Latencies(workers: seq<WorkerResult>): (parts: seq<seq<Sample>>)
    ensures |parts| == |workers|
  {
    seq(|workers|, i requires 0 <= i < |workers| => workers[i].m.latencies)
  }

  /** The workers' snapshots are those of their latencies, of which there is one for each completed request. */
  lemma {:induction false} SamplesBehind(c: Config, data: seq<Options>, workers: seq<WorkerResult>)
    requires ConfigOk(c) && AllPosted(c, data, workers)
    ensures SnapshotsOf(c, workers) == HistogramMerge.Snapshots(c, Latencies(workers))
    ensures |Concat(Latencies(workers))| == TotalsOf(workers).completed
    decreases |workers|
  {
    hide RecordAll;
    if workers != [] {
      var n := |workers| - 1;
      AllPostedFront(c, data, workers);
      SamplesBehind(c, data[..n], workers[..n]);
      assert PostedAt(c, data, workers, n);
      var samples := workers[n].m.latencies;
      assert Latencies(workers) == Latencies(workers[..n]) + [samples];
      SnapshotsLast(c, Latencies(workers[..n]), samples);
      ConcatLast(Latencies(workers[..n]), samples);
      assert SnapshotsOf(c, workers) == SnapshotsOf(c, workers[..n]) + [Snapshot(1, c, workers[n].latency)];
    }
  }

  lemma {:induction false} SnapshotsLast(c: Config, front: seq<seq<Sample>>, last: seq<Sample>)
    requires ConfigOk(c)
    ensures HistogramMerge.Snapshots(c, front + [last])
         == HistogramMerge.Snapshots(c, front) + [HistogramMerge.SnapshotOf(c, last)]
    decreases |front|
  {
    hide HistogramMerge.SnapshotOf;
    if front == [] {
      assert front + [last] == [last];
      assert [last][1..] == [];
    } else {
      assert (front + [last])[1..] == front[1..] + [last];
      SnapshotsLast(c, front[1..], last);
    }
  }

  lemma {:induction false} ConcatLast(front: seq<seq<Sample>>, last: seq<Sample>)
    ensures Concat(front + [last]) == Concat(front) + last
    decreases |front|
  {
    if front == [] {
      assert front + [last] == [last];
      assert [last][1..] == [];
    } else {
      assert (front + [last])[1..] == front[1..] + [last];
      ConcatLast(front[1..], last);
    }
  }

  /** The totals of a whole load balance as each worker's do. */
  lemma {:induction false} TotalsConserved(c: Config, data: seq<Options>, workers: seq<WorkerResult>)
    requires AllPosted(c, data, workers)
    ensures var t := TotalsOf(workers); t.sent == t.completed + t.aborted + t.inFlightAtStop
    decreases |workers|
  {
    hide Tallies;
    if workers != [] {
      var n := |workers| - 1;
      AllPostedFront(c, data, workers);
      TotalsConserved(c, data[..n], workers[..n]);
      assert PostedAt(c, data, workers, n);
    }
  }

  /** Every fraction's reported percentile, and the mean, are within the accuracy of the exact ones of these samples. */
  ghost predicate Summarizes(c: Config, h: Histogram, samples: seq<Sample>)
    requires ConfigOk(c)
  {
    && h == RecordAll(c, samples)
    && (forall fraction, exact :: 0.0 <= fraction <= 1.0 ==> SummarizesAt(c, h, samples, fraction, exact))
    && MeanOf(c, h, samples)
  }

  predicate MeanOf(c: Config, h: Histogram, samples: seq<Sample>)
    requires ConfigOk(c)
  {
    var accepted := Accepted(c, samples);
    var reported := Average(c, h);
    (reported.Some? <==> accepted != [])
    && (accepted != [] ==>
          reported.value == HistogramAccuracy.Sum(HistogramAccuracy.Representatives(c, accepted)) / |accepted| as real)
    && (accepted != [] ==>
          HistogramAccuracy.Within(c.accuracy, HistogramAccuracy.Sum(accepted) / |accepted| as real, reported.value))
  }

  predicate SummarizesAt(c: Config, h: Histogram, samples: seq<Sample>, fraction: real, exact: real)
    requires ConfigOk(c) && 0.0 <= fraction <= 1.0
  {
    var reported := Quantile(c, h, fraction);
    && (reported.Some? <==> Accepted(c, samples) != [])
    && (HistogramAccuracy.IsNearestRank(Accepted(c, samples), fraction, exact) ==>
          reported == Some(HistogramAccuracy.Representative(c, exact))
          && HistogramAccuracy.Within(c.accuracy, exact, reported.value))
  }

  /**
    * The merged histogram of a load stands for one latency per completed request of all its workers: its
    * percentiles and its mean are within the configured accuracy of the exact ones of all those latencies together.
    */
  lemma AggregateAccuracy(c: Config, data: seq<Options>, workers: seq<WorkerResult>)
    requires ConfigOk(c) && AllPosted(c, data, workers)
    ensures var samples := Concat(Latencies(workers));
            var latency := HistogramMerge.MergeAll(c, Empty(c), SnapshotsOf(c, workers));
            |samples| == TotalsOf(workers).completed && (latency.Ok? ==> Summarizes(c, latency.value, samples))
  {
    hide RecordAll, BucketCount, Quantile, Average, Accepted, HistogramAccuracy.IsNearestRank, HistogramAccuracy.Within,
      HistogramAccuracy.Sum;
    SamplesBehind(c, data, workers);
    var samples := Concat(Latencies(workers));
    HistogramMerge.MergeHomomorphism(c, Latencies(workers), samples);
    var h := RecordAll(c, samples);
    HistogramAccuracy.AverageAccuracy(c, samples);
    forall fraction, exact | 0.0 <= fraction <= 1.0
      ensures SummarizesAt(c, h, samples, fraction, exact)
    {
      HistogramAccuracy.QuantileAccuracy(c, samples, fraction, exact);
    }
  }
}
