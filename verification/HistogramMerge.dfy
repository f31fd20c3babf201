/** Merging snapshots is recording all the samples, in any grouping and any order. */
module HistogramMerge {
  import opened Basics
  import opened LatencyHistogram
  import opened HistogramAccuracy

  lemma AddEmpty(c: Config, h: Histogram)
    requires ConfigOk(c) && |h.counts| == BucketCount(c)
    ensures Add(h, Empty(c)) == h && Add(Empty(c), h) == h
  {
    hide BucketCount;
    assert AddCounts(h.counts, Empty(c).counts) == h.counts;
    assert AddCounts(Empty(c).counts, h.counts) == h.counts;
  }

  lemma AddCommutes(a: Histogram, b: Histogram)
    requires |a.counts| == |b.counts|
    ensures Add(a, b) == Add(b, a)
  {
    assert AddCounts(a.counts, b.counts) == AddCounts(b.counts, a.counts);
  }

  lemma RecordAdds(c: Config, a: Histogram, b: Histogram, sample: Sample)
    requires ConfigOk(c) && |a.counts| == |b.counts| == BucketCount(c)
    ensures Record(c, Add(a, b), sample) == Add(a, Record(c, b, sample))
  {
    hide BucketCount, BucketIndex, Lower;
    if sample.Finite? && sample.ms != 0.0 && c.lowest <= sample.ms <= c.highest {
      ClampNeverBinds(c, sample.ms);
      var i := BucketIndex(c, sample.ms);
      assert AddCounts(a.counts, b.counts)[i := a.counts[i] + b.counts[i] + 1]
          == AddCounts(a.counts, b.counts[i := b.counts[i] + 1]);
    }
  }

  /** One recorder fed two lists is the sum of two recorders fed one each. */
  lemma {:induction false} RecordAppend(c: Config, a: seq<Sample>, b: seq<Sample>)
    requires ConfigOk(c)
    ensures RecordAll(c, a + b) == Add(RecordAll(c, a), RecordAll(c, b))
    decreases |b|
  {
    hide BucketCount, Add, Record, Empty;
    if b == [] {
      assert a + b == a;
      AddEmpty(c, RecordAll(c, a));
    } else {
      var front, last := b[..|b| - 1], b[|b| - 1];
      assert (a + b)[..|a + b| - 1] == a + front;
      RecordAppend(c, a, front);
      RecordAdds(c, RecordAll(c, a), RecordAll(c, front), last);
    }
  }

  /** The order in which samples arrive leaves no trace. */
  lemma {:induction false} RecordPermutation(c: Config, a: seq<Sample>, b: seq<Sample>)
    requires ConfigOk(c) && multiset(a) == multiset(b)
    ensures RecordAll(c, a) == RecordAll(c, b)
    decreases |a|
  {
    hide BucketCount, Add, RecordAll, Record;
    assert |a| == |multiset(a)| == |multiset(b)| == |b|;
    if a == [] {
      assert b == [];
    } else {
      var x := a[|a| - 1];
      var front := a[..|a| - 1];
      assert a == front + [x];
      assert x in multiset(b);
      var k :| 0 <= k < |b| && b[k] == x;
      RemoveAt(b, k);
      RemoveAt(a, |a| - 1);
      assert a[..|a| - 1] + a[|a|..] == front;
      var others := b[..k] + b[k + 1..];
      RecordPermutation(c, front, others);
      MoveToEnd(c, b, k);
      RecordLast(c, front, x);
      RecordLast(c, others, x);
    }
  }

  lemma RecordLast(c: Config, front: seq<Sample>, x: Sample)
    requires ConfigOk(c)
    ensures RecordAll(c, front + [x]) == Record(c, RecordAll(c, front), x)
  {
    hide Record;
    assert (front + [x])[..|front|] == front;
  }

  lemma MoveToEnd(c: Config, b: seq<Sample>, k: nat)
    requires ConfigOk(c) && k < |b|
    ensures RecordAll(c, b) == RecordAll(c, b[..k] + b[k + 1..] + [b[k]])
  {
    hide BucketCount, Add, RecordAll;
    var left, x, right := b[..k], [b[k]], b[k + 1..];
    assert b == left + (x + right);
    assert left + right + x == left + (right + x);
    RecordAppend(c, left, x + right);
    RecordAppend(c, left, right + x);
    RecordAppend(c, x, right);
    RecordAppend(c, right, x);
    AddCommutes(RecordAll(c, x), RecordAll(c, right));
  }

  // ---------------------------------------------------------------- snapshots

  function SnapshotOf(c: Config, samples: seq<Sample>): Snapshot
    requires ConfigOk(c)
  {
    Snapshot(1, c, RecordAll(c, samples))
  }

  lemma {:induction false} BucketAtMostTotal(counts: seq<nat>, i: nat, n: nat)
    requires i < n <= |counts|
    ensures counts[i] <= Total(counts, n)
    decreases n
  {
    if i < n - 1 {
      BucketAtMostTotal(counts, i, n - 1);
    }
  }

  predicate SafeTotals(h: Histogram) {
    h.count <= MAX_SAFE_INTEGER && h.nonFinite <= MAX_SAFE_INTEGER
    && h.belowRange <= MAX_SAFE_INTEGER && h.aboveRange <= MAX_SAFE_INTEGER
  }

  /** A recorder's own snapshot passes validation exactly while its four totals are safe integers. */
  lemma OwnSnapshotValid(c: Config, samples: seq<Sample>)
    requires ConfigOk(c)
    ensures Validate(c, SnapshotOf(c, samples)) == None <==> SafeTotals(RecordAll(c, samples))
  {
    hide RecordAll, BucketCount, Total, Accepted;
    var h := RecordAll(c, samples);
    CountIsAccepted(c, samples);
    forall i | 0 <= i < |h.counts|
      ensures h.counts[i] <= h.count
    {
      BucketAtMostTotal(h.counts, i, |h.counts|);
    }
  }

  /** A last bucket that begins above the highest latency takes no sample. */
  predicate TopEmpty(c: Config, h: Histogram)
    requires ConfigOk(c)
  {
    var top := BucketCount(c) - 1;
    top < |h.counts| && (Lower(c, top) > c.highest ==> h.counts[top] == 0)
  }

  lemma {:induction false} RecordedTopEmpty(c: Config, samples: seq<Sample>)
    requires ConfigOk(c)
    ensures TopEmpty(c, RecordAll(c, samples))
    decreases |samples|
  {
    assert BucketCount(c) >= 1;
    hide Lower, BucketCount;
    if samples != [] {
      RecordedTopEmpty(c, samples[..|samples| - 1]);
      var last := samples[|samples| - 1];
      if last.Finite? && c.lowest <= last.ms <= c.highest {
        ClampNeverBinds(c, last.ms);
      }
      hide BucketIndex;
    }
  }

  /** A latency that falls in a bucket. */
  lemma BucketTakes(c: Config, h: Histogram, i: nat)
    requires ConfigOk(c) && |h.counts| == BucketCount(c) && i < |h.counts|
    requires TopEmpty(c, h) && h.counts[i] > 0
    ensures c.lowest <= Lower(c, i) <= c.highest && BucketIndex(c, Lower(c, i)) == i
  {
    hide Lower;
    var top := BucketCount(c) - 1;
    LowestBelow(c, i);
    LowerMonotone(c, i, i + 1);
    OneBucket(c, Lower(c, i), i);
    BucketCountExact(c, top);
    if i < top {
      LowerMonotone(c, i, top - 1);
    }
  }

  lemma NoCounters(c: Config, h: Histogram)
    requires ConfigOk(c) && |h.counts| == BucketCount(c) && Balanced(h)
    requires h.nonFinite == h.belowRange == h.aboveRange == h.zeroCount == 0
    requires forall i :: 0 <= i < |h.counts| ==> h.counts[i] == 0
    ensures h == Empty(c)
  {
    TotalZero(h.counts, |h.counts|);
    assert h.counts == Empty(c).counts;
  }

  /** Samples that give these counters: balanced ones with nothing in a bucket that no latency falls in. */
  lemma {:induction false} Realize(c: Config, h: Histogram) returns (samples: seq<Sample>)
    requires ConfigOk(c) && |h.counts| == BucketCount(c) && Balanced(h) && TopEmpty(c, h)
    ensures RecordAll(c, samples) == h
    decreases h.count + h.nonFinite + h.belowRange + h.aboveRange, 1
  {
    hide Lower, BucketCount, BucketIndex, Total, RecordAll;
    if h.nonFinite > 0 {
      samples := Realize(c, h.(nonFinite := h.nonFinite - 1));
      RecordLast(c, samples, NonFinite);
      samples := samples + [NonFinite];
    } else if h.belowRange > 0 {
      samples := Realize(c, h.(belowRange := h.belowRange - 1));
      RecordLast(c, samples, Finite(c.lowest / 2.0));
      samples := samples + [Finite(c.lowest / 2.0)];
    } else if h.aboveRange > 0 {
      samples := Realize(c, h.(aboveRange := h.aboveRange - 1));
      RecordLast(c, samples, Finite(c.highest + 1.0));
      samples := samples + [Finite(c.highest + 1.0)];
    } else if h.zeroCount > 0 {
      samples := Realize(c, h.(zeroCount := h.zeroCount - 1, count := h.count - 1));
      RecordLast(c, samples, Finite(0.0));
      samples := samples + [Finite(0.0)];
    } else if i :| 0 <= i < |h.counts| && h.counts[i] > 0 {
      samples := RealizeBucket(c, h, i);
    } else {
      NoCounters(c, h);
      samples := [];
      NothingRecorded(c);
    }
  }

  lemma NothingRecorded(c: Config)
    requires ConfigOk(c)
    ensures RecordAll(c, []) == Empty(c)
  {
  }

  lemma {:induction false} RealizeBucket(c: Config, h: Histogram, i: nat) returns (samples: seq<Sample>)
    requires ConfigOk(c) && |h.counts| == BucketCount(c) && Balanced(h) && TopEmpty(c, h)
    requires i < |h.counts| && h.counts[i] > 0
    ensures RecordAll(c, samples) == h
    decreases h.count + h.nonFinite + h.belowRange + h.aboveRange, 0
  {
    hide Lower, BucketCount, BucketIndex, RecordAll, Total;
    var fewer := h.counts[i := h.counts[i] - 1];
    TotalUpdate(fewer, i, |fewer|);
    assert fewer[i := fewer[i] + 1] == h.counts;
    BucketTakes(c, h, i);
    var less := h.(counts := fewer, count := h.count - 1);
    samples := Realize(c, less);
    RecordLast(c, samples, Finite(Lower(c, i)));
    samples := samples + [Finite(Lower(c, i))];
  }

  /** The snapshot is one that a recorder of this configuration with safe totals can take. */
  predicate TakenFrom(c: Config, s: Snapshot, samples: seq<Sample>)
    requires ConfigOk(c)
  {
    s.version == 1 && s.config == c && s.histogram == RecordAll(c, samples) && SafeTotals(s.histogram)
  }

  /** A snapshot is valid, with nothing in a bucket no latency falls in, exactly when some recorder took it. */
  lemma ValidExactly(c: Config, s: Snapshot)
    requires ConfigOk(c)
    ensures Validate(c, s) == None && TopEmpty(c, s.histogram) <==> exists samples :: TakenFrom(c, s, samples)
  {
    hide RecordAll, BucketCount, TopEmpty, Lower;
    if Validate(c, s) == None && TopEmpty(c, s.histogram) {
      var samples := Realize(c, s.histogram);
      assert TakenFrom(c, s, samples);
    }
    forall samples | TakenFrom(c, s, samples)
      ensures Validate(c, s) == None && TopEmpty(c, s.histogram)
    {
      RecordedTopEmpty(c, samples);
      OwnSnapshotValid(c, samples);
      assert s == SnapshotOf(c, samples);
    }
  }

  /** `merge` of one snapshot after another; the first invalid one throws. */
  function MergeAll(c: Config, h: Histogram, snapshots: seq<Snapshot>): (r: Result<Histogram, SnapshotError>)
    requires ConfigOk(c) && |h.counts| == BucketCount(c)
    ensures r.Ok? ==> |r.value.counts| == BucketCount(c)
    decreases |snapshots|
  {
    if snapshots == [] then Ok(h)
    else
      match Merge(c, h, snapshots[0])
      case Err(e) => Err(e)
      case Ok(next) => MergeAll(c, next, snapshots[1..])
  }

  function Snapshots(c: Config, parts: seq<seq<Sample>>): (r: seq<Snapshot>)
    requires ConfigOk(c)
    ensures |r| == |parts|
  {
    if parts == [] then [] else [SnapshotOf(c, parts[0])] + Snapshots(c, parts[1..])
  }

  predicate AllSafe(c: Config, parts: seq<seq<Sample>>)
    requires ConfigOk(c)
  {
    forall i :: 0 <= i < |parts| ==> SafeTotals(RecordAll(c, parts[i]))
  }

  lemma {:induction false} MergeParts(c: Config, before: seq<Sample>, parts: seq<seq<Sample>>)
    requires ConfigOk(c)
    ensures var r := MergeAll(c, RecordAll(c, before), Snapshots(c, parts));
            && (r.Ok? <==> AllSafe(c, parts))
            && (r.Ok? ==> r.value == RecordAll(c, before + Concat(parts)))
    decreases |parts|
  {
    hide RecordAll, BucketCount, Add, Validate, SafeTotals;
    var snapshots := Snapshots(c, parts);
    if parts == [] {
      assert before + Concat(parts) == before;
    } else {
      OwnSnapshotValid(c, parts[0]);
      assert snapshots[0] == SnapshotOf(c, parts[0]);
      assert snapshots[1..] == Snapshots(c, parts[1..]);
      if SafeTotals(RecordAll(c, parts[0])) {
        RecordAppend(c, before, parts[0]);
        MergeParts(c, before + parts[0], parts[1..]);
        assert before + parts[0] + Concat(parts[1..]) == before + Concat(parts);
        assert AllSafe(c, parts) <==> AllSafe(c, parts[1..]) by {
          assert parts == [parts[0]] + parts[1..];
        }
      }
    }
  }

  /**
    * Merge homomorphism: merging the snapshots of any recorders into an empty one succeeds exactly when each of
    * them is valid, and then equals one recorder fed all their samples, in whatever order.
    */
  lemma MergeHomomorphism(c: Config, parts: seq<seq<Sample>>, samples: seq<Sample>)
    requires ConfigOk(c) && multiset(samples) == multiset(Concat(parts))
    ensures var r := MergeAll(c, Empty(c), Snapshots(c, parts));
            (r.Ok? <==> AllSafe(c, parts)) && (r.Ok? ==> r.value == RecordAll(c, samples))
  {
    hide MergeAll, BucketCount, Snapshots, SafeTotals;
    MergeParts(c, [], parts);
    assert [] + Concat(parts) == Concat(parts);
    RecordPermutation(c, samples, Concat(parts));
  }

  // ---------------------------------------------------------------- recorders in use

  /** What can be done to a recorder; a merge that throws changes nothing. */
  datatype Use = Recording(sample: Sample) | Merging(snapshot: Snapshot)

  function Used(c: Config, uses: seq<Use>): (h: Histogram)
    requires ConfigOk(c)
    ensures |h.counts| == BucketCount(c)
  {
    if uses == [] then Empty(c)
    else
      var before := Used(c, uses[..|uses| - 1]);
      match uses[|uses| - 1]
      case Recording(sample) => Record(c, before, sample)
      case Merging(snapshot) =>
        match Merge(c, before, snapshot)
        case Err(_) => before
        case Ok(merged) => merged
  }

  lemma {:induction false} TotalAdds(a: seq<nat>, b: seq<nat>, n: nat)
    requires |a| == |b| && n <= |a|
    ensures Total(AddCounts(a, b), n) == Total(a, n) + Total(b, n)
  {
    if n > 0 {
      TotalAdds(a, b, n - 1);
    }
  }

  lemma {:induction false} UsedBalanced(c: Config, uses: seq<Use>)
    requires ConfigOk(c)
    ensures Balanced(Used(c, uses))
  {
    hide Lower, BucketCount, BucketIndex, Total;
    if uses == [] {
      CountIsAccepted(c, []);
    } else {
      var before, last := Used(c, uses[..|uses| - 1]), uses[|uses| - 1];
      UsedBalanced(c, uses[..|uses| - 1]);
      match last {
        case Recording(sample) =>
          if sample.Finite? && c.lowest <= sample.ms <= c.highest {
            ClampNeverBinds(c, sample.ms);
            TotalUpdate(before.counts, BucketIndex(c, sample.ms), |before.counts|);
          }
        case Merging(snapshot) =>
          if Validate(c, snapshot) == None {
            TotalAdds(before.counts, snapshot.histogram.counts, |before.counts|);
          }
      }
    }
  }

  /**
    * Whatever was recorded and whatever snapshots were merged, valid or not: a summary value is zero or comes from
    * the bucket that the scan finds.
    */
  lemma NeverFallsThrough(c: Config, uses: seq<Use>, fraction: real)
    requires ConfigOk(c) && 0.0 <= fraction <= 1.0
    ensures var h := Used(c, uses);
            var rank := Rank(h.count, fraction);
            h.count > 0 && rank > h.zeroCount ==> Scan(h.counts, 0, h.zeroCount, rank).Some?
  {
    hide Scan, Rank, Used, Balanced;
    UsedBalanced(c, uses);
    FallThroughUnreachable(Used(c, uses), fraction);
  }
}
