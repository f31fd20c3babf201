/**
  * The bounded latency histogram (src/measurement/bounded-latency-recorder.ts) over exact reals: bucket `i` holds
  * the latencies from `lowest * base^i` up to `lowest * base^(i + 1)`.
  */
module LatencyHistogram {
  import opened Basics

  /** Configuration in milliseconds, with the accuracy as a fraction. */
  datatype Config = Config(lowest: real, highest: real, accuracy: real)

  predicate ConfigOk(c: Config) {
    c.lowest > 0.0 && c.highest >= c.lowest && 0.0 < c.accuracy < 1.0
  }

  /** A number handed to `record`; NaN and the infinities are not finite. */
  datatype Sample = Finite(ms: real) | NonFinite

  /** The recorder's counters. */
  datatype Histogram = Histogram(
    counts: seq<nat>,
    zeroCount: nat,
    count: nat,
    nonFinite: nat,
    belowRange: nat,
    aboveRange: nat)

  function Base(c: Config): real {
    1.0 + 2.0 * c.accuracy
  }

  function Power(b: real, n: nat): real {
    if n == 0 then 1.0 else Power(b, n - 1) * b
  }

  /** The lower bound of a bucket. */
  function Lower(c: Config, i: nat): real {
    c.lowest * Power(Base(c), i)
  }

  lemma LowerStep(c: Config, i: nat)
    requires ConfigOk(c)
    ensures Lower(c, i) >= c.lowest
    ensures Lower(c, i + 1) == Lower(c, i) + 2.0 * c.accuracy * Lower(c, i)
    ensures Lower(c, i + 1) >= Lower(c, i) + Width(c) > Lower(c, i)
    ensures Width(c) > 0.0
  {
    PowerAtLeastOne(Base(c), i);
    assert c.lowest * (Power(Base(c), i) * Base(c)) == Lower(c, i) * Base(c);
    assert c.lowest * Power(Base(c), i) >= c.lowest * 1.0;
    var step := 2.0 * c.accuracy;
    assert step * Lower(c, i) >= step * c.lowest;
    assert step * c.lowest > 0.0;
  }

  lemma {:induction false} PowerAtLeastOne(b: real, n: nat)
    requires b >= 1.0
    ensures Power(b, n) >= 1.0
  {
    if n > 0 {
      PowerAtLeastOne(b, n - 1);
      assert Power(b, n - 1) * b >= 1.0 * b;
    }
  }

  lemma {:induction false} LowerMonotone(c: Config, i: nat, j: nat)
    requires ConfigOk(c) && i <= j
    ensures Lower(c, i) <= Lower(c, j)
    ensures i < j ==> Lower(c, i) < Lower(c, j)
    decreases j - i
  {
    if i < j {
      LowerStep(c, j - 1);
      LowerMonotone(c, i, j - 1);
    }
  }

  /** The width of the first bucket, the narrowest. */
  function Width(c: Config): real {
    2.0 * c.accuracy * c.lowest
  }

  function Steps(gap: real, width: real): int
    requires width > 0.0
  {
    (gap / width).Floor
  }

  lemma StepsShrink(a: real, b: real, width: real)
    requires width > 0.0 && a <= b - width && b >= 0.0
    ensures 0 <= Steps(b, width) && Steps(a, width) < Steps(b, width)
  {
    var p, q := a / width, b / width;
    assert p * width == a && q * width == b;
    Cancel(p + 1.0, q, width);
  }

  /** How many more steps of at least that width fit below `limit`. */
  function StepsLeft(c: Config, limit: real, i: nat): int
    requires ConfigOk(c)
  {
    LowerStep(c, i);
    Steps(limit - Lower(c, i), Width(c))
  }

  lemma StepsDecrease(c: Config, limit: real, i: nat)
    requires ConfigOk(c) && Lower(c, i) <= limit
    ensures 0 <= StepsLeft(c, limit, i) && StepsLeft(c, limit, i + 1) < StepsLeft(c, limit, i)
  {
    hide Lower, Steps, Width;
    LowerStep(c, i);
    StepsShrink(limit - Lower(c, i + 1), limit - Lower(c, i), Width(c));
  }

  lemma Cancel(x: real, y: real, width: real)
    requires width > 0.0 && x * width <= y * width
    ensures x <= y
  {
  }

  /** The greatest index from `i` on whose lower bound is at most `ms`: the floor of the logarithm. */
  function IndexFrom(c: Config, ms: real, i: nat): (r: nat)
    requires ConfigOk(c) && Lower(c, i) <= ms
    ensures Lower(c, r) <= ms < Lower(c, r + 1)
    decreases StepsLeft(c, ms, i)
  {
    StepsDecrease(c, ms, i);
    if ms < Lower(c, i + 1) then i else IndexFrom(c, ms, i + 1)
  }

  function BucketIndex(c: Config, ms: real): (r: nat)
    requires ConfigOk(c) && c.lowest <= ms
    ensures Lower(c, r) <= ms < Lower(c, r + 1)
  {
    IndexFrom(c, ms, 0)
  }

  /** The least index from `i` on whose lower bound reaches `highest`: the ceiling of the logarithm. */
  function CeilingFrom(c: Config, i: nat): (r: nat)
    requires ConfigOk(c)
    requires i == 0 || Lower(c, i - 1) < c.highest
    ensures Lower(c, r) >= c.highest && (r == 0 || Lower(c, r - 1) < c.highest)
    decreases StepsLeft(c, c.highest, i)
  {
    if Lower(c, i) >= c.highest then i
    else
      StepsDecrease(c, c.highest, i);
      CeilingFrom(c, i + 1)
  }

  function BucketCount(c: Config): nat
    requires ConfigOk(c)
  {
    CeilingFrom(c, 0) + 1
  }

  /** The clamp of `record` to the last bucket never binds. */
  lemma ClampNeverBinds(c: Config, ms: real)
    requires ConfigOk(c) && c.lowest <= ms <= c.highest
    ensures BucketIndex(c, ms) < BucketCount(c)
  {
    var top := CeilingFrom(c, 0);
    if BucketIndex(c, ms) > top {
      LowerMonotone(c, top, BucketIndex(c, ms));
    }
  }

  predicate InRange(c: Config, ms: real) {
    ms == 0.0 || c.lowest <= ms <= c.highest
  }

  function Empty(c: Config): Histogram
    requires ConfigOk(c)
  {
    Histogram(seq(BucketCount(c), _ => 0), 0, 0, 0, 0, 0)
  }

  function Record(c: Config, h: Histogram, sample: Sample): (r: Histogram)
    requires ConfigOk(c) && |h.counts| == BucketCount(c)
    ensures |r.counts| == |h.counts|
  {
    match sample
    case NonFinite => h.(nonFinite := h.nonFinite + 1)
    case Finite(ms) =>
      if ms == 0.0 then h.(zeroCount := h.zeroCount + 1, count := h.count + 1)
      else if ms < c.lowest then h.(belowRange := h.belowRange + 1)
      else if ms > c.highest then h.(aboveRange := h.aboveRange + 1)
      else
        ClampNeverBinds(c, ms);
        var i := BucketIndex(c, ms);
        h.(counts := h.counts[i := h.counts[i] + 1], count := h.count + 1)
  }

  /** A fresh recorder fed samples in order. */
  function RecordAll(c: Config, samples: seq<Sample>): (h: Histogram)
    requires ConfigOk(c)
    ensures |h.counts| == BucketCount(c)
  {
    if samples == [] then Empty(c)
    else Record(c, RecordAll(c, samples[..|samples| - 1]), samples[|samples| - 1])
  }

  /** The latencies that count: zeros and those within the range. */
  function Accepted(c: Config, samples: seq<Sample>): seq<real> {
    if samples == [] then []
    else
      var last := samples[|samples| - 1];
      Accepted(c, samples[..|samples| - 1]) + if last.Finite? && InRange(c, last.ms) then [last.ms] else []
  }

  // ---------------------------------------------------------------- summary values

  function Minimum(a: real, b: real): real {
    if a < b then a else b
  }

  /** The value reported for a bucket. */
  function Midpoint(c: Config, i: nat): real {
    Minimum(c.highest, Lower(c, i) * (1.0 + c.accuracy))
  }

  function Ceiling(x: real): int {
    -((-x).Floor)
  }

  function Rank(count: nat, fraction: real): (r: nat)
    ensures r >= 1
  {
    var r := Ceiling(count as real * fraction);
    if r < 1 then 1 else r
  }

  /** The first bucket from `i` on at which the running total reaches the rank, if any. */
  function Scan(counts: seq<nat>, i: nat, cumulative: nat, rank: nat): Option<nat>
    requires i <= |counts|
    decreases |counts| - i
  {
    if i == |counts| then None
    else if cumulative + counts[i] >= rank then Some(i)
    else Scan(counts, i + 1, cumulative + counts[i], rank)
  }

  function Quantile(c: Config, h: Histogram, fraction: real): Option<real> {
    if h.count == 0 then None
    else
      var rank := Rank(h.count, fraction);
      if rank <= h.zeroCount then Some(0.0)
      else
        match Scan(h.counts, 0, h.zeroCount, rank)
        case Some(i) => Some(Midpoint(c, i))
        case None => Some(c.highest)
  }

  /** Midpoints weighted by the counts of the first `n` buckets. */
  function Weighted(c: Config, counts: seq<nat>, n: nat): real
    requires n <= |counts|
  {
    if n == 0 then 0.0 else Weighted(c, counts, n - 1) + Midpoint(c, n - 1) * counts[n - 1] as real
  }

  function Average(c: Config, h: Histogram): Option<real> {
    if h.count == 0 then None else Some(Weighted(c, h.counts, |h.counts|) / h.count as real)
  }

  // ---------------------------------------------------------------- snapshots

  datatype Snapshot = Snapshot(version: nat, config: Config, histogram: Histogram)

  datatype SnapshotError = WrongVersion | WrongConfig | WrongBuckets | UnsafeCounter | WrongTotal

  function Total(counts: seq<nat>, n: nat): nat
    requires n <= |counts|
  {
    if n == 0 then 0 else Total(counts, n - 1) + counts[n - 1]
  }

  predicate SafeCounters(h: Histogram) {
    && h.zeroCount <= MAX_SAFE_INTEGER && h.count <= MAX_SAFE_INTEGER && h.nonFinite <= MAX_SAFE_INTEGER
    && h.belowRange <= MAX_SAFE_INTEGER && h.aboveRange <= MAX_SAFE_INTEGER
    && forall i :: 0 <= i < |h.counts| ==> h.counts[i] <= MAX_SAFE_INTEGER
  }

  /** `validateSnapshot`, check by check. */
  function Validate(c: Config, s: Snapshot): Option<SnapshotError>
    requires ConfigOk(c)
  {
    if s.version != 1 then Some(WrongVersion)
    else if s.config != c then Some(WrongConfig)
    else if |s.histogram.counts| != BucketCount(c) then Some(WrongBuckets)
    else if !SafeCounters(s.histogram) then Some(UnsafeCounter)
    else if s.histogram.zeroCount + Total(s.histogram.counts, |s.histogram.counts|) != s.histogram.count
    then Some(WrongTotal)
    else None
  }

  function AddCounts(a: seq<nat>, b: seq<nat>): (r: seq<nat>)
    requires |a| == |b|
    ensures |r| == |a| && forall i :: 0 <= i < |r| ==> r[i] == a[i] + b[i]
  {
    seq(|a|, i requires 0 <= i < |a| => a[i] + b[i])
  }

  /** Counter by counter. */
  function Add(a: Histogram, b: Histogram): Histogram
    requires |a.counts| == |b.counts|
  {
    Histogram(AddCounts(a.counts, b.counts), a.zeroCount + b.zeroCount, a.count + b.count,
              a.nonFinite + b.nonFinite, a.belowRange + b.belowRange, a.aboveRange + b.aboveRange)
  }

  function Merge(c: Config, h: Histogram, s: Snapshot): Result<Histogram, SnapshotError>
    requires ConfigOk(c) && |h.counts| == BucketCount(c)
  {
    match Validate(c, s)
    case Some(e) => Err(e)
    case None => Ok(Add(h, s.histogram))
  }
}
