/**
  * The measurement and the connection as objects that update their fields in place
  * (src/load/http1/http1-worker-measurement.ts, src/load/shared/load-worker-measurement.ts,
  * src/load/http1/http1-connection.ts). Each method is proved equal to the function that the worker's model uses.
  */
module Http1ConnectionCode {
  import opened Basics
  import opened Http1Engine
  import Bytes
  import ResponseHeaders
  import Stream = ResponseStream
  import HistogramMerge
  import LatencyHistogram
  import opened BoundedLatencyRecorderCode
  import opened TimestampQueueCode
  import opened Http1ResponseParserCode

  class Http1WorkerMeasurement {
    const d: Options
    const statusCodeCounts: array<nat>
    const latency: BoundedLatencyRecorder
    ghost var latencies: seq<LatencyHistogram.Sample>
    var sent: nat
    var completed: nat
    var connectionErrors: nat
    var timeouts: nat
    var protocolErrors: nat
    var aborted: nat
    var rateDropped: nat
    var scheduledOperations: nat
    var non2xx: nat

    predicate Valid() {
      && OptionsOk(d) && statusCodeCounts.Length == 600
      && latency.Valid() && latency.config == d.histogram && statusCodeCounts != latency.counts
    }

    /** The recorder holds the histogram of the latencies. */
    ghost predicate Summed()
      requires Valid()
      reads this, latency, latency.counts
    {
      latency.View() == LatencyHistogram.RecordAll(d.histogram, latencies)
    }

    ghost function View(): Measurement
      reads this, statusCodeCounts
    {
      Measurement(sent, completed, connectionErrors, timeouts, protocolErrors, aborted, rateDropped,
                  scheduledOperations, statusCodeCounts[..], non2xx, latencies)
    }

    constructor (d: Options)
      requires OptionsOk(d)
      ensures Valid() && this.d == d && View() == NoCounts(d) && Summed()
      ensures fresh(statusCodeCounts) && fresh(latency) && fresh(latency.counts)
    {
      this.d := d;
      statusCodeCounts := new nat[600](_ => 0);
      latency := new BoundedLatencyRecorder(d.histogram);
      sent, completed, connectionErrors, timeouts, protocolErrors := 0, 0, 0, 0, 0;
      aborted, rateDropped, scheduledOperations, non2xx := 0, 0, 0, 0;
      latencies := [];
    }

    /** `resetProtocolMetrics`: clears the counts by status. */
    method ResetProtocolMetrics()
      requires Valid()
      modifies `non2xx, statusCodeCounts
      ensures non2xx == 0 && statusCodeCounts[..] == seq(600, _ => 0)
    {
      for code := 0 to 600
        invariant forall k :: 0 <= k < code ==> statusCodeCounts[k] == 0
      {
        statusCodeCounts[code] := 0;
      }
      non2xx := 0;
    }

    /** `start`: forgets everything recorded so far. */
    method Start()
      requires Valid()
      modifies this, statusCodeCounts, latency, latency.counts
      ensures View() == NoCounts(d) && Summed()
    {
      hide LatencyHistogram.BucketCount;
      latency.Reset();
      latencies := [];
      sent, completed, connectionErrors, timeouts, protocolErrors := 0, 0, 0, 0, 0;
      aborted, rateDropped, scheduledOperations := 0, 0, 0;
      ResetProtocolMetrics();
    }

    method RecordSent(count: nat, scheduled: bool)
      requires Valid()
      modifies this
      ensures View() == Http1Engine.RecordSent(old(View()), true, count, scheduled)
    {
      sent := sent + count;
      if scheduled {
        scheduledOperations := scheduledOperations + count;
      }
    }

    method RecordResponse(status: nat, latencyMs: real)
      requires Valid() && status < 600
      modifies this, statusCodeCounts, latency, latency.counts
      ensures View() == Http1Engine.RecordResponse(d, old(View()), status, latencyMs)
      ensures old(Summed()) ==> Summed()
    {
      hide LatencyHistogram.Record, LatencyHistogram.RecordAll, LatencyHistogram.BucketCount;
      HistogramMerge.RecordLast(d.histogram, latencies, LatencyHistogram.Finite(latencyMs));
      statusCodeCounts[status] := statusCodeCounts[status] + 1;
      if status < 200 || status >= 300 {
        non2xx := non2xx + 1;
      }
      completed := completed + 1;
      latency.Record(LatencyHistogram.Finite(latencyMs));
      latencies := latencies + [LatencyHistogram.Finite(latencyMs)];
    }

    /** The snapshot that goes into a worker's result. */
    method LatencySnapshot() returns (s: LatencyHistogram.Snapshot)
      requires Valid() && Summed()
      ensures s == LatencyHistogram.Snapshot(1, d.histogram, LatencyHistogram.RecordAll(d.histogram, View().latencies))
    {
      s := latency.TakeSnapshot();
    }

    method RecordAborted(count: nat)
      requires Valid()
      modifies this
      ensures View() == old(View()).(aborted := old(aborted) + count)
    {
      aborted := aborted + count;
    }

    /** `#statusCodesResult`. */
    method StatusCodesResult() returns (result: map<nat, nat>)
      requires Valid()
      ensures result == StatusCodes(View().statusCounts, 600)
    {
      result := map[];
      ghost var counts := statusCodeCounts[..];
      for code := 100 to 600
        invariant result == StatusCodes(counts, code)
      {
        var count := statusCodeCounts[code];
        assert StatusCodes(counts, code + 1)
            == if count > 0 then StatusCodes(counts, code)[code := count] else StatusCodes(counts, code);
        if count > 0 {
          result := result[code := count];
        }
      }
    }
  }

  class Http1Connection {
    const d: Options
    const timestamps: TimestampQueue
    const parser: Http1ResponseParser
    var open: bool
    var connected: bool
    var stopped: bool
    var reconnectScheduled: bool
    var protocolFailure: bool
    var timeoutFailure: bool
    var backpressured: bool
    var pendingClosedLoop: nat
    var rateBatch: seq<real>

    predicate Valid()
      reads this, timestamps, parser
    {
      && OptionsOk(d)
      && timestamps.Valid() && timestamps.latencyStarts.Length == d.pipelining && timestamps.timeoutStarts == null
      && parser.config == d.parser && Stream.Valid(parser.View())
    }

    function View(): Conn
      requires Valid()
      reads this, timestamps, timestamps.latencyStarts, parser
    {
      Conn(open, connected, stopped, reconnectScheduled, protocolFailure, timeoutFailure, backpressured,
           pendingClosedLoop, rateBatch, timestamps.Contents(), parser.View())
    }

    /** The queue's storage is not the measurement's. */
    predicate Apart(m: Http1WorkerMeasurement) {
      && (timestamps.latencyStarts as object) != m.statusCodeCounts
      && (timestamps.latencyStarts as object) != m.latency.counts
    }

    constructor (d: Options)
      requires OptionsOk(d)
      ensures Valid() && this.d == d && View() == FRESH.(open := false)
      ensures fresh(timestamps) && fresh(timestamps.latencyStarts) && fresh(parser)
    {
      this.d := d;
      timestamps := new TimestampQueue(d.pipelining, false);
      parser := new Http1ResponseParser(d.parser);
      open, connected, stopped, reconnectScheduled := false, false, false, false;
      protocolFailure, timeoutFailure, backpressured := false, false, false;
      pendingClosedLoop, rateBatch := 0, [];
    }

    /** `connect`: opens a socket unless stopped or already open. */
    method Connect()
      requires Valid()
      modifies this
      ensures Valid()
      ensures View() == if old(stopped) || old(open) then old(View()) else old(View()).(open := true)
    {
      if !stopped && !open {
        open := true;
      }
    }

    /** `#send`: one timestamp at a time, then the counters, then the socket's answer. */
    method Send(m: Http1WorkerMeasurement, running: bool, stamps: seq<real>, scheduled: bool, accepted: bool)
      returns (thrown: bool)
      requires Valid() && m.Valid() && Apart(m)
      modifies this, timestamps, timestamps.latencyStarts, m
      ensures Valid()
      ensures Sending(View(), m.View(), thrown)
           == Http1Engine.Send(d, running, old(View()), old(m.View()), stamps, scheduled, accepted)
    {
      if !open || !connected || stopped || stamps == [] {
        return false;
      }
      if timestamps.size + |stamps| > d.pipelining {
        return true;
      }
      for index := 0 to |stamps|
        invariant Valid() && timestamps.Contents() == old(timestamps.Contents()) + stamps[..index]
        modifies timestamps, timestamps.latencyStarts
      {
        var overflow := timestamps.Push(stamps[index], stamps[index]);
        assert stamps[..index + 1] == stamps[..index] + [stamps[index]];
      }
      assert stamps[..|stamps|] == stamps;
      if running {
        m.RecordSent(|stamps|, scheduled);
      }
      if !accepted {
        backpressured := true;
      }
      return false;
    }

    method ReplenishClosedLoop(m: Http1WorkerMeasurement, running: bool, count: nat, now: real, accepted: bool)
      returns (thrown: bool)
      requires Valid() && m.Valid() && Apart(m)
      modifies this, timestamps, timestamps.latencyStarts, m
      ensures Valid()
      ensures Sending(View(), m.View(), thrown)
           == Replenish(d, running, old(View()), old(m.View()), count, now, accepted)
    {
      if !running || d.rate.Some? || count == 0 {
        return false;
      }
      if backpressured {
        pendingClosedLoop := pendingClosedLoop + count;
        return false;
      }
      thrown := Send(m, running, Repeat(now, count), false, accepted);
    }

    method FillClosedLoop(m: Http1WorkerMeasurement, running: bool, now: real, accepted: bool) returns (thrown: bool)
      requires Valid() && m.Valid() && Apart(m)
      modifies this, timestamps, timestamps.latencyStarts, m
      ensures Valid()
      ensures Sending(View(), m.View(), thrown)
           == Http1Engine.FillClosedLoop(d, running, old(View()), old(m.View()), now, accepted)
    {
      if !running || d.rate.Some? || !connected || timestamps.size != 0 {
        return false;
      }
      thrown := ReplenishClosedLoop(m, running, d.pipelining, now, accepted);
    }

    method CanScheduleOperation(running: bool) returns (can: bool)
      requires Valid()
      ensures can == CanSchedule(d, running, View())
    {
      can := running && d.rate.Some? && connected && !stopped && !backpressured
             && timestamps.size + |rateBatch| < d.pipelining;
    }

    /** Adds to the batch, or throws when the connection has no room. */
    method ScheduleOperation(running: bool, scheduledAt: real) returns (thrown: bool)
      requires Valid()
      modifies this
      ensures Valid()
      ensures thrown == !CanSchedule(d, running, old(View()))
      ensures View() == old(View()).(rateBatch := old(rateBatch) + if thrown then [] else [scheduledAt])
    {
      var can := CanScheduleOperation(running);
      if !can {
        return true;
      }
      rateBatch := rateBatch + [scheduledAt];
      return false;
    }

    method FlushScheduledOperations(m: Http1WorkerMeasurement, running: bool, now: real, accepted: bool)
      returns (thrown: bool)
      requires Valid() && m.Valid() && Apart(m)
      modifies this, timestamps, timestamps.latencyStarts, m
      ensures Valid()
      ensures Sending(View(), m.View(), thrown)
           == FlushOne(d, running, old(View()), old(m.View()), now, accepted)
    {
      if rateBatch == [] {
        return false;
      }
      thrown := Send(m, running, Stamps(d, rateBatch, now), true, accepted);
      if !thrown {
        rateBatch := [];
      }
    }

    method ResetPhaseState()
      requires Valid()
      modifies this
      ensures Valid() && View() == Http1Engine.ResetPhaseState(old(View()))
    {
      rateBatch := [];
      pendingClosedLoop := 0;
    }

    method Stop()
      requires Valid()
      modifies this, timestamps
      ensures Valid() && View() == StopConn(old(View()))
    {
      stopped := true;
      backpressured := false;
      open := false;
      timestamps.Clear();
      rateBatch := [];
      pendingClosedLoop := 0;
    }

    /** Feeds the parser; the statuses are the calls of its response callback. */
    method ParseChunk(chunk: Bytes.Bytes) returns (statuses: seq<nat>, thrown: Option<ResponseHeaders.ParseError>)
      requires Valid()
      modifies parser
      ensures Valid()
      ensures var o := Stream.Push(d.parser, old(parser.View()), chunk);
              statuses == o.statuses && thrown == o.error && View() == old(View()).(parser := o.parser)
    {
      statuses, thrown := parser.Push(chunk);
    }

    /** The response callback up to the owner's idle check. */
    method TakeResponse(m: Http1WorkerMeasurement, running: bool, status: nat, now: real) returns (answered: bool)
      requires Valid() && m.Valid() && Apart(m) && m.d == d && status < 600
      modifies this, timestamps, m, m.statusCodeCounts, m.latency, m.latency.counts
      ensures Valid()
      ensures Answer(View(), m.View(), answered) == AnswerConn(d, running, old(View()), old(m.View()), status, now)
      ensures old(m.Summed()) ==> m.Summed()
    {
      hide Ring, Wrap, InRing, TimestampQueue.Contents;
      var sentAt := timestamps.Shift();
      ghost var rest := timestamps.Contents();
      if sentAt == None {
        if running {
          m.protocolErrors := m.protocolErrors + 1;
        }
        protocolFailure := true;
        assert timestamps.Contents() == rest;
        return false;
      }
      if running {
        m.RecordResponse(status, now - sentAt.value);
      }
      assert timestamps.Contents() == rest;
      return true;
    }

    /** The drain handler: ends backpressure and sends what was held back while the closed loop goes on. */
    method OnDrain(m: Http1WorkerMeasurement, running: bool, now: real, accepted: bool) returns (thrown: bool)
      requires Valid() && m.Valid() && Apart(m)
      modifies this, timestamps, timestamps.latencyStarts, m
      ensures Valid()
      ensures Sending(View(), m.View(), thrown) == DrainConn(d, running, old(View()), old(m.View()), now, accepted)
    {
      if !open || !backpressured {
        return false;
      }
      backpressured := false;
      thrown := false;
      if pendingClosedLoop > 0 && running && d.rate.None? {
        var pending := pendingClosedLoop;
        pendingClosedLoop := 0;
        thrown := Send(m, running, Repeat(now, pending), false, accepted);
      }
    }
  }
}
