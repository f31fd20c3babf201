/** Send times never lie in the future, so that no latency is ever negative. */
module EngineTimes {
  import opened Basics
  import opened Http1Engine
  import opened EngineInvariant
  import opened EngineScheduler
  import opened EngineRuns
  import opened EngineTheorems
  import Stream = ResponseStream
  import LatencyHistogram

  predicate Past(times: seq<real>, now: real) {
    forall i :: 0 <= i < |times| ==> times[i] <= now
  }

  predicate QueuesPast(conns: seq<Conn>, now: real) {
    forall j :: 0 <= j < |conns| ==> Past(conns[j].timestamps, now)
  }

  predicate NonNegative(latencies: seq<LatencyHistogram.Sample>) {
    forall i :: 0 <= i < |latencies| ==> latencies[i].Finite? && latencies[i].ms >= 0.0
  }

  predicate PostedTimes(posted: seq<Message>) {
    forall k :: 0 <= k < |posted| && posted[k].Posted? ==> NonNegative(posted[k].result.latencies)
  }

  /** No queued send time is later than `now`, and no latency so far is negative. */
  predicate TimesOk(w: Worker, now: real) {
    QueuesPast(w.conns, now) && NonNegative(w.m.latencies) && PostedTimes(w.posted)
  }

  lemma LaterOk(w: Worker, now: real, later: real)
    requires TimesOk(w, now) && now <= later
    ensures TimesOk(w, later)
  {
    forall j | 0 <= j < |w.conns|
      ensures Past(w.conns[j].timestamps, later)
    {
      assert Past(w.conns[j].timestamps, now);
    }
  }

  lemma ShrunkPast(a: seq<Conn>, b: seq<Conn>, now: real)
    requires AllShrink(a, b) && QueuesPast(a, now)
    ensures QueuesPast(b, now)
  {
    forall j | 0 <= j < |b|
      ensures Past(b[j].timestamps, now)
    {
      assert Past(a[j].timestamps, now) && Shrinks(a[j].timestamps, b[j].timestamps);
    }
  }

  // ---------------------------------------------------------------- sending

  lemma SendTimes(d: Options, running: bool, c: Conn, m: Measurement, stamps: seq<real>, scheduled: bool,
                  accepted: bool, now: real)
    requires Past(c.timestamps, now) && Past(stamps, now)
    ensures var s := Send(d, running, c, m, stamps, scheduled, accepted);
            Past(s.conn.timestamps, now) && s.m.latencies == m.latencies
  {
  }

  lemma ReplenishTimes(d: Options, running: bool, c: Conn, m: Measurement, count: nat, now: real, accepted: bool)
    requires Past(c.timestamps, now)
    ensures var s := Replenish(d, running, c, m, count, now, accepted);
            Past(s.conn.timestamps, now) && s.m.latencies == m.latencies
    ensures var s := FillClosedLoop(d, running, c, m, now, accepted);
            Past(s.conn.timestamps, now) && s.m.latencies == m.latencies
    ensures var s := DrainConn(d, running, c, m, now, accepted);
            Past(s.conn.timestamps, now) && s.m.latencies == m.latencies
  {
    hide Send, Past;
    assert forall n: nat :: Past(Repeat(now, n), now) by {
      forall n: nat
        ensures Past(Repeat(now, n), now)
      {
        RepeatPast(now, n);
      }
    }
    SendTimes(d, running, c, m, Repeat(now, count), false, accepted, now);
    SendTimes(d, running, c, m, Repeat(now, d.pipelining), false, accepted, now);
    var r := c.(backpressured := false, pendingClosedLoop := 0);
    SendTimes(d, running, r, m, Repeat(now, c.pendingClosedLoop), false, accepted, now);
  }

  lemma RepeatPast(now: real, n: nat)
    ensures Past(Repeat(now, n), now)
  {
  }

  lemma UpdateTimes(w: Worker, i: nat, s: Sending, now: real)
    requires i < |w.conns| && TimesOk(w, now) && Past(s.conn.timestamps, now) && s.m.latencies == w.m.latencies
    ensures TimesOk(Update(w, i, s), now)
  {
    hide Past, NonNegative;
  }

  // ---------------------------------------------------------------- responses

  lemma WarmupTimes(w: Worker, now: real)
    requires TimesOk(w, now)
    ensures TimesOk(MaybeCompleteWarmup(w), now)
  {
    hide NonNegative, AllShrink, TotalInFlight, ResetAll;
    var r := MaybeCompleteWarmup(w);
    WarmupShrinks(w);
    ShrunkPast(w.conns, r.conns, now);
    hide QueuesPast;
    assert r.m == w.m && (r.posted == w.posted || r.posted == w.posted + [WarmupComplete]);
    assert PostedTimes(r.posted);
    hide MaybeCompleteWarmup, PostedTimes;
  }

  /** A response is counted no earlier than its request was sent. */
  lemma AnswerTimes(d: Options, running: bool, c: Conn, m: Measurement, status: nat, now: real, since: real)
    requires OptionsOk(d) && MeasurementShape(d, m) && status < 600
    requires Past(c.timestamps, since) && since <= now && NonNegative(m.latencies)
    ensures var a := AnswerConn(d, running, c, m, status, now);
            Past(a.conn.timestamps, since) && NonNegative(a.m.latencies)
  {
  }

  lemma ResponseTimes(d: Options, w: Worker, i: nat, status: nat, now: real, since: real)
    requires OptionsOk(d) && i < |w.conns| && MeasurementShape(d, w.m) && status < 600
    requires TimesOk(w, since) && since <= now
    ensures TimesOk(OnResponse(d, w, i, status, now).0, since)
  {
    hide AnswerConn, MaybeCompleteWarmup, Past, NonNegative, MeasurementShape;
    assert Past(w.conns[i].timestamps, since);
    AnswerTimes(d, w.running, w.conns[i], w.m, status, now, since);
    var a := AnswerConn(d, w.running, w.conns[i], w.m, status, now);
    var w1 := w.(conns := w.conns[i := a.conn], m := a.m);
    assert TimesOk(w1, since);
    WarmupTimes(w1, since);
    hide TimesOk;
  }

  lemma {:induction false} ResponsesTimes(
    d: Options, w: Worker, i: nat, statuses: seq<nat>, nows: seq<real>, since: real)
    requires OptionsOk(d) && i < |w.conns| && MeasurementShape(d, w.m) && StatusesOk(statuses)
    requires |nows| >= |statuses| && TimesOk(w, since) && forall k :: 0 <= k < |statuses| ==> since <= nows[k]
    ensures TimesOk(OnResponses(d, w, i, statuses, nows).0, since)
    decreases |statuses|
  {
    hide TimesOk, OnResponse, MeasurementShape;
    if statuses != [] {
      var n := |statuses| - 1;
      ResponsesTimes(d, w, i, statuses[..n], nows, since);
      ResponseTimes(d, OnResponses(d, w, i, statuses[..n], nows).0, i, statuses[n], nows[n], since);
    }
  }

  lemma DataTimes(d: Options, w: Worker, i: nat, chunk: Stream.Outcome, nows: seq<real>, accepted: bool, since: real)
    requires OptionsOk(d) && i < |w.conns| && MeasurementShape(d, w.m)
    requires StatusesOk(chunk.statuses) && |nows| == |chunk.statuses| + 1
    requires TimesOk(w, since) && forall k :: 0 <= k < |nows| ==> since <= nows[k]
    ensures TimesOk(OnData(d, w, i, chunk, nows, accepted), nows[|nows| - 1])
  {
    hide OnResponses, MeasurementShape, Replenish, Past, NonNegative;
    var now := nows[|nows| - 1];
    LaterOk(w, since, now);
    if w.conns[i].open && !w.conns[i].stopped {
      var start := w.(conns := w.conns[i := w.conns[i].(parser := chunk.parser)]);
      ResponsesTimes(d, start, i, chunk.statuses, nows, since);
      var (r, count) := OnResponses(d, start, i, chunk.statuses, nows);
      LaterOk(r, since, now);
      assert Past(r.conns[i].timestamps, now);
      ReplenishTimes(d, r.running, r.conns[i], r.m, count, now, accepted);
      UpdateTimes(r, i, Replenish(d, r.running, r.conns[i], r.m, count, now, accepted), now);
    }
  }

  // ---------------------------------------------------------------- ticks and phases

  predicate BatchesPast(conns: seq<Conn>, now: real) {
    forall j :: 0 <= j < |conns| ==> Past(conns[j].rateBatch, now)
  }

  /** What a tick hands over was due, so that its scheduled time is not in the future. */
  lemma {:induction false} DispatchTimes(
    d: Options, w: Worker, conns: seq<Conn>, cursor: nat, scheduled: nat, due: nat, now: real)
    requires OptionsOk(d) && d.rate.Some? && cursor < |conns|
    requires due > 0 ==> scheduled + due <= Expected(d, GlobalExpected(w, d.rate.value, now))
    requires QueuesPast(conns, now) && BatchesPast(conns, now)
    ensures var r := Dispatch(d, w, conns, cursor, scheduled, due);
            QueuesPast(r.conns, now) && BatchesPast(r.conns, now)
    decreases due
  {
    hide NextAvailable, ScheduledAt, Expected, GlobalExpected, CanSchedule, Past;
    if due > 0 {
      var (found, next) := NextAvailable(d, w.running, conns, cursor, |conns|);
      if found.Some? {
        var at := ScheduledAt(d, w.startedAt, d.rate.value, scheduled);
        ScheduledTimes(d, w, now, scheduled, scheduled);
        var i := found.value;
        AppendPast(conns[i].rateBatch, at, now);
        assert BatchesPast(Schedule(conns, i, at), now) && QueuesPast(Schedule(conns, i, at), now);
        DispatchTimes(d, w, Schedule(conns, i, at), next, scheduled + 1, due - 1, now);
      }
    }
  }

  lemma AppendPast(times: seq<real>, x: real, now: real)
    requires Past(times, now) && x <= now
    ensures Past(times + [x], now)
  {
  }

  lemma {:induction false} FlushTimes(d: Options, w: Worker, n: nat, now: real, accepted: seq<bool>)
    requires n <= |w.conns| <= |accepted| && TimesOk(w, now) && BatchesPast(w.conns, now)
    ensures var r := Flush(d, w, n, now, accepted);
            TimesOk(r, now) && forall j :: n <= j < |w.conns| ==> r.conns[j] == w.conns[j]
    decreases n
  {
    hide FlushOne, Past, NonNegative;
    if n > 0 {
      var before := Flush(d, w, n - 1, now, accepted);
      FlushTimes(d, w, n - 1, now, accepted);
      FlushOneTimes(d, w.running, before.conns[n - 1], before.m, now, accepted[n - 1]);
      UpdateTimes(before, n - 1, FlushOne(d, w.running, before.conns[n - 1], before.m, now, accepted[n - 1]), now);
    }
  }

  lemma FlushOneTimes(d: Options, running: bool, c: Conn, m: Measurement, now: real, accepted: bool)
    requires Past(c.timestamps, now) && Past(c.rateBatch, now)
    ensures var s := FlushOne(d, running, c, m, now, accepted);
            Past(s.conn.timestamps, now) && s.m.latencies == m.latencies
  {
    hide Send, Past;
    RepeatPast(now, |c.rateBatch|);
    SendTimes(d, running, c, m, Stamps(d, c.rateBatch, now), true, accepted, now);
  }

  lemma TickTimes(d: Options, w: Worker, now: real, accepted: seq<bool>)
    requires OptionsOk(d) && Inv(d, w) && TimesOk(w, now) && |accepted| == |w.conns|
    ensures TimesOk(OnRateTick(d, w, now, accepted), now)
  {
    hide Dispatch, Flush, Expected, GlobalExpected, Past, NonNegative, ConnOk, Books, Tallies, RateBooks, PostsOk;
    if w.running && d.rate.Some? {
      var expected := Expected(d, GlobalExpected(w, d.rate.value, now));
      var due := if expected > w.phaseScheduled then expected - w.phaseScheduled else 0;
      NoBatch(d, w, now);
      DispatchTimes(d, w, w.conns, w.nextRateConnection, w.phaseScheduled, due, now);
      var r := Dispatch(d, w, w.conns, w.nextRateConnection, w.phaseScheduled, due);
      var w1 := w.(conns := r.conns, nextRateConnection := r.cursor, phaseScheduled := w.phaseScheduled + due,
                   m := w.m.(rateDropped := w.m.rateDropped + r.dropped));
      FlushTimes(d, w1, |w1.conns|, now, accepted);
    }
  }

  lemma NoBatch(d: Options, w: Worker, now: real)
    requires OptionsOk(d) && Inv(d, w)
    ensures BatchesPast(w.conns, now)
  {
    forall j | 0 <= j < |w.conns|
      ensures Past(w.conns[j].rateBatch, now)
    {
      assert ConnOk(d, w.phase, Live(w), w.conns[j], 0);
    }
  }

  lemma {:induction false} FillTimes(d: Options, w: Worker, n: nat, now: real, accepted: seq<bool>)
    requires n <= |w.conns| <= |accepted| && TimesOk(w, now)
    ensures TimesOk(FillAll(d, w, n, now, accepted), now)
    decreases n
  {
    hide FillClosedLoop, Past, NonNegative;
    if n > 0 {
      var before := FillAll(d, w, n - 1, now, accepted);
      FillTimes(d, w, n - 1, now, accepted);
      ReplenishTimes(d, w.running, before.conns[n - 1], before.m, 0, now, accepted[n - 1]);
      var filled := FillClosedLoop(d, w.running, before.conns[n - 1], before.m, now, accepted[n - 1]);
      UpdateTimes(before, n - 1, filled, now);
    }
  }

  lemma StartTimes(d: Options, w: Worker, measuring: bool, durationMs: real, now: real, accepted: seq<bool>)
    requires OptionsOk(d) && |w.conns| <= |accepted| && TimesOk(w, now)
    ensures TimesOk(OnStart(d, w, measuring, durationMs, now, accepted), now)
  {
    hide FillAll, Past;
    if w.phase == Idle {
      var w1 := Started(d, w, measuring, durationMs, now);
      assert TimesOk(w1, now);
      FillTimes(d, w1, |w1.conns|, now, accepted);
    } else {
      StopTimes(w, now);
    }
  }

  lemma FinishTimes(w: Worker, now: real)
    requires TimesOk(w, now)
    ensures TimesOk(Finish(w), now)
  {
    hide NonNegative, AllShrink, PostedTimes;
    StopShrinks(w.conns);
    ShrunkPast(w.conns, StopAll(w.conns), now);
    hide QueuesPast;
  }

  lemma PostTimes(w: Worker, now: real, message: Message)
    requires TimesOk(w, now) && (message.Posted? ==> NonNegative(message.result.latencies))
    ensures TimesOk(Post(w, message), now)
  {
    hide QueuesPast, NonNegative;
  }

  lemma StopTimes(w: Worker, now: real)
    requires TimesOk(w, now)
    ensures TimesOk(FailWorker(w), now) && TimesOk(Finish(w), now) && TimesOk(OnStopTimer(w), now)
  {
    hide QueuesPast, NonNegative, PostedTimes, MaybeCompleteWarmup, StopAll, TotalInFlight;
    FinishTimes(w, now);
    PostTimes(Finish(w), now, Fatal);
    PostTimes(Finish(w), now, Posted(w.m, TotalInFlight(w.conns)));
    WarmupTimes(w.(running := false, phase := WarmupDraining), now);
    hide TimesOk;
  }

  // ---------------------------------------------------------------- runs

  lemma ConnectTimes(d: Options, w: Worker, i: nat, now: real, accepted: bool)
    requires i < |w.conns| && TimesOk(w, now)
    ensures TimesOk(OnConnect(d, w, i, now, accepted), now)
  {
    hide FillClosedLoop, Past, NonNegative;
    var c := w.conns[i].(connected := true, reconnectScheduled := false);
    ReplenishTimes(d, w.running, c, w.m, 0, now, accepted);
  }

  lemma DrainTimes(d: Options, w: Worker, i: nat, now: real, accepted: bool)
    requires i < |w.conns| && TimesOk(w, now)
    ensures TimesOk(OnDrain(d, w, i, now, accepted), now)
  {
    hide DrainConn, Past, NonNegative;
    ReplenishTimes(d, w.running, w.conns[i], w.m, 0, now, accepted);
    UpdateTimes(w, i, DrainConn(d, w.running, w.conns[i], w.m, now, accepted), now);
  }

  lemma CloseTimes(w: Worker, i: nat, now: real)
    requires i < |w.conns| && TimesOk(w, now)
    ensures TimesOk(OnClose(w, i), now)
  {
    CloseShrinks(w, i);
    ShrunkPast(w.conns, OnClose(w, i).conns, now);
    CloseCompleting(w, i);
    CloseLatencies(w, i);
    hide QueuesPast, NonNegative, OnClose;
  }

  lemma CloseLatencies(w: Worker, i: nat)
    requires i < |w.conns|
    ensures OnClose(w, i).m.latencies == w.m.latencies
  {
    hide TotalInFlight;
  }

  /** Every event keeps the times in order. */
  lemma StepKeepsTimes(d: Options, w: Worker, e: Event, now: real)
    requires OptionsOk(d) && Inv(d, w) && TimesOk(w, w.clock) && Enabled(d, w, e, now)
    ensures TimesOk(Step(d, w, e, now), now)
  {
    hide Inv, TimesOk, OnConnect, OnData, OnDrain, OnClose, OnRateTick, OnStart, OnStopTimer, Finish;
    InvShape(d, w);
    LaterOk(w, w.clock, now);
    var r := Handle(d, w, e, now);
    match e {
      case Connect(i, accepted) => ConnectTimes(d, w, i, now, accepted);
      case Data(i, chunk, nows, accepted) =>
        NowsAfter(nows, w.clock);
        DataTimes(d, w, i, Parsed(d, w, i, chunk), nows, accepted, w.clock);
      case Drain(i, accepted) => DrainTimes(d, w, i, now, accepted);
      case Timeout(i) => FlagTimes(w, i, now);
      case SocketError(i) => FlagTimes(w, i, now);
      case Close(i) => CloseTimes(w, i, now);
      case Reconnect(i) => FlagTimes(w, i, now);
      case RateTick(accepts) => TickTimes(d, w, now, accepts);
      case Start(measuring, durationMs, accepts) => StartTimes(d, w, measuring, durationMs, now, accepts);
      case StopTimer => StopTimes(w, now);
      case Abort => StopTimes(w, now);
    }
    ClockTimes(r, now);
  }

  lemma ClockTimes(w: Worker, now: real)
    requires TimesOk(w, now)
    ensures TimesOk(w.(clock := now), now)
  {
  }

  lemma NowsAfter(nows: seq<real>, since: real)
    requires Ascending(nows) && nows != [] && nows[0] >= since
    ensures forall k :: 0 <= k < |nows| ==> since <= nows[k]
  {
  }

  lemma FlagTimes(w: Worker, i: nat, now: real)
    requires i < |w.conns| && TimesOk(w, now)
    ensures TimesOk(OnTimeout(w, i), now) && TimesOk(OnError(w, i), now) && TimesOk(OnReconnect(w, i), now)
  {
    hide NonNegative, Past;
  }

  lemma InvShape(d: Options, w: Worker)
    requires OptionsOk(d) && Inv(d, w)
    ensures MeasurementShape(d, w.m) && w.nextRateConnection < |w.conns|
  {
    hide ConnsOk, Books, Tallies, RateBooks, PostsOk;
  }

  lemma {:induction false} RunTimes(d: Options, t: Trace, i: nat)
    requires OptionsOk(d) && IsRun(d, t) && i < |t.states|
    ensures TimesOk(t.states[i], t.states[i].clock)
  {
    hide Inv, TimesOk, Enabled, MeasurementShape;
    assert Linked(d, t, i);
    if i == 0 {
      NewTimes(d, t.states[0]);
    } else {
      RunTimes(d, t, i - 1);
      StepInRun(d, t, i);
      StepKeepsTimes(d, t.states[i - 1], t.events[i - 1].event, t.events[i - 1].at);
    }
  }

  lemma NewTimes(d: Options, w: Worker)
    requires OptionsOk(d) && exists now :: w == Initial(d, now)
    ensures TimesOk(w, w.clock)
  {
  }

  /** In every run no queued send time is in the future, and no latency recorded or posted is negative. */
  lemma LatenciesNonNegative(d: Options, w: Worker)
    requires OptionsOk(d) && Reachable(d, w)
    ensures forall j, k :: 0 <= j < |w.conns| && 0 <= k < |w.conns[j].timestamps| ==>
              w.conns[j].timestamps[k] <= w.clock
    ensures NonNegative(w.m.latencies)
    ensures forall k :: 0 <= k < |w.posted| && w.posted[k].Posted? ==> NonNegative(w.posted[k].result.latencies)
  {
    hide Linked, NonNegative;
    var t :| IsRun(d, t) && t.states[|t.states| - 1] == w;
    RunTimes(d, t, |t.states| - 1);
    forall j, k | 0 <= j < |w.conns| && 0 <= k < |w.conns[j].timestamps|
      ensures w.conns[j].timestamps[k] <= w.clock
    {
      assert Past(w.conns[j].timestamps, w.clock);
    }
  }
}
