/** Rate ticks, phase changes and whole runs of a load worker. */
module EngineRuns {
  import opened Basics
  import opened Http1Engine
  import opened EngineInvariant
  import opened EngineScheduler
  import Stream = ResponseStream

  // ---------------------------------------------------------------- batches

  /** A connection inside a tick: its batch fits beside its queue and will be sent. */
  predicate BatchOk(d: Options, phase: Phase, live: bool, c: Conn) {
    && ConnOk(d, phase, live, c.(rateBatch := []), 0)
    && |c.timestamps| + |c.rateBatch| <= d.pipelining
    && (c.rateBatch != [] ==> c.connected && !c.stopped)
  }

  /** The batched requests of the connections from `n` on. */
  function BatchFrom(conns: seq<Conn>, n: nat): nat
    requires n <= |conns|
    decreases |conns| - n
  {
    if n == |conns| then 0 else |conns[n].rateBatch| + BatchFrom(conns, n + 1)
  }

  lemma {:induction false} BatchUpdate(conns: seq<Conn>, i: nat, c: Conn, n: nat)
    requires i < |conns| && n <= |conns|
    ensures BatchFrom(conns[i := c], n)
         == BatchFrom(conns, n) + if i < n then 0 else |c.rateBatch| - |conns[i].rateBatch|
    decreases |conns| - n
  {
    if n < |conns| {
      BatchUpdate(conns, i, c, n + 1);
    }
  }

  lemma {:induction false} NoBatches(conns: seq<Conn>, n: nat)
    requires n <= |conns| && forall j :: 0 <= j < |conns| ==> conns[j].rateBatch == []
    ensures BatchFrom(conns, n) == 0
    decreases |conns| - n
  {
    if n < |conns| {
      NoBatches(conns, n + 1);
    }
  }

  predicate BatchesOk(d: Options, phase: Phase, live: bool, conns: seq<Conn>) {
    forall j :: 0 <= j < |conns| ==> BatchOk(d, phase, live, conns[j])
  }

  /** A request added to a batch keeps the batches and changes no other count. */
  lemma ScheduleOk(d: Options, phase: Phase, live: bool, conns: seq<Conn>, i: nat, at: real)
    requires i < |conns| && BatchesOk(d, phase, live, conns) && CanSchedule(d, Running(phase), conns[i])
    ensures BatchesOk(d, phase, live, Schedule(conns, i, at))
    ensures BatchFrom(Schedule(conns, i, at), 0) == BatchFrom(conns, 0) + 1
    ensures TotalInFlight(Schedule(conns, i, at)) == TotalInFlight(conns)
    ensures CountConnected(Schedule(conns, i, at)) == CountConnected(conns)
  {
    hide BatchOk, BatchFrom, TotalInFlight, CountConnected, CanSchedule;
    var c := conns[i].(rateBatch := conns[i].rateBatch + [at]);
    assert BatchOk(d, phase, live, conns[i]);
    BatchedOne(d, phase, live, conns[i], at);
    BatchUpdate(conns, i, c, 0);
    InFlightUpdate(conns, i, c);
    ConnectedUpdate(conns, i, c);
  }

  lemma BatchedOne(d: Options, phase: Phase, live: bool, c: Conn, at: real)
    requires BatchOk(d, phase, live, c) && CanSchedule(d, Running(phase), c)
    ensures BatchOk(d, phase, live, c.(rateBatch := c.rateBatch + [at]))
  {
    assert c.(rateBatch := c.rateBatch + [at]).(rateBatch := []) == c.(rateBatch := []);
    hide ConnOk;
  }

  lemma {:induction false} DispatchOk(
    d: Options, w: Worker, live: bool, conns: seq<Conn>, cursor: nat, scheduled: nat, due: nat)
    requires d.rate.Some? && d.rate.value > 0.0 && cursor < |conns|
    requires w.running == Running(w.phase) && BatchesOk(d, w.phase, live, conns)
    ensures var r := Dispatch(d, w, conns, cursor, scheduled, due);
            && BatchesOk(d, w.phase, live, r.conns)
            && BatchFrom(r.conns, 0) == BatchFrom(conns, 0) + r.handed
            && TotalInFlight(r.conns) == TotalInFlight(conns) && CountConnected(r.conns) == CountConnected(conns)
    decreases due
  {
    hide NextAvailable, ScheduledAt, BatchesOk, CanSchedule, Schedule;
    if due > 0 {
      var r := NextAvailable(d, w.running, conns, cursor, |conns|);
      if r.0.Some? {
        var i := r.0.value;
        var at := ScheduledAt(d, w.startedAt, d.rate.value, scheduled);
        ScheduleOk(d, w.phase, live, conns, i, at);
        ScheduleLength(conns, i, at);
        DispatchOk(d, w, live, Schedule(conns, i, at), r.1, scheduled + 1, due - 1);
      }
    }
  }

  lemma ScheduleLength(conns: seq<Conn>, i: nat, at: real)
    requires i < |conns|
    ensures |Schedule(conns, i, at)| == |conns|
  {
  }

  // ---------------------------------------------------------------- flushing

  /** While a tick flushes: the first `n` connections are done, the batches of the others are still to be sent. */
  ghost predicate Flushing(d: Options, w: Worker, live: bool, n: nat)
    requires OptionsOk(d)
  {
    && Shape(d, w) && w.running && d.rate.Some? && n <= |w.conns|
    && (forall j :: 0 <= j < n ==> ConnOk(d, w.phase, live, w.conns[j], 0))
    && (forall j :: n <= j < |w.conns| ==> BatchOk(d, w.phase, live, w.conns[j]))
    && Books(w) && Tallies(d, w.m) && PostsOk(d, w)
    && w.m.scheduledOperations == w.m.sent
    && w.phaseScheduled == w.m.sent + w.m.rateDropped + BatchFrom(w.conns, n)
  }

  /** A flush sends the whole batch and never overflows the queue. */
  lemma FlushOneOk(d: Options, phase: Phase, live: bool, c: Conn, m: Measurement, now: real, accepted: bool)
    requires BatchOk(d, phase, live, c) && Running(phase) && d.rate.Some?
    ensures var s := FlushOne(d, true, c, m, now, accepted);
            && ConnOk(d, phase, live, s.conn, 0)
            && !s.thrown && s.conn.connected == c.connected
            && |s.conn.timestamps| == |c.timestamps| + |c.rateBatch|
            && s.m == m.(sent := m.sent + |c.rateBatch|, scheduledOperations := m.scheduledOperations + |c.rateBatch|)
  {
    assert ConnOk(d, phase, live, c.(rateBatch := []), 0);
    if c.rateBatch == [] {
      assert c.(rateBatch := []) == c;
    }
  }

  lemma FlushStep(d: Options, w: Worker, live: bool, n: nat, now: real, accepted: bool)
    requires OptionsOk(d) && n < |w.conns| && Flushing(d, w, live, n)
    ensures Flushing(d, Update(w, n, FlushOne(d, w.running, w.conns[n], w.m, now, accepted)), live, n + 1)
  {
    hide ConnOk, BatchOk, FlushOne, Tallies, MeasurementShape;
    var c := w.conns[n];
    FlushOneOk(d, w.phase, live, c, w.m, now, accepted);
    var s := FlushOne(d, true, c, w.m, now, accepted);
    InFlightUpdate(w.conns, n, s.conn);
    ConnectedUpdate(w.conns, n, s.conn);
    BatchUpdate(w.conns, n, s.conn, n + 1);
    TalliesSame(d, w.m, s.m);
    PostsOkSame(d, w, Update(w, n, s));
    hide PostsOk;
  }

  lemma TalliesSame(d: Options, m: Measurement, r: Measurement)
    requires OptionsOk(d) && Tallies(d, m) && MeasurementShape(d, m)
    requires r.completed == m.completed && r.statusCounts == m.statusCounts && r.non2xx == m.non2xx
    requires r.latencies == m.latencies
    ensures Tallies(d, r) && MeasurementShape(d, r)
  {
  }

  lemma {:induction false} FlushOk(d: Options, w: Worker, live: bool, n: nat, now: real, accepted: seq<bool>)
    requires OptionsOk(d) && n <= |w.conns| <= |accepted| && Flushing(d, w, live, 0)
    ensures var r := Flush(d, w, n, now, accepted);
            Flushing(d, r, live, n) && r.m.rateDropped == w.m.rateDropped && r.phaseScheduled == w.phaseScheduled
    decreases n
  {
    hide Flushing, FlushOne;
    if n > 0 {
      FlushOk(d, w, live, n - 1, now, accepted);
      var before := Flush(d, w, n - 1, now, accepted);
      FlushFrame(d, before, live, n - 1, now, accepted[n - 1]);
      FlushStep(d, before, live, n - 1, now, accepted[n - 1]);
    }
  }

  lemma FlushFrame(d: Options, w: Worker, live: bool, n: nat, now: real, accepted: bool)
    requires OptionsOk(d) && n < |w.conns| && Flushing(d, w, live, n)
    ensures var s := FlushOne(d, w.running, w.conns[n], w.m, now, accepted);
            s.m.rateDropped == w.m.rateDropped
  {
    hide ConnOk, BatchOk, FlushOne, Tallies, MeasurementShape, PostsOk;
    FlushOneOk(d, w.phase, live, w.conns[n], w.m, now, accepted);
  }

  /** The tick up to the flush. */
  function Scheduled(d: Options, w: Worker, now: real): (r: (Worker, Dispatched, nat))
    requires OptionsOk(d) && d.rate.Some? && w.nextRateConnection < |w.conns|
    ensures |r.0.conns| == |w.conns|
  {
    var expected := Expected(d, GlobalExpected(w, d.rate.value, now));
    var due := if expected > w.phaseScheduled then expected - w.phaseScheduled else 0;
    var r := Dispatch(d, w, w.conns, w.nextRateConnection, w.phaseScheduled, due);
    (w.(conns := r.conns, nextRateConnection := r.cursor, phaseScheduled := w.phaseScheduled + due,
        m := w.m.(rateDropped := w.m.rateDropped + r.dropped)), r, due)
  }

  lemma ScheduledOk(d: Options, w: Worker, live: bool, now: real)
    requires OptionsOk(d) && Between(d, w, live, 0, 0) && w.running && d.rate.Some?
    ensures Flushing(d, Scheduled(d, w, now).0, live, 0)
  {
    hide ConnOk, Dispatch, GlobalExpected, Expected, Tallies, MeasurementShape;
    var r := Scheduled(d, w, now);
    BatchesStart(d, w, live);
    DispatchOk(d, w, live, w.conns, w.nextRateConnection, w.phaseScheduled, r.2);
    TalliesSame(d, w.m, r.0.m);
    PostsOkSame(d, w, r.0);
    hide PostsOk, BatchOk;
  }

  lemma BatchesStart(d: Options, w: Worker, live: bool)
    requires ConnsOk(d, w, live, 0, 0)
    ensures BatchesOk(d, w.phase, live, w.conns) && BatchFrom(w.conns, 0) == 0
  {
    forall j | 0 <= j < |w.conns|
      ensures BatchOk(d, w.phase, live, w.conns[j]) && w.conns[j].rateBatch == []
    {
      assert ConnOk(d, w.phase, live, w.conns[j], 0);
      assert w.conns[j].(rateBatch := []) == w.conns[j];
    }
    NoBatches(w.conns, 0);
  }

  lemma FlushedOk(d: Options, w: Worker, live: bool)
    requires OptionsOk(d) && Flushing(d, w, live, |w.conns|)
    ensures Between(d, w, live, 0, 0)
  {
    hide ConnOk, Tallies, MeasurementShape, PostsOk, Books;
  }

  lemma RateTickOk(d: Options, w: Worker, live: bool, now: real, accepted: seq<bool>)
    requires OptionsOk(d) && Between(d, w, live, 0, 0) && |accepted| == |w.conns|
    ensures Between(d, OnRateTick(d, w, now, accepted), live, 0, 0)
  {
    hide ConnsOk, Tallies, PostsOk, MeasurementShape, Books, RateBooks;
    hide Flushing, Dispatch, GlobalExpected, Expected, Flush;
    if w.running && d.rate.Some? {
      ScheduledOk(d, w, live, now);
      var w1 := Scheduled(d, w, now).0;
      FlushOk(d, w1, live, |w1.conns|, now, accepted);
      FlushedOk(d, Flush(d, w1, |w1.conns|, now, accepted), live);
    }
  }

  /**
    * A tick sends exactly the smaller of the arrivals due and the free slots of the connections that take
    * requests, drops the rest, and has then accounted for every arrival expected by its time.
    */
  lemma RateTickExact(d: Options, w: Worker, now: real, accepted: seq<bool>)
    requires OptionsOk(d) && Inv(d, w) && w.running && d.rate.Some? && |accepted| == |w.conns|
    ensures var expected := Expected(d, GlobalExpected(w, d.rate.value, now));
            var due := if expected > w.phaseScheduled then expected - w.phaseScheduled else 0;
            var sent := Least(due, Free(d, true, w.conns));
            var r := OnRateTick(d, w, now, accepted);
            && r.m.sent == w.m.sent + sent
            && r.m.rateDropped == w.m.rateDropped + due - sent
            && r.phaseScheduled == w.phaseScheduled + due
            && forall k: nat :: k < r.phaseScheduled <==>
                 k < w.phaseScheduled || Due(d, w.startedAt, k, Earlier(now, w.stopAt))
  {
    hide Due;
    hide Dispatch, Flushing, GlobalExpected, Expected, Flush, ConnsOk, Tallies, MeasurementShape, PostsOk, Books, Free;
    forall k: nat
      ensures k < Expected(d, GlobalExpected(w, d.rate.value, now)) <==> Due(d, w.startedAt, k, Earlier(now, w.stopAt))
    {
      ExpectedIsDue(d, w, now, k);
    }
    var r := Scheduled(d, w, now);
    DispatchExact(d, w, w.conns, w.nextRateConnection, w.phaseScheduled, r.2);
    ScheduledOk(d, w, Live(w), now);
    FlushOk(d, r.0, Live(w), |r.0.conns|, now, accepted);
    FlushedOk(d, Flush(d, r.0, |r.0.conns|, now, accepted), Live(w));
    TickIs(d, w, now, accepted);
    hide OnRateTick;
  }

  lemma TickIs(d: Options, w: Worker, now: real, accepted: seq<bool>)
    requires OptionsOk(d) && w.nextRateConnection < |w.conns| <= |accepted| && w.running && d.rate.Some?
    ensures var r := Scheduled(d, w, now).0; OnRateTick(d, w, now, accepted) == Flush(d, r, |r.conns|, now, accepted)
  {
    hide Dispatch, GlobalExpected, Expected, Flush;
  }

  // ---------------------------------------------------------------- phases

  /** What a connection of a starting phase owes: a whole pipeline in a closed loop. */
  function Owes(d: Options, c: Conn): nat {
    if c.connected && d.rate.None? then d.pipelining else 0
  }

  /** While a phase starts: the first `n` connections are filled, the others still owe. */
  ghost predicate Filling(d: Options, w: Worker, live: bool, n: nat)
    requires OptionsOk(d)
  {
    && Shape(d, w) && w.running && n <= |w.conns|
    && (forall j :: 0 <= j < n ==> ConnOk(d, w.phase, live, w.conns[j], 0))
    && (forall j :: n <= j < |w.conns| ==> ConnOk(d, w.phase, live, w.conns[j], Owes(d, w.conns[j])))
    && Books(w) && Tallies(d, w.m) && PostsOk(d, w) && RateBooks(d, w)
  }

  lemma FillStep(d: Options, w: Worker, live: bool, n: nat, now: real, accepted: bool)
    requires OptionsOk(d) && d.rate.None? && n < |w.conns| && Filling(d, w, live, n)
    ensures Filling(d, Update(w, n, FillClosedLoop(d, w.running, w.conns[n], w.m, now, accepted)), live, n + 1)
  {
    hide ConnOk, FillClosedLoop, Tallies, MeasurementShape;
    var c := w.conns[n];
    FillOk(d, w.phase, live, c, w.m, now, accepted);
    var s := FillClosedLoop(d, w.running, c, w.m, now, accepted);
    InFlightUpdate(w.conns, n, s.conn);
    ConnectedUpdate(w.conns, n, s.conn);
    TalliesSame(d, w.m, s.m);
    PostsOkSame(d, w, Update(w, n, s));
    hide PostsOk;
  }

  lemma {:induction false} FillAllOk(d: Options, w: Worker, live: bool, n: nat, now: real, accepted: seq<bool>)
    requires OptionsOk(d) && d.rate.None? && n <= |w.conns| <= |accepted| && Filling(d, w, live, 0)
    ensures Filling(d, FillAll(d, w, n, now, accepted), live, n)
    decreases n
  {
    hide Filling, FillClosedLoop;
    if n > 0 {
      FillAllOk(d, w, live, n - 1, now, accepted);
      FillStep(d, FillAll(d, w, n - 1, now, accepted), live, n - 1, now, accepted[n - 1]);
    }
  }

  lemma NoCountsOk(d: Options)
    requires OptionsOk(d)
    ensures Tallies(d, NoCounts(d)) && MeasurementShape(d, NoCounts(d))
  {
    SumZero(NoCounts(d).statusCounts);
    SumZero(NoCounts(d).statusCounts[..300]);
  }

  /** An idle connection is ready for a phase of either kind. */
  lemma IdleConnReady(d: Options, before: bool, live: bool, c: Conn, phase: Phase)
    requires OptionsOk(d) && ConnOk(d, Idle, before, c, 0) && Running(phase)
    ensures ConnOk(d, phase, live, c, Owes(d, c)) && ResetPhaseState(c) == c
  {
  }

  lemma StartedOk(d: Options, w: Worker, before: bool, live: bool, measuring: bool, durationMs: real, now: real)
    requires OptionsOk(d) && Between(d, w, before, 0, 0) && w.phase == Idle
    ensures Filling(d, Started(d, w, measuring, durationMs, now), live, 0)
    ensures forall j :: 0 <= j < |w.conns| ==> w.conns[j].timestamps == []
  {
    var r := Started(d, w, measuring, durationMs, now);
    forall j | 0 <= j < |w.conns|
      ensures ConnOk(d, r.phase, live, r.conns[j], Owes(d, r.conns[j])) && r.conns[j] == w.conns[j]
      ensures w.conns[j].timestamps == []
    {
      assert ConnOk(d, Idle, before, w.conns[j], 0);
      IdleConnReady(d, before, live, w.conns[j], r.phase);
    }
    assert r.conns == w.conns;
    NoneInFlight(w.conns);
    NoCountsOk(d);
    hide ConnOk, Tallies, MeasurementShape, NoCounts, Owes;
    NoCountsEmpty(d);
  }

  lemma NoCountsEmpty(d: Options)
    requires OptionsOk(d)
    ensures var m := NoCounts(d);
            m.sent == 0 && m.completed == 0 && m.aborted == 0 && m.rateDropped == 0 && m.scheduledOperations == 0
  {
  }

  lemma FilledOk(d: Options, w: Worker, live: bool)
    requires OptionsOk(d) && (d.rate.None? ==> Filling(d, w, live, |w.conns|))
    requires d.rate.Some? ==> Filling(d, w, live, 0)
    ensures Between(d, w, live, 0, 0)
  {
    hide ConnOk, Tallies, MeasurementShape, PostsOk, Books;
    if d.rate.Some? {
      assert forall j :: 0 <= j < |w.conns| ==> Owes(d, w.conns[j]) == 0;
    }
  }

  lemma StoppedOk(d: Options, w: Worker, live: bool)
    requires OptionsOk(d) && Between(d, w, live, 0, 0)
    ensures Between(d, Finish(w), live, 0, 0)
  {
    var r := Finish(w);
    forall j | 0 <= j < |w.conns|
      ensures ConnOk(d, Finished, live, r.conns[j], 0)
    {
      assert ConnOk(d, w.phase, live, w.conns[j], 0);
      StopConnOk(d, w.phase, live, w.conns[j]);
    }
    hide ConnOk, Tallies, MeasurementShape, Books;
  }

  lemma StopConnOk(d: Options, phase: Phase, live: bool, c: Conn)
    requires ConnOk(d, phase, live, c, 0)
    ensures ConnOk(d, Finished, live, StopConn(c), 0)
  {
  }

  /** `fail` posts its error as the last message. */
  lemma FailOk(d: Options, w: Worker, live: bool)
    requires OptionsOk(d) && Between(d, w, live, 0, 0) && w.phase != Finished
    ensures Between(d, FailWorker(w), live, 0, 0)
  {
    hide ConnsOk, Tallies, MeasurementShape, Books, RateBooks;
    StoppedOk(d, w, live);
    PostOk(d, Finish(w), live, 0, 0, Fatal);
  }

  lemma StartOk(
    d: Options, w: Worker, before: bool, live: bool, measuring: bool, durationMs: real, now: real, accepted: seq<bool>)
    requires OptionsOk(d) && Between(d, w, before, 0, 0) && |accepted| == |w.conns| && w.phase != Finished
    requires w.phase != Idle ==> live == before
    ensures Between(d, OnStart(d, w, measuring, durationMs, now, accepted), live, 0, 0)
  {
    hide Between, Filling, FillAll, FailWorker;
    if w.phase == Idle {
      StartedOk(d, w, before, live, measuring, durationMs, now);
      var r := Started(d, w, measuring, durationMs, now);
      StartedLength(d, w, measuring, durationMs, now);
      if d.rate.None? {
        FillAllOk(d, r, live, |r.conns|, now, accepted);
        FilledOk(d, FillAll(d, r, |r.conns|, now, accepted), live);
      } else {
        FilledOk(d, r, live);
      }
    } else {
      FailOk(d, w, live);
    }
  }

  lemma StartedLength(d: Options, w: Worker, measuring: bool, durationMs: real, now: real)
    requires OptionsOk(d)
    ensures |Started(d, w, measuring, durationMs, now).conns| == |w.conns|
  {
  }

  lemma DrainingOk(d: Options, w: Worker, live: bool)
    requires OptionsOk(d) && Between(d, w, live, 0, 0) && w.phase == Warmup
    ensures Between(d, w.(running := false, phase := WarmupDraining), live, 0, 0)
  {
    forall j | 0 <= j < |w.conns|
      ensures ConnOk(d, WarmupDraining, live, w.conns[j], 0)
    {
      assert ConnOk(d, Warmup, live, w.conns[j], 0);
    }
    hide ConnOk, Tallies, MeasurementShape;
  }

  lemma StopTimerOk(d: Options, w: Worker, live: bool)
    requires OptionsOk(d) && Between(d, w, live, 0, 0)
    ensures Between(d, OnStopTimer(w), live, 0, 0)
  {
    hide ConnsOk, Tallies, MeasurementShape, RateBooks;
    if w.phase == Warmup {
      DrainingOk(d, w, live);
      CompleteWarmupOk(d, w.(running := false, phase := WarmupDraining), live, 0, 0);
    } else if w.phase == Measuring {
      StoppedOk(d, w, live);
      PostOk(d, Finish(w), live, 0, 0, Posted(w.m, TotalInFlight(w.conns)));
    }
  }

  // ---------------------------------------------------------------- steps

  /** Only a start moves the times of the phase, and only a start or a tick its schedule. */
  lemma TimesKept(d: Options, w: Worker, e: Event, now: real)
    requires OptionsOk(d) && Enabled(d, w, e, now) && MeasurementShape(d, w.m) && w.nextRateConnection < |w.conns|
    requires !e.Start?
    ensures var r := Handle(d, w, e, now);
            && r.stopAt == w.stopAt && r.startedAt == w.startedAt
            && (e.RateTick? || r.phaseScheduled == w.phaseScheduled) && (r.running ==> w.running)
  {
    hide OnData, OnDrain, OnTimeout, OnError, OnClose, OnReconnect, FillClosedLoop, Dispatch, Flush, Parsed;
    hide Expected, GlobalExpected, MeasurementShape;
  }

  lemma HandleOk(d: Options, w: Worker, live: bool, e: Event, now: real)
    requires OptionsOk(d) && Between(d, w, live, 0, 0) && Enabled(d, w, e, now) && !e.Start?
    requires live ==> now < w.stopAt
    ensures Between(d, Handle(d, w, e, now), live, 0, 0)
  {
    hide ConnsOk, Books, Tallies, RateBooks, PostsOk, MeasurementShape;
    hide OnConnect, OnData, OnDrain, OnTimeout, OnError, OnClose, OnReconnect, OnRateTick, OnStopTimer, Finish,
      Stream.Push;
    match e
    case Connect(i, accepted) => ConnectOk(d, w, live, i, now, accepted);
    case Data(i, chunk, nows, accepted) => DataOk(d, w, live, i, Parsed(d, w, i, chunk), nows, accepted);
    case Drain(i, accepted) => DrainOk(d, w, live, i, now, accepted);
    case Timeout(i) => FlagsOk(d, w, live, i);
    case SocketError(i) => FlagsOk(d, w, live, i);
    case Close(i) => CloseOk(d, w, live, i);
    case Reconnect(i) => ReconnectOk(d, w, live, i);
    case RateTick(accepts) => RateTickOk(d, w, live, now, accepts);
    case StopTimer => StopTimerOk(d, w, live);
    case Abort => StoppedOk(d, w, live);
  }

  /** The clock is no part of what holds between events, but for where work conservation still applies. */
  lemma ClockMoves(d: Options, w: Worker, live: bool, now: real)
    requires OptionsOk(d) && Between(d, w, live, 0, 0)
    ensures Between(d, w.(clock := now), live, 0, 0)
  {
    hide ConnOk, Tallies, MeasurementShape;
  }

  /** Every event keeps the invariant. */
  lemma StepKeepsInv(d: Options, w: Worker, e: Event, now: real)
    requires OptionsOk(d) && Inv(d, w) && Enabled(d, w, e, now)
    ensures Inv(d, Step(d, w, e, now))
  {
    hide ConnsOk, Books, Tallies, RateBooks, PostsOk, MeasurementShape, Handle;
    var r := Handle(d, w, e, now);
    var live := now < r.stopAt;
    if e.Start? {
      if w.phase == Idle {
        StartStep(d, w, live, e, now);
      } else {
        FailedStart(d, w, e, now);
      }
    } else {
      TimesKept(d, w, e, now);
      if live != Live(w) {
        LiveWeakens(d, w, Live(w), 0);
      }
      HandleOk(d, w, live, e, now);
    }
    ClockMoves(d, r, live, now);
  }

  lemma StartStep(d: Options, w: Worker, live: bool, e: Event, now: real)
    requires OptionsOk(d) && Inv(d, w) && Enabled(d, w, e, now) && e.Start? && w.phase == Idle
    ensures Between(d, Handle(d, w, e, now), live, 0, 0)
  {
    hide Between, OnStart;
    StartOk(d, w, Live(w), live, e.measuring, e.durationMs, now, e.accepts);
  }

  lemma FailedStart(d: Options, w: Worker, e: Event, now: real)
    requires OptionsOk(d) && Inv(d, w) && Enabled(d, w, e, now) && e.Start? && w.phase != Idle
    ensures var r := Handle(d, w, e, now); r.stopAt == w.stopAt && Between(d, r, now < r.stopAt, 0, 0)
  {
    hide ConnsOk, Books, Tallies, RateBooks, PostsOk, MeasurementShape;
    var live := now < w.stopAt;
    if live != Live(w) {
      LiveWeakens(d, w, Live(w), 0);
    }
    FailOk(d, w, live);
  }

  // ---------------------------------------------------------------- runs

  lemma InitialOk(d: Options, now: real)
    requires OptionsOk(d)
    ensures Inv(d, Initial(d, now))
  {
    var w := Initial(d, now);
    NoCountsOk(d);
    assert forall j :: 0 <= j < |w.conns| ==> w.conns[j] == FRESH;
    assert ConnOk(d, Idle, Live(w), FRESH, 0);
    NoConnected(w.conns);
    hide ConnOk, Tallies, MeasurementShape, NoCounts;
  }

  lemma {:induction false} NoConnected(conns: seq<Conn>)
    requires forall j :: 0 <= j < |conns| ==> !conns[j].connected
    ensures CountConnected(conns) == 0
  {
    if conns != [] {
      NoConnected(conns[..|conns| - 1]);
    }
  }

  /** An event and its time. */
  datatype Timed = Timed(event: Event, at: real)

  /** The worker before the first event and after each of them. */
  datatype Trace = Trace(states: seq<Worker>, events: seq<Timed>)

  /** The event may happen to the worker and makes this of it. The shape is part of the invariant of every run. */
  predicate Follows(d: Options, w: Worker, e: Timed, r: Worker)
    requires OptionsOk(d)
  {
    MeasurementShape(d, w.m) && w.nextRateConnection < |w.conns| && Enabled(d, w, e.event, e.at)
    && r == Step(d, w, e.event, e.at)
  }

  /** State i is a new worker or follows from the one before it. */
  ghost predicate Linked(d: Options, t: Trace, i: nat)
    requires OptionsOk(d) && i < |t.states| == |t.events| + 1
  {
    if i == 0 then exists now :: t.states[0] == Initial(d, now)
    else Follows(d, t.states[i - 1], t.events[i - 1], t.states[i])
  }

  ghost predicate IsRun(d: Options, t: Trace)
    requires OptionsOk(d)
  {
    |t.states| == |t.events| + 1 && forall i :: 0 <= i < |t.states| ==> Linked(d, t, i)
  }

  ghost predicate Reachable(d: Options, w: Worker)
    requires OptionsOk(d)
  {
    exists t :: IsRun(d, t) && t.states[|t.states| - 1] == w
  }

  lemma {:induction false} RunKeepsInv(d: Options, t: Trace, i: nat)
    requires OptionsOk(d) && IsRun(d, t) && i < |t.states|
    ensures Inv(d, t.states[i])
  {
    hide Inv, Enabled, Step, Initial, MeasurementShape;
    assert Linked(d, t, i);
    if i == 0 {
      var now :| t.states[0] == Initial(d, now);
      InitialOk(d, now);
    } else {
      RunKeepsInv(d, t, i - 1);
      StepKeepsInv(d, t.states[i - 1], t.events[i - 1].event, t.events[i - 1].at);
    }
  }
}
