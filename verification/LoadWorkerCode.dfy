/**
  * The worker's phase machine and scheduler as an object whose handlers update its fields and loop over its
  * connections (src/load/shared/load-worker.ts), each proved equal to its function in the worker's model.
  * The connections and counters are held by value here.
  */
module LoadWorkerCode {
  import opened Basics
  import opened Http1Engine
  import Stream = ResponseStream

  class LoadWorker {
    const d: Options
    var phase: Phase
    var running: bool
    var startedAt: real
    var stopAt: real
    var connected: nat
    var readySent: bool
    var phaseScheduled: nat
    var nextRateConnection: nat
    var conns: seq<Conn>
    var m: Measurement
    var posted: seq<Message>
    var clock: real
    var thrown: bool

    function View(): Worker
      reads this
    {
      Worker(phase, running, startedAt, stopAt, connected, readySent, phaseScheduled, nextRateConnection, conns, m,
             posted, clock, thrown)
    }

    predicate Valid()
      reads this
    {
      OptionsOk(d) && |conns| == d.connections && nextRateConnection < |conns| && MeasurementShape(d, m)
    }

    constructor (d: Options, now: real)
      requires OptionsOk(d)
      ensures this.d == d && View() == Initial(d, now) && Valid()
    {
      this.d := d;
      phase, running, startedAt, stopAt, connected, readySent := Idle, false, 0.0, 0.0, 0, false;
      phaseScheduled, nextRateConnection, posted, clock, thrown := 0, 0, [], now, false;
      conns := seq(d.connections, _ => FRESH);
      m := NoCounts(d);
    }

    method CountInFlight() returns (total: nat)
      ensures total == TotalInFlight(conns)
    {
      total := 0;
      for index := 0 to |conns|
        invariant total == TotalInFlight(conns[..index])
      {
        assert conns[..index + 1][..index] == conns[..index];
        total := total + |conns[index].timestamps|;
      }
      assert conns[..|conns|] == conns;
    }

    method ResetConnections()
      modifies this`conns
      ensures conns == ResetAll(old(conns))
    {
      for index := 0 to |conns|
        invariant |conns| == |old(conns)|
        invariant forall i :: 0 <= i < |conns| ==>
                    conns[i] == if i < index then ResetPhaseState(old(conns)[i]) else old(conns)[i]
      {
        conns := conns[index := ResetPhaseState(conns[index])];
      }
    }

    method StopConnections()
      modifies this`conns
      ensures conns == StopAll(old(conns))
    {
      for index := 0 to |conns|
        invariant |conns| == |old(conns)|
        invariant forall i :: 0 <= i < |conns| ==>
                    conns[i] == if i < index then StopConn(old(conns)[i]) else old(conns)[i]
      {
        conns := conns[index := StopConn(conns[index])];
      }
    }

    method OnConnectionIdle()
      modifies this
      ensures View() == MaybeCompleteWarmup(old(View())) && m == old(m)
    {
      if phase == WarmupDraining {
        var inFlight := CountInFlight();
        if inFlight == 0 {
          ResetConnections();
          phase := Idle;
          posted := posted + [WarmupComplete];
        }
      }
    }

    method Apply(i: nat, s: Sending)
      requires i < |conns|
      modifies this
      ensures View() == Update(old(View()), i, s)
    {
      conns := conns[i := s.conn];
      m := s.m;
      thrown := thrown || s.thrown;
    }

    method Fail()
      modifies this
      ensures View() == FailWorker(old(View()))
    {
      phase := Finished;
      running := false;
      StopConnections();
      posted := posted + [Fatal];
    }

    method OnConnectionConnected(i: nat, now: real, accepted: bool)
      requires Valid() && i < |conns|
      modifies this
      ensures View() == OnConnect(d, old(View()), i, now, accepted)
    {
      if conns[i].stopped {
        return;
      }
      var c := conns[i].(connected := true, reconnectScheduled := false);
      conns := conns[i := c];
      connected := connected + 1;
      if !readySent && connected == d.connections {
        readySent := true;
        posted := posted + [Ready];
      }
      Apply(i, FillClosedLoop(d, running, c, m, now, accepted));
    }

    /** Every response callback of one parser push in turn, counting the replacement requests they ask for. */
    method RespondAll(i: nat, statuses: seq<nat>, nows: seq<real>) returns (replenish: nat)
      requires OptionsOk(d) && MeasurementShape(d, m) && i < |conns|
      requires StatusesOk(statuses) && |nows| >= |statuses|
      modifies this
      ensures (View(), replenish) == OnResponses(d, old(View()), i, statuses, nows)
    {
      hide OnResponse, MeasurementShape;
      ghost var start := View();
      replenish := 0;
      for k := 0 to |statuses|
        invariant |conns| == |old(conns)| && MeasurementShape(d, m)
        invariant (View(), replenish) == OnResponses(d, start, i, statuses[..k], nows)
      {
        assert statuses[..k + 1][..k] == statuses[..k];
        var wanted := Respond(i, statuses[k], nows[k]);
        replenish := replenish + if wanted then 1 else 0;
      }
      assert statuses[..|statuses|] == statuses;
    }

    /** The data handler: the responses, then a parse failure or the replacement requests. */
    method OnDataReceived(i: nat, chunk: Stream.Outcome, nows: seq<real>, accepted: bool)
      requires Valid() && i < |conns|
      requires StatusesOk(chunk.statuses) && |nows| == |chunk.statuses| + 1
      modifies this
      ensures View() == OnData(d, old(View()), i, chunk, nows, accepted)
    {
      hide OnResponses, Replenish, MeasurementShape;
      var c := conns[i];
      if !c.open || c.stopped {
        return;
      }
      conns := conns[i := c.(parser := chunk.parser)];
      var replenish := RespondAll(i, chunk.statuses, nows);
      if chunk.error.Some? {
        RejectStream(i);
      } else if replenish > 0 {
        Apply(i, Replenish(d, running, conns[i], m, replenish, nows[|nows| - 1], accepted));
      }
    }

    /** A parse failure. */
    method RejectStream(i: nat)
      requires i < |conns|
      modifies this`conns, this`m
      ensures conns == old(conns)[i := old(conns)[i].(protocolFailure := true)]
      ensures m == RecordProtocolError(old(m), running)
    {
      conns := conns[i := conns[i].(protocolFailure := true)];
      m := RecordProtocolError(m, running);
    }

    method Respond(i: nat, status: nat, now: real) returns (wanted: bool)
      requires OptionsOk(d) && MeasurementShape(d, m) && i < |conns| && status < 600
      modifies this
      ensures (View(), wanted) == OnResponse(d, old(View()), i, status, now)
      ensures |conns| == |old(conns)| && MeasurementShape(d, m)
    {
      hide MaybeCompleteWarmup, AnswerConn, MeasurementShape;
      var a := AnswerConn(d, running, conns[i], m, status, now);
      conns := conns[i := a.conn];
      m := a.m;
      if !a.answered {
        return false;
      }
      wanted := running && d.rate.None? && now < stopAt;
      OnConnectionIdle();
    }

    /** The socket is gone; a connected connection reports its disconnection. */
    method DisconnectSocket(i: nat)
      requires i < |conns|
      modifies this
      ensures View() == Disconnect(old(View()), i)
    {
      hide MaybeCompleteWarmup;
      var c := conns[i];
      conns := conns[i := c.(open := false, backpressured := false, connected := false)];
      if c.connected {
        connected := if connected > 0 then connected - 1 else 0;
        OnConnectionIdle();
      }
    }

    method AbortRequests(i: nat)
      requires i < |conns|
      modifies this
      ensures View() == AbortInFlight(old(View()), i)
    {
      hide MaybeCompleteWarmup;
      m := RecordAborted(m, running, |conns[i].timestamps|);
      conns := conns[i := conns[i].(timestamps := [])];
      OnConnectionIdle();
    }

    /** The close handler; the idle check runs before and after the queue is cleared. */
    method OnSocketClosed(i: nat)
      requires Valid() && i < |conns|
      modifies this
      ensures View() == OnClose(old(View()), i)
    {
      hide Disconnect, AbortInFlight, ResetClosed;
      if !conns[i].open {
        return;
      }
      DisconnectSocket(i);
      var shouldReconnect := phase != Finished;
      AbortRequests(i);
      conns := conns[i := ResetClosed(conns[i], shouldReconnect)];
    }

    // ---------------------------------------------------------------- phases

    method BeginPhase(measuring: bool, durationMs: real, now: real)
      requires OptionsOk(d)
      modifies this
      ensures View() == Started(d, old(View()), measuring, durationMs, now)
    {
      hide NoCounts, ResetAll;
      if measuring {
        ResetConnections();
      }
      phase := if measuring then Measuring else Warmup;
      m, running := NoCounts(d), true;
      startedAt, stopAt := now, now + durationMs;
      phaseScheduled, nextRateConnection := 0, 0;
    }

    method StartPhase(measuring: bool, durationMs: real, now: real, accepted: seq<bool>)
      requires Valid() && |accepted| == |conns|
      modifies this
      ensures View() == OnStart(d, old(View()), measuring, durationMs, now, accepted)
    {
      hide FillAll, FailWorker, MeasurementShape, NoCounts;
      if phase != Idle {
        Fail();
        return;
      }
      BeginPhase(measuring, durationMs, now);
      if d.rate.None? {
        FillConnections(now, accepted);
      }
    }

    method FillConnections(now: real, accepted: seq<bool>)
      requires |accepted| == |conns|
      modifies this
      ensures View() == FillAll(d, old(View()), |old(conns)|, now, accepted)
    {
      hide FillClosedLoop;
      for index := 0 to |conns|
        invariant |conns| == |old(conns)|
        invariant View() == FillAll(d, old(View()), index, now, accepted)
      {
        Apply(index, FillClosedLoop(d, running, conns[index], m, now, accepted[index]));
      }
    }

    method EndPhase()
      modifies this
      ensures View() == OnStopTimer(old(View()))
    {
      hide MaybeCompleteWarmup;
      if phase != Warmup && phase != Measuring {
        return;
      }
      running := false;
      if phase == Warmup {
        phase := WarmupDraining;
        OnConnectionIdle();
        return;
      }
      phase := Finished;
      var inFlightAtStop := CountInFlight();
      StopConnections();
      posted := posted + [Posted(m, inFlightAtStop)];
    }

    // ---------------------------------------------------------------- the scheduler

    /** Tries every connection once, from the cursor on. */
    method NextAvailableRateConnection() returns (found: Option<nat>)
      requires nextRateConnection < |conns|
      modifies this`nextRateConnection
      ensures (found, nextRateConnection) == NextAvailable(d, running, conns, old(nextRateConnection), |conns|)
    {
      hide CanSchedule;
      for attempt := 0 to |conns|
        invariant nextRateConnection < |conns|
        invariant NextAvailable(d, running, conns, nextRateConnection, |conns| - attempt)
               == NextAvailable(d, running, conns, old(nextRateConnection), |conns|)
      {
        var index := nextRateConnection;
        nextRateConnection := (nextRateConnection + 1) % |conns|;
        if CanSchedule(d, running, conns[index]) {
          return Some(index);
        }
      }
      return None;
    }

    /** Adds an operation to the batch of a connection, or throws when it has no room. */
    method ScheduleOperation(i: nat, scheduledAt: real) returns (refused: bool)
      requires i < |conns|
      modifies this`conns
      ensures Scheduling(conns, refused) == Http1Engine.ScheduleOperation(d, running, old(conns), i, scheduledAt)
    {
      if !CanSchedule(d, running, conns[i]) {
        return true;
      }
      conns := Schedule(conns, i, scheduledAt);
      return false;
    }

    /** The arrivals of a tick one by one, until one finds no connection or is refused by the one it found. */
    method DispatchDue(due0: nat) returns (refused: bool)
      requires Valid() && d.rate.Some?
      modifies this`conns, this`nextRateConnection, this`phaseScheduled, this`m
      ensures var r := Dispatch(d, old(View()), old(conns), old(nextRateConnection), old(phaseScheduled), due0);
              && conns == r.conns && nextRateConnection == r.cursor && refused == r.thrown
              && phaseScheduled == old(phaseScheduled) + due0
              && m == old(m).(rateDropped := old(m).rateDropped + r.dropped)
    {
      hide NextAvailable, ScheduledAt, MeasurementShape;
      var due: nat := due0;
      refused := false;
      ghost var w := View();
      ghost var whole := Dispatch(d, w, conns, nextRateConnection, phaseScheduled, due0);
      while due > 0 && !refused
        invariant !refused
        invariant due <= due0 && |conns| == |old(conns)| && nextRateConnection < |conns|
        invariant phaseScheduled == old(phaseScheduled) + due0 - due && m == old(m)
        invariant var rest := Dispatch(d, w, conns, nextRateConnection, phaseScheduled, due);
                  whole.conns == rest.conns && whole.cursor == rest.cursor && whole.dropped == rest.dropped
        decreases due
      {
        var scheduledAt := ScheduledAt(d, startedAt, d.rate.value, phaseScheduled);
        var found := NextAvailableRateConnection();
        phaseScheduled := phaseScheduled + 1;
        due := due - 1;
        match found {
          case Some(i) =>
            refused := ScheduleOperation(i, scheduledAt);
          case None =>
            m := m.(rateDropped := m.rateDropped + due + 1);
            phaseScheduled := phaseScheduled + due;
            return;
        }
      }
    }

    method FlushAll(now: real, accepted: seq<bool>)
      requires |accepted| == |conns|
      modifies this
      ensures View() == Flush(d, old(View()), |old(conns)|, now, accepted)
    {
      hide FlushOne;
      for index := 0 to |conns|
        invariant |conns| == |old(conns)|
        invariant View() == Flush(d, old(View()), index, now, accepted)
      {
        Apply(index, FlushOne(d, running, conns[index], m, now, accepted[index]));
      }
    }

    method ScheduleRate(now: real, accepted: seq<bool>)
      requires Valid() && |accepted| == |conns|
      modifies this
      ensures View() == OnRateTick(d, old(View()), now, accepted)
    {
      hide Dispatch, Flush, Expected, GlobalExpected;
      if !running || d.rate.None? {
        return;
      }
      var expected := Expected(d, GlobalExpected(View(), d.rate.value, now));
      var due := if expected > phaseScheduled then expected - phaseScheduled else 0;
      var refused := DispatchDue(due);
      thrown := thrown || refused;
      if !refused {
        FlushAll(now, accepted);
      }
    }
  }
}
