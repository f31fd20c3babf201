/**
  * One HTTP/1 load worker and its connections as a transition system over events
  * (src/load/shared/load-worker.ts, src/load/http1/http1-connection.ts, src/load/http1/http1-load-worker.ts).
  */
module Http1Engine {
  import opened Basics
  import Bytes
  import Stream = ResponseStream
  import LatencyHistogram

  /** The worker's options; `rate` is None for a closed loop. */
  datatype Options = Options(
    connections: nat,
    pipelining: nat,
    rate: Option<real>,
    offset: nat,
    stride: nat,
    correctOmission: bool,
    parser: Stream.Config,
    histogram: LatencyHistogram.Config)

  predicate OptionsOk(d: Options) {
    && d.connections > 0 && d.pipelining > 0 && d.offset < d.stride
    && (d.rate.Some? ==> d.rate.value > 0.0)
    && LatencyHistogram.ConfigOk(d.histogram)
  }

  /** A connection's fields; `open` says that it has a socket. */
  datatype Conn = Conn(
    open: bool,
    connected: bool,
    stopped: bool,
    reconnectScheduled: bool,
    protocolFailure: bool,
    timeoutFailure: bool,
    backpressured: bool,
    pendingClosedLoop: nat,
    rateBatch: seq<real>,
    timestamps: seq<real>,
    parser: Stream.Parser)

  const FRESH := Conn(true, false, false, false, false, false, false, 0, [], [], Stream.INITIAL)

  /** The counters of one phase; `latencies` are the samples its recorder was fed, in order. */
  datatype Measurement = Measurement(
    sent: nat,
    completed: nat,
    connectionErrors: nat,
    timeouts: nat,
    protocolErrors: nat,
    aborted: nat,
    rateDropped: nat,
    scheduledOperations: nat,
    statusCounts: seq<nat>,
    non2xx: nat,
    latencies: seq<LatencyHistogram.Sample>)

  datatype Phase = Idle | Warmup | WarmupDraining | Measuring | Finished

  datatype Message =
    | Ready
    | WarmupComplete
    | Posted(result: Measurement, inFlightAtStop: nat)
    | Fatal

  datatype Worker = Worker(
    phase: Phase,
    running: bool,
    startedAt: real,
    stopAt: real,
    connected: nat,
    readySent: bool,
    phaseScheduled: nat,
    nextRateConnection: nat,
    conns: seq<Conn>,
    m: Measurement,
    posted: seq<Message>,
    clock: real,
    thrown: bool)

  function NoCounts(d: Options): Measurement
    requires OptionsOk(d)
  {
    Measurement(0, 0, 0, 0, 0, 0, 0, 0, seq(600, _ => 0), 0, [])
  }

  function Initial(d: Options, now: real): Worker
    requires OptionsOk(d)
  {
    Worker(Idle, false, 0.0, 0.0, 0, false, 0, 0, seq(d.connections, _ => FRESH), NoCounts(d), [], now, false)
  }

  predicate ClosedLoopActive(d: Options, w: Worker) {
    w.running && d.rate.None?
  }

  predicate FixedRateActive(d: Options, w: Worker) {
    w.running && d.rate.Some?
  }

  // ---------------------------------------------------------------- counters

  function RecordSent(m: Measurement, running: bool, count: nat, scheduled: bool): Measurement {
    if running then
      m.(sent := m.sent + count, scheduledOperations := m.scheduledOperations + if scheduled then count else 0)
    else m
  }

  function RecordResponse(d: Options, m: Measurement, status: nat, latencyMs: real): Measurement
    requires OptionsOk(d) && status < |m.statusCounts|
  {
    m.(completed := m.completed + 1,
       statusCounts := m.statusCounts[status := m.statusCounts[status] + 1],
       non2xx := m.non2xx + if status < 200 || status >= 300 then 1 else 0,
       latencies := m.latencies + [LatencyHistogram.Finite(latencyMs)])
  }

  /** The counts by status that a result shows: only codes from 100 on that occurred. */
  function StatusCodes(counts: seq<nat>, n: nat): map<nat, nat>
    requires n <= |counts|
  {
    map code | 100 <= code < n && counts[code] > 0 :: counts[code]
  }

  function RecordProtocolError(m: Measurement, running: bool): Measurement {
    if running then m.(protocolErrors := m.protocolErrors + 1) else m
  }

  function RecordAborted(m: Measurement, running: bool, count: nat): Measurement {
    if running && count > 0 then m.(aborted := m.aborted + count) else m
  }

  // ---------------------------------------------------------------- one connection

  /** What handing requests to the socket leaves; `thrown` is the overflow error. */
  datatype Sending = Sending(conn: Conn, m: Measurement, thrown: bool)

  /** `#send`: one timestamp per request, counted when recording; a full socket buffer starts backpressure. */
  function Send(d: Options, running: bool, c: Conn, m: Measurement, stamps: seq<real>, scheduled: bool, accepted: bool)
    : Sending
  {
    if !c.open || !c.connected || c.stopped || stamps == [] then Sending(c, m, false)
    else if |c.timestamps| + |stamps| > d.pipelining then Sending(c, m, true)
    else
      Sending(c.(timestamps := c.timestamps + stamps, backpressured := c.backpressured || !accepted),
              RecordSent(m, running, |stamps|, scheduled), false)
  }

  function Repeat(x: real, n: nat): (s: seq<real>)
    ensures |s| == n
  {
    seq(n, _ => x)
  }

  /** `#replenishClosedLoop`. */
  function Replenish(d: Options, running: bool, c: Conn, m: Measurement, count: nat, now: real, accepted: bool): Sending
  {
    if !running || d.rate.Some? || count == 0 then Sending(c, m, false)
    else if c.backpressured then Sending(c.(pendingClosedLoop := c.pendingClosedLoop + count), m, false)
    else Send(d, running, c, m, Repeat(now, count), false, accepted)
  }

  function FillClosedLoop(d: Options, running: bool, c: Conn, m: Measurement, now: real, accepted: bool): Sending
  {
    if !running || d.rate.Some? || !c.connected || c.timestamps != [] then Sending(c, m, false)
    else Replenish(d, running, c, m, d.pipelining, now, accepted)
  }

  function ResetPhaseState(c: Conn): Conn {
    c.(rateBatch := [], pendingClosedLoop := 0)
  }

  function StopConn(c: Conn): Conn {
    c.(stopped := true, open := false, backpressured := false, timestamps := [], rateBatch := [],
       pendingClosedLoop := 0)
  }

  // ---------------------------------------------------------------- all connections

  function ResetAll(conns: seq<Conn>): (r: seq<Conn>)
    ensures |r| == |conns| && forall i :: 0 <= i < |r| ==> r[i] == ResetPhaseState(conns[i])
  {
    seq(|conns|, i requires 0 <= i < |conns| => ResetPhaseState(conns[i]))
  }

  function StopAll(conns: seq<Conn>): (r: seq<Conn>)
    ensures |r| == |conns| && forall i :: 0 <= i < |r| ==> r[i] == StopConn(conns[i])
  {
    seq(|conns|, i requires 0 <= i < |conns| => StopConn(conns[i]))
  }

  function TotalInFlight(conns: seq<Conn>): nat {
    if conns == [] then 0 else TotalInFlight(conns[..|conns| - 1]) + |conns[|conns| - 1].timestamps|
  }

  function CountConnected(conns: seq<Conn>): nat {
    if conns == [] then 0
    else CountConnected(conns[..|conns| - 1]) + if conns[|conns| - 1].connected then 1 else 0
  }

  function Post(w: Worker, message: Message): Worker {
    w.(posted := w.posted + [message])
  }

  /** The phase's times and schedule and the ready handshake are untouched. */
  predicate Steady(w: Worker, r: Worker) {
    && r.startedAt == w.startedAt && r.stopAt == w.stopAt && r.running == w.running
    && r.phaseScheduled == w.phaseScheduled && r.readySent == w.readySent
  }

  /** `onConnectionIdle`: a drained warmup resets its connections and goes back to idle. */
  function MaybeCompleteWarmup(w: Worker): (r: Worker)
    ensures |r.conns| == |w.conns| && Steady(w, r)
  {
    if w.phase != WarmupDraining || TotalInFlight(w.conns) != 0 then w
    else Post(w.(conns := ResetAll(w.conns), phase := Idle), WarmupComplete)
  }

  function Finish(w: Worker): Worker {
    w.(phase := Finished, running := false, conns := StopAll(w.conns))
  }

  /** `fail`. */
  function FailWorker(w: Worker): Worker {
    Post(Finish(w), Fatal)
  }

  function Update(w: Worker, i: nat, s: Sending): Worker
    requires i < |w.conns|
  {
    w.(conns := w.conns[i := s.conn], m := s.m, thrown := w.thrown || s.thrown)
  }

  // ---------------------------------------------------------------- connection events

  function OnConnect(d: Options, w: Worker, i: nat, now: real, accepted: bool): Worker
    requires i < |w.conns|
  {
    var c := w.conns[i];
    if c.stopped then w
    else
      var c1 := c.(connected := true, reconnectScheduled := false);
      var connected := w.connected + 1;
      var w1 := w.(connected := connected, conns := w.conns[i := c1]);
      var w2 :=
        if !w.readySent && connected == d.connections then Post(w1.(readySent := true), Ready) else w1;
      Update(w2, i, FillClosedLoop(d, w.running, c1, w.m, now, accepted))
  }

  /** What one response does to its connection; `answered` says that it had a request to answer. */
  datatype Answer = Answer(conn: Conn, m: Measurement, answered: bool)

  /** The oldest timestamp is taken and the response counted, or there is none and that is a protocol error. */
  function AnswerConn(d: Options, running: bool, c: Conn, m: Measurement, status: nat, now: real): (a: Answer)
    requires OptionsOk(d) && MeasurementShape(d, m) && status < 600
    ensures MeasurementShape(d, a.m)
  {
    if c.timestamps == [] then Answer(c.(protocolFailure := true), RecordProtocolError(m, running), false)
    else
      Answer(c.(timestamps := c.timestamps[1..]),
             if running then RecordResponse(d, m, status, now - c.timestamps[0]) else m, true)
  }

  /** The callback for one response; the second result asks for a replacement request. */
  function OnResponse(d: Options, w: Worker, i: nat, status: nat, now: real): (Worker, bool)
    requires OptionsOk(d) && i < |w.conns| && MeasurementShape(d, w.m) && status < 600
  {
    var a := AnswerConn(d, w.running, w.conns[i], w.m, status, now);
    var w1 := w.(conns := w.conns[i := a.conn], m := a.m);
    if !a.answered then (w1, false)
    else (MaybeCompleteWarmup(w1), ClosedLoopActive(d, w) && now < w.stopAt)
  }

  predicate MeasurementShape(d: Options, m: Measurement)
    requires OptionsOk(d)
  {
    |m.statusCounts| == 600
  }

  predicate StatusesOk(statuses: seq<nat>) {
    forall k :: 0 <= k < |statuses| ==> 200 <= statuses[k] <= 599
  }

  /** The callbacks of one parser push in order, and how many requests they ask to replenish. */
  function OnResponses(d: Options, w: Worker, i: nat, statuses: seq<nat>, nows: seq<real>): (r: (Worker, nat))
    requires OptionsOk(d) && i < |w.conns| && MeasurementShape(d, w.m) && StatusesOk(statuses)
    requires |nows| >= |statuses|
    ensures |r.0.conns| == |w.conns| && MeasurementShape(d, r.0.m) && Steady(w, r.0)
  {
    if statuses == [] then (w, 0)
    else
      var n := |statuses| - 1;
      var before := OnResponses(d, w, i, statuses[..n], nows);
      var one := OnResponse(d, before.0, i, statuses[n], nows[n]);
      (one.0, before.1 + if one.1 then 1 else 0)
  }

  function OnData(d: Options, w: Worker, i: nat, chunk: Stream.Outcome, nows: seq<real>, accepted: bool): (r: Worker)
    requires OptionsOk(d) && i < |w.conns| && MeasurementShape(d, w.m)
    requires StatusesOk(chunk.statuses) && |nows| == |chunk.statuses| + 1
    ensures |r.conns| == |w.conns| && Steady(w, r)
  {
    var c := w.conns[i];
    if !c.open || c.stopped then w
    else
      var start := w.(conns := w.conns[i := c.(parser := chunk.parser)]);
      var r := OnResponses(d, start, i, chunk.statuses, nows);
      var w1 := r.0;
      if chunk.error.Some? then
        w1.(conns := w1.conns[i := w1.conns[i].(protocolFailure := true)], m := RecordProtocolError(w1.m, w1.running))
      else if r.1 > 0 then
        Update(w1, i, Replenish(d, w1.running, w1.conns[i], w1.m, r.1, nows[|nows| - 1], accepted))
      else w1
  }

  /** A drained socket ends backpressure and sends what was held back while the closed loop goes on. */
  function DrainConn(d: Options, running: bool, c: Conn, m: Measurement, now: real, accepted: bool): Sending {
    if !c.open || !c.backpressured then Sending(c, m, false)
    else if c.pendingClosedLoop > 0 && running && d.rate.None? then
      Send(d, running, c.(backpressured := false, pendingClosedLoop := 0), m, Repeat(now, c.pendingClosedLoop), false,
           accepted)
    else Sending(c.(backpressured := false), m, false)
  }

  function OnDrain(d: Options, w: Worker, i: nat, now: real, accepted: bool): (r: Worker)
    requires i < |w.conns|
    ensures |r.conns| == |w.conns| && Steady(w, r)
  {
    Update(w, i, DrainConn(d, w.running, w.conns[i], w.m, now, accepted))
  }

  function OnTimeout(w: Worker, i: nat): (r: Worker)
    requires i < |w.conns|
    ensures |r.conns| == |w.conns| && Steady(w, r)
  {
    w.(conns := w.conns[i := w.conns[i].(timeoutFailure := true)],
       m := if w.running then w.m.(timeouts := w.m.timeouts + 1) else w.m)
  }

  function OnError(w: Worker, i: nat): (r: Worker)
    requires i < |w.conns|
    ensures |r.conns| == |w.conns| && Steady(w, r)
  {
    var c := w.conns[i];
    if w.running && !c.protocolFailure && !c.timeoutFailure
    then w.(m := w.m.(connectionErrors := w.m.connectionErrors + 1)) else w
  }

  /** The socket is gone; a connected connection reports its disconnection, which checks for idleness. */
  function Disconnect(w: Worker, i: nat): (r: Worker)
    requires i < |w.conns|
    ensures |r.conns| == |w.conns| && Steady(w, r)
  {
    var c := w.conns[i];
    var w1 := w.(conns := w.conns[i := c.(open := false, backpressured := false, connected := false)]);
    if c.connected
    then MaybeCompleteWarmup(w1.(connected := if w.connected > 0 then w.connected - 1 else 0)) else w1
  }

  /** What was in flight is aborted, and idleness is checked again. */
  function AbortInFlight(w: Worker, i: nat): (r: Worker)
    requires i < |w.conns|
    ensures |r.conns| == |w.conns| && Steady(w, r)
  {
    var c := w.conns[i];
    MaybeCompleteWarmup(w.(m := RecordAborted(w.m, w.running, |c.timestamps|),
                           conns := w.conns[i := c.(timestamps := [])]))
  }

  function ResetClosed(c: Conn, reconnect: bool): Conn {
    c.(rateBatch := [], pendingClosedLoop := 0, parser := Stream.INITIAL, protocolFailure := false,
       timeoutFailure := false, reconnectScheduled := c.reconnectScheduled || (!c.stopped && reconnect))
  }

  function OnClose(w: Worker, i: nat): (r: Worker)
    requires i < |w.conns|
    ensures |r.conns| == |w.conns| && Steady(w, r)
  {
    if !w.conns[i].open then w
    else
      var w2 := Disconnect(w, i);
      var w4 := AbortInFlight(w2, i);
      w4.(conns := w4.conns[i := ResetClosed(w4.conns[i], w2.phase != Finished)])
  }

  function OnReconnect(w: Worker, i: nat): (r: Worker)
    requires i < |w.conns|
    ensures |r.conns| == |w.conns| && Steady(w, r)
  {
    var c := w.conns[i].(reconnectScheduled := false);
    w.(conns := w.conns[i := if c.stopped || c.open then c else c.(open := true)])
  }

  // ---------------------------------------------------------------- the fixed-rate scheduler

  function Earlier(a: real, b: real): real {
    if a < b then a else b
  }

  /** The arrivals of the whole load that are due at a time. */
  function GlobalExpected(w: Worker, rate: real, now: real): int {
    ((Earlier(now, w.stopAt) - w.startedAt) * rate / 1000.0).Floor
  }

  /** How many of the first `global` arrivals are this worker's. */
  function Expected(d: Options, global: int): nat
    requires OptionsOk(d)
  {
    if global <= d.offset then 0 else (global - 1 - d.offset) / d.stride + 1
  }

  /** The global sequence number of this worker's arrival number `k`, counted from zero. */
  function Sequence(d: Options, k: nat): nat {
    d.offset + 1 + k * d.stride
  }

  function ScheduledAt(d: Options, startedAt: real, rate: real, k: nat): real
    requires rate > 0.0
  {
    startedAt + Sequence(d, k) as real * 1000.0 / rate
  }

  predicate CanSchedule(d: Options, running: bool, c: Conn) {
    running && d.rate.Some? && c.connected && !c.stopped && !c.backpressured
    && |c.timestamps| + |c.rateBatch| < d.pipelining
  }

  /** `#nextAvailableRateConnection`: tries up to `attempts` connections from the cursor, which moves past each. */
  function NextAvailable(d: Options, running: bool, conns: seq<Conn>, cursor: nat, attempts: nat)
    : (r: (Option<nat>, nat))
    requires cursor < |conns|
    ensures r.1 < |conns|
    ensures r.0.Some? ==> r.0.value < |conns| && CanSchedule(d, running, conns[r.0.value])
    decreases attempts
  {
    if attempts == 0 then (None, cursor)
    else
      var next := (cursor + 1) % |conns|;
      if CanSchedule(d, running, conns[cursor]) then (Some(cursor), next)
      else NextAvailable(d, running, conns, next, attempts - 1)
  }

  function Schedule(conns: seq<Conn>, i: nat, at: real): seq<Conn>
    requires i < |conns|
  {
    conns[i := conns[i].(rateBatch := conns[i].rateBatch + [at])]
  }

  /** What scheduling an operation leaves; `thrown` is the scheduler's capacity error. */
  datatype Scheduling = Scheduling(conns: seq<Conn>, thrown: bool)

  /** `scheduleOperation`: adds to the batch of a connection, or throws when it has no room. */
  function ScheduleOperation(d: Options, running: bool, conns: seq<Conn>, i: nat, at: real): Scheduling
    requires i < |conns|
  {
    if CanSchedule(d, running, conns[i]) then Scheduling(Schedule(conns, i, at), false) else Scheduling(conns, true)
  }

  /** The connections and the cursor after a tick's arrivals, how many were handed over and dropped, and its error. */
  datatype Dispatched = Dispatched(conns: seq<Conn>, cursor: nat, handed: nat, dropped: nat, thrown: bool)

  /**
    * The loop of a tick: the first arrival that finds no connection drops itself and all that are left. An operation
    * that the connection found does not accept would end the tick; there is none.
    */
  function Dispatch(d: Options, w: Worker, conns: seq<Conn>, cursor: nat, scheduled: nat, due: nat): (r: Dispatched)
    requires d.rate.Some? && d.rate.value > 0.0 && cursor < |conns|
    ensures |r.conns| == |conns| && r.cursor < |conns|
    ensures r.handed + r.dropped == due && !r.thrown
    decreases due
  {
    var nothing := Dispatched(conns, cursor, 0, 0, false);
    if due == 0 then nothing
    else
      var (found, next) := NextAvailable(d, w.running, conns, cursor, |conns|);
      match found
      case None => Dispatched(conns, next, 0, due, false)
      case Some(i) =>
        var s := ScheduleOperation(d, w.running, conns, i, ScheduledAt(d, w.startedAt, d.rate.value, scheduled));
        if s.thrown then nothing.(cursor := next, thrown := true)
        else
          var r := Dispatch(d, w, s.conns, next, scheduled + 1, due - 1);
          r.(handed := r.handed + 1)
  }

  /** The times sent with a batch: the schedule, unless latency is measured from the write. */
  function Stamps(d: Options, batch: seq<real>, now: real): (s: seq<real>)
    ensures |s| == |batch|
  {
    if d.correctOmission then batch else Repeat(now, |batch|)
  }

  function FlushOne(d: Options, running: bool, c: Conn, m: Measurement, now: real, accepted: bool): Sending {
    if c.rateBatch == [] then Sending(c, m, false)
    else
      var s := Send(d, running, c, m, Stamps(d, c.rateBatch, now), true, accepted);
      if s.thrown then s else s.(conn := s.conn.(rateBatch := []))
  }

  /** Flushes the first `n` connections. */
  function Flush(d: Options, w: Worker, n: nat, now: real, accepted: seq<bool>): (r: Worker)
    requires n <= |w.conns| <= |accepted|
    ensures |r.conns| == |w.conns| && Steady(w, r)
  {
    if n == 0 then w
    else
      var before := Flush(d, w, n - 1, now, accepted);
      Update(before, n - 1, FlushOne(d, w.running, before.conns[n - 1], before.m, now, accepted[n - 1]))
  }

  /** `#scheduleRate`. */
  function OnRateTick(d: Options, w: Worker, now: real, accepted: seq<bool>): Worker
    requires OptionsOk(d) && w.nextRateConnection < |w.conns| <= |accepted|
  {
    if !w.running || d.rate.None? then w
    else
      var expected := Expected(d, GlobalExpected(w, d.rate.value, now));
      var due := if expected > w.phaseScheduled then expected - w.phaseScheduled else 0;
      var r := Dispatch(d, w, w.conns, w.nextRateConnection, w.phaseScheduled, due);
      var taken := r.handed + r.dropped + if r.thrown then 1 else 0;
      var w1 := w.(conns := r.conns, nextRateConnection := r.cursor, phaseScheduled := w.phaseScheduled + taken,
                   m := w.m.(rateDropped := w.m.rateDropped + r.dropped), thrown := w.thrown || r.thrown);
      if r.thrown then w1 else Flush(d, w1, |w1.conns|, now, accepted)
  }

  // ---------------------------------------------------------------- phases

  /** Fills the first `n` connections of a closed loop. */
  function FillAll(d: Options, w: Worker, n: nat, now: real, accepted: seq<bool>): (r: Worker)
    requires n <= |w.conns| <= |accepted|
    ensures |r.conns| == |w.conns| && Steady(w, r)
  {
    if n == 0 then w
    else
      var before := FillAll(d, w, n - 1, now, accepted);
      Update(before, n - 1, FillClosedLoop(d, w.running, before.conns[n - 1], before.m, now, accepted[n - 1]))
  }

  /** The worker as a phase begins, before any connection is filled. */
  function Started(d: Options, w: Worker, measuring: bool, durationMs: real, now: real): Worker
    requires OptionsOk(d)
  {
    w.(phase := if measuring then Measuring else Warmup,
       conns := if measuring then ResetAll(w.conns) else w.conns,
       m := NoCounts(d), running := true, startedAt := now, stopAt := now + durationMs,
       phaseScheduled := 0, nextRateConnection := 0)
  }

  /** `#startPhase`; a start in any phase but idle is an error, which fails the worker. */
  function OnStart(d: Options, w: Worker, measuring: bool, durationMs: real, now: real, accepted: seq<bool>): Worker
    requires OptionsOk(d) && |w.conns| <= |accepted|
  {
    if w.phase != Idle then FailWorker(w)
    else
      var w1 := Started(d, w, measuring, durationMs, now);
      if d.rate.None? then FillAll(d, w1, |w1.conns|, now, accepted) else w1
  }

  /** `#endPhase`. */
  function OnStopTimer(w: Worker): Worker {
    if w.phase == Warmup then MaybeCompleteWarmup(w.(running := false, phase := WarmupDraining))
    else if w.phase == Measuring then
      Post(Finish(w), Posted(w.m, TotalInFlight(w.conns)))
    else w
  }

  // ---------------------------------------------------------------- steps and runs

  datatype Event =
    | Connect(i: nat, accepted: bool)
    | Data(i: nat, chunk: seq<Bytes.Byte>, nows: seq<real>, accepted: bool)
    | Drain(i: nat, accepted: bool)
    | Timeout(i: nat)
    | SocketError(i: nat)
    | Close(i: nat)
    | Reconnect(i: nat)
    | RateTick(accepts: seq<bool>)
    | Start(measuring: bool, durationMs: real, accepts: seq<bool>)
    | StopTimer
    | Abort

  predicate Ascending(times: seq<real>) {
    forall i, j :: 0 <= i < j < |times| ==> times[i] <= times[j]
  }

  function Parsed(d: Options, w: Worker, i: nat, chunk: seq<Bytes.Byte>): Stream.Outcome
    requires i < |w.conns| && Stream.Valid(w.conns[i].parser)
  {
    Stream.Push(d.parser, w.conns[i].parser, chunk)
  }

  /**
    * What the environment may do next. Socket events come from a connection's socket, except that timeouts and
    * errors may also come from one that was let go of; commands stop when the port is closed.
    */
  predicate Enabled(d: Options, w: Worker, e: Event, now: real) {
    && now >= w.clock
    && match e
       case Connect(i, _) => i < |w.conns| && w.conns[i].open && !w.conns[i].connected
       case Data(i, chunk, nows, _) =>
         && i < |w.conns| && w.conns[i].connected && Stream.Valid(w.conns[i].parser)
         && |nows| == |Parsed(d, w, i, chunk).statuses| + 1
         && Ascending(nows) && nows[0] >= w.clock && nows[|nows| - 1] == now
       case Drain(i, _) => i < |w.conns|
       case Timeout(i) => i < |w.conns|
       case SocketError(i) => i < |w.conns|
       case Close(i) => i < |w.conns|
       case Reconnect(i) => i < |w.conns| && w.conns[i].reconnectScheduled
       case RateTick(accepts) => w.running && |accepts| == |w.conns|
       case Start(_, durationMs, accepts) => w.phase != Finished && durationMs >= 0.0 && |accepts| == |w.conns|
       case StopTimer => w.running
       case Abort => w.phase != Finished
  }

  function Handle(d: Options, w: Worker, e: Event, now: real): Worker
    requires OptionsOk(d) && Enabled(d, w, e, now)
    requires MeasurementShape(d, w.m) && w.nextRateConnection < |w.conns|
  {
    match e
    case Connect(i, accepted) => OnConnect(d, w, i, now, accepted)
    case Data(i, chunk, nows, accepted) => OnData(d, w, i, Parsed(d, w, i, chunk), nows, accepted)
    case Drain(i, accepted) => OnDrain(d, w, i, now, accepted)
    case Timeout(i) => OnTimeout(w, i)
    case SocketError(i) => OnError(w, i)
    case Close(i) => OnClose(w, i)
    case Reconnect(i) => OnReconnect(w, i)
    case RateTick(accepts) => OnRateTick(d, w, now, accepts)
    case Start(measuring, durationMs, accepts) => OnStart(d, w, measuring, durationMs, now, accepts)
    case StopTimer => OnStopTimer(w)
    case Abort => Finish(w)
  }

  /** One event, after which the clock shows its time. */
  function Step(d: Options, w: Worker, e: Event, now: real): Worker
    requires OptionsOk(d) && Enabled(d, w, e, now)
    requires MeasurementShape(d, w.m) && w.nextRateConnection < |w.conns|
  {
    Handle(d, w, e, now).(clock := now)
  }
}
