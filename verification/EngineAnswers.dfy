/**
  * What the counters of a phase count, event by event and over whole phases: the answers with their statuses and
  * latencies, first in, first out, and the errors.
  */
module EngineAnswers {
  import opened Basics
  import opened Http1Engine
  import opened EngineInvariant
  import opened EngineScheduler
  import opened EngineRuns
  import EngineTheorems
  import Stream = ResponseStream
  import LatencyHistogram
  import opened HistogramAccuracy

  /** One request answered: the status of its response, and the time from its send time to the response. */
  datatype Answered = Answered(status: nat, latencyMs: real)

  /** Responses answer the queued requests in order; those that find the queue empty answer none. */
  function Pair(statuses: seq<nat>, nows: seq<real>, queue: seq<real>): (r: seq<Answered>)
    requires |nows| >= |statuses|
    ensures |r| == Least(|statuses|, |queue|)
    ensures forall j :: 0 <= j < |r| ==> r[j] == Answered(statuses[j], nows[j] - queue[j])
  {
    seq(Least(|statuses|, |queue|), j requires 0 <= j < Least(|statuses|, |queue|) =>
      Answered(statuses[j], nows[j] - queue[j]))
  }

  function Samples(answers: seq<Answered>): (s: seq<LatencyHistogram.Sample>)
    ensures |s| == |answers|
    ensures forall j :: 0 <= j < |s| ==> s[j] == LatencyHistogram.Finite(answers[j].latencyMs)
  {
    seq(|answers|, j requires 0 <= j < |answers| => LatencyHistogram.Finite(answers[j].latencyMs))
  }

  function HasStatus(code: nat): Answered -> bool {
    (a: Answered) => a.status == code
  }

  function IsSuccess(): Answered -> bool {
    (a: Answered) => 200 <= a.status < 300
  }

  /** The errors of an event, or of a part of a phase. */
  datatype Errors = Errors(timeouts: nat, connectionErrors: nat, protocolErrors: nat, aborted: nat)

  const NO_ERRORS := Errors(0, 0, 0, 0)

  /** The counters have moved by exactly these answers and errors. */
  predicate Moved(m: Measurement, r: Measurement, answers: seq<Answered>, errors: Errors) {
    && r.completed == m.completed + |answers|
    && r.latencies == m.latencies + Samples(answers)
    && |r.statusCounts| == |m.statusCounts|
    && (forall code: nat :: code < |m.statusCounts| ==>
          r.statusCounts[code] == m.statusCounts[code] + CountIf(answers, HasStatus(code)))
    && r.non2xx == m.non2xx + |answers| - CountIf(answers, IsSuccess())
    && r.timeouts == m.timeouts + errors.timeouts
    && r.connectionErrors == m.connectionErrors + errors.connectionErrors
    && r.protocolErrors == m.protocolErrors + errors.protocolErrors && r.aborted == m.aborted + errors.aborted
  }

  predicate Unmoved(m: Measurement, r: Measurement) {
    && r.completed == m.completed && r.latencies == m.latencies && r.statusCounts == m.statusCounts
    && r.non2xx == m.non2xx && r.timeouts == m.timeouts && r.connectionErrors == m.connectionErrors
    && r.protocolErrors == m.protocolErrors && r.aborted == m.aborted
  }

  lemma UnmovedIs(m: Measurement, r: Measurement)
    requires Unmoved(m, r)
    ensures Moved(m, r, [], NO_ERRORS)
  {
    assert Samples([]) == [];
    assert m.latencies + [] == m.latencies;
  }

  // ---------------------------------------------------------------- what sending leaves alone

  lemma SendUnmoved(d: Options, running: bool, c: Conn, m: Measurement, stamps: seq<real>, scheduled: bool,
                    accepted: bool)
    ensures Unmoved(m, Send(d, running, c, m, stamps, scheduled, accepted).m)
  {
  }

  lemma ReplenishUnmoved(d: Options, running: bool, c: Conn, m: Measurement, count: nat, now: real, accepted: bool)
    ensures Unmoved(m, Replenish(d, running, c, m, count, now, accepted).m)
    ensures Unmoved(m, FillClosedLoop(d, running, c, m, now, accepted).m)
    ensures Unmoved(m, DrainConn(d, running, c, m, now, accepted).m)
    ensures Unmoved(m, FlushOne(d, running, c, m, now, accepted).m)
  {
    SameIsUnmoved(m);
    SendUnmoved(d, running, c, m, Repeat(now, count), false, accepted);
    SendUnmoved(d, running, c, m, Repeat(now, d.pipelining), false, accepted);
    SendUnmoved(d, running, c, m, Stamps(d, c.rateBatch, now), true, accepted);
    var freed := c.(backpressured := false, pendingClosedLoop := 0);
    SendUnmoved(d, running, freed, m, Repeat(now, c.pendingClosedLoop), false, accepted);
    hide Send, Unmoved, Repeat, Stamps;
    assert Unmoved(m, Replenish(d, running, c, m, count, now, accepted).m);
    assert Unmoved(m, FillClosedLoop(d, running, c, m, now, accepted).m);
    assert Unmoved(m, DrainConn(d, running, c, m, now, accepted).m);
    assert Unmoved(m, FlushOne(d, running, c, m, now, accepted).m);
    hide *;
  }

  lemma {:induction false} FlushUnmoved(d: Options, w: Worker, n: nat, now: real, accepted: seq<bool>)
    requires n <= |w.conns| <= |accepted|
    ensures Unmoved(w.m, Flush(d, w, n, now, accepted).m)
    decreases n
  {
    if n > 0 {
      FlushUnmoved(d, w, n - 1, now, accepted);
      var before := Flush(d, w, n - 1, now, accepted);
      ReplenishUnmoved(d, w.running, before.conns[n - 1], before.m, 0, now, accepted[n - 1]);
      hide FlushOne;
    }
  }

  lemma TickUnmoved(d: Options, w: Worker, now: real, accepted: seq<bool>)
    requires OptionsOk(d) && w.nextRateConnection < |w.conns| <= |accepted|
    ensures Unmoved(w.m, OnRateTick(d, w, now, accepted).m)
  {
    hide Flush, Dispatch, Expected, GlobalExpected;
    if w.running && d.rate.Some? {
      var w1 := Scheduled(d, w, now).0;
      FlushUnmoved(d, w1, |w1.conns|, now, accepted);
    }
  }

  // ---------------------------------------------------------------- responses

  lemma OneStatus(status: nat, now: real, sentAt: real, code: nat)
    ensures CountIf([Answered(status, now - sentAt)], HasStatus(code)) == if status == code then 1 else 0
    ensures CountIf([Answered(status, now - sentAt)], IsSuccess()) == if 200 <= status < 300 then 1 else 0
  {
    assert [Answered(status, now - sentAt)][..0] == [];
  }

  /** A response that answers a request moves the counters by that answer. */
  lemma OneAnswer(d: Options, m: Measurement, r: Measurement, answers: seq<Answered>, protocolErrors: nat,
                  status: nat, now: real, sentAt: real)
    requires OptionsOk(d) && MeasurementShape(d, r) && status < 600
    requires Moved(m, r, answers, Errors(0, 0, protocolErrors, 0))
    ensures Moved(m, RecordResponse(d, r, status, now - sentAt), answers + [Answered(status, now - sentAt)],
                  Errors(0, 0, protocolErrors, 0))
  {
    var one := [Answered(status, now - sentAt)];
    assert Samples(answers + one) == Samples(answers) + [LatencyHistogram.Finite(now - sentAt)];
    forall code: nat
      ensures CountIf(answers + one, HasStatus(code))
           == CountIf(answers, HasStatus(code)) + if status == code then 1 else 0
    {
      CountIfConcat(answers, one, HasStatus(code));
      OneStatus(status, now, sentAt, code);
    }
    CountIfConcat(answers, one, IsSuccess());
    OneStatus(status, now, sentAt, 0);
    hide CountIf, Samples;
  }

  /** The answers that ask for a replacement: those that come before the end of a closed-loop phase. */
  function Replaced(nows: seq<real>, n: nat, stopAt: real): nat
    requires n <= |nows|
  {
    if n == 0 then 0 else Replaced(nows, n - 1, stopAt) + if nows[n - 1] < stopAt then 1 else 0
  }

  /** The first responses of a push have answered the first requests of the queue, and changed nothing else. */
  predicate AnsweredSoFar(d: Options, w: Worker, i: nat, statuses: seq<nat>, nows: seq<real>, r: Worker, owed: nat)
    requires i < |w.conns| && |nows| >= |statuses|
  {
    var queue := w.conns[i].timestamps;
    var n := Least(|statuses|, |queue|);
    && r == w.(conns := r.conns, m := r.m)
    && r.conns == w.conns[i := w.conns[i].(timestamps := queue[n..],
                               protocolFailure := w.conns[i].protocolFailure || |statuses| > n)]
    && Moved(w.m, r.m, Pair(statuses, nows, queue), Errors(0, 0, |statuses| - n, 0))
    && r.m.sent == w.m.sent && r.m.scheduledOperations == w.m.scheduledOperations
    && owed == if d.rate.None? then Replaced(nows, n, w.stopAt) else 0
  }

  /** What one response does to a queue whose first `k` requests have been answered. */
  lemma AnswerConnNext(d: Options, c: Conn, queue: seq<real>, failed: bool, m: Measurement, k: nat, status: nat,
                       now: real)
    requires OptionsOk(d) && MeasurementShape(d, m) && status < 600
    requires c.timestamps == queue[Least(k, |queue|)..] && c.protocolFailure == (failed || k > |queue|)
    ensures AnswerConn(d, true, c, m, status, now)
         == if k < |queue|
            then Answer(c.(timestamps := queue[k + 1..]), RecordResponse(d, m, status, now - queue[k]), true)
            else Answer(c.(protocolFailure := true), RecordProtocolError(m, true), false)
  {
    hide RecordResponse, RecordProtocolError;
    if k < |queue| {
      assert queue[k..][1..] == queue[k + 1..];
    }
  }

  lemma OnResponseIs(d: Options, w: Worker, i: nat, status: nat, now: real)
    requires OptionsOk(d) && i < |w.conns| && MeasurementShape(d, w.m) && status < 600
    requires w.running && w.phase != WarmupDraining
    ensures var a := AnswerConn(d, true, w.conns[i], w.m, status, now);
            OnResponse(d, w, i, status, now)
            == (w.(conns := w.conns[i := a.conn], m := a.m), a.answered && d.rate.None? && now < w.stopAt)
  {
    hide AnswerConn;
  }

  lemma PairNext(statuses: seq<nat>, nows: seq<real>, queue: seq<real>)
    requires statuses != [] && |nows| >= |statuses|
    ensures var k := |statuses| - 1;
            Pair(statuses, nows, queue)
            == (Pair(statuses[..k], nows, queue)
                + if k < |queue| then [Answered(statuses[k], nows[k] - queue[k])] else [])
  {
  }

  lemma AnswerNext(d: Options, w: Worker, i: nat, statuses: seq<nat>, nows: seq<real>, before: Worker, owed: nat)
    requires OptionsOk(d) && i < |w.conns| && MeasurementShape(d, w.m) && MeasurementShape(d, before.m)
    requires statuses != [] && StatusesOk(statuses) && |nows| >= |statuses| && w.running && w.phase != WarmupDraining
    requires AnsweredSoFar(d, w, i, statuses[..|statuses| - 1], nows, before, owed)
    ensures var k := |statuses| - 1;
            var one := OnResponse(d, before, i, statuses[k], nows[k]);
            AnsweredSoFar(d, w, i, statuses, nows, one.0, owed + if one.1 then 1 else 0)
  {
    hide Moved, RecordResponse, Pair, AnswerConn, RecordProtocolError, OnResponse;
    var k := |statuses| - 1;
    OnResponseIs(d, before, i, statuses[k], nows[k]);
    var queue := w.conns[i].timestamps;
    var earlier := Pair(statuses[..k], nows, queue);
    AnswerConnNext(d, before.conns[i], queue, w.conns[i].protocolFailure, before.m, k, statuses[k], nows[k]);
    PairNext(statuses, nows, queue);
    if k < |queue| {
      OneAnswer(d, w.m, before.m, earlier, 0, statuses[k], nows[k], queue[k]);
    } else {
      assert earlier + [] == earlier;
      OneOrphan(w.m, before.m, earlier, k - |queue|);
    }
    RecordKeeps(d, before.m, statuses[k], nows[k]);
  }

  /** The responses of one push, in a running phase, answer the requests of the queue in order. */
  lemma {:induction false} ResponsesAnswer(d: Options, w: Worker, i: nat, statuses: seq<nat>, nows: seq<real>)
    requires OptionsOk(d) && i < |w.conns| && MeasurementShape(d, w.m) && StatusesOk(statuses)
    requires |nows| >= |statuses| && w.running && w.phase != WarmupDraining
    ensures var r := OnResponses(d, w, i, statuses, nows); AnsweredSoFar(d, w, i, statuses, nows, r.0, r.1)
    decreases |statuses|
  {
    hide Moved;
    if statuses == [] {
      UnmovedIs(w.m, w.m);
      assert Pair(statuses, nows, w.conns[i].timestamps) == [];
      assert w.conns[i].timestamps[0..] == w.conns[i].timestamps;
      assert w.conns[i := w.conns[i]] == w.conns;
    } else {
      hide AnsweredSoFar, OnResponse;
      ResponsesAnswer(d, w, i, statuses[..|statuses| - 1], nows);
      var before := OnResponses(d, w, i, statuses[..|statuses| - 1], nows);
      AnswerNext(d, w, i, statuses, nows, before.0, before.1);
    }
  }

  lemma OneOrphan(m: Measurement, r: Measurement, answers: seq<Answered>, protocolErrors: nat)
    requires Moved(m, r, answers, Errors(0, 0, protocolErrors, 0))
    ensures Moved(m, RecordProtocolError(r, true), answers, Errors(0, 0, protocolErrors + 1, 0))
  {
    hide Samples, CountIf;
  }

  lemma RecordKeeps(d: Options, m: Measurement, status: nat, now: real)
    requires OptionsOk(d) && MeasurementShape(d, m) && status < 600
    ensures var r := RecordProtocolError(m, true); r.sent == m.sent && r.scheduledOperations == m.scheduledOperations
    ensures forall latencyMs: real ::
              var r := RecordResponse(d, m, status, latencyMs);
              r.sent == m.sent && r.scheduledOperations == m.scheduledOperations
  {
  }

  // ---------------------------------------------------------------- one event

  /** The answers that an event brings. */
  function AnswersOf(d: Options, w: Worker, e: Event): seq<Answered> {
    match e
    case Data(i, chunk, nows, _) =>
      if i < |w.conns| && Stream.Valid(w.conns[i].parser) && |nows| >= |Parsed(d, w, i, chunk).statuses|
      then Pair(Parsed(d, w, i, chunk).statuses, nows, w.conns[i].timestamps)
      else []
    case _ => []
  }

  /**
    * The errors that it is: a timeout; a socket error that follows from no failure noticed before; a response that
    * nothing waits for, or bytes that are no response; and a closed socket with requests in flight.
    */
  function ErrorsOf(d: Options, w: Worker, e: Event): Errors {
    match e
    case Timeout(_) => NO_ERRORS.(timeouts := 1)
    case SocketError(i) =>
      if i < |w.conns| && !w.conns[i].protocolFailure && !w.conns[i].timeoutFailure
      then NO_ERRORS.(connectionErrors := 1) else NO_ERRORS
    case Data(i, chunk, _, _) =>
      if i < |w.conns| && Stream.Valid(w.conns[i].parser) then
        var parsed := Parsed(d, w, i, chunk);
        var orphans := |parsed.statuses| - Least(|parsed.statuses|, |w.conns[i].timestamps|);
        NO_ERRORS.(protocolErrors := orphans + if parsed.error.Some? then 1 else 0)
      else NO_ERRORS
    case Close(i) =>
      if i < |w.conns| && w.conns[i].open then NO_ERRORS.(aborted := |w.conns[i].timestamps|) else NO_ERRORS
    case _ => NO_ERRORS
  }

  lemma MovedThenUnmoved(m: Measurement, r: Measurement, u: Measurement, answers: seq<Answered>, errors: Errors)
    requires Moved(m, r, answers, errors) && Unmoved(r, u)
    ensures Moved(m, u, answers, errors)
  {
  }

  lemma MovedProtocolError(m: Measurement, r: Measurement, answers: seq<Answered>, errors: Errors)
    requires Moved(m, r, answers, errors)
    ensures Moved(m, RecordProtocolError(r, true), answers, errors.(protocolErrors := errors.protocolErrors + 1))
  {
    hide CountIf, Samples;
  }

  lemma DataMoved(d: Options, w: Worker, i: nat, chunk: Stream.Outcome, nows: seq<real>, accepted: bool)
    requires OptionsOk(d) && i < |w.conns| && MeasurementShape(d, w.m) && w.running && w.phase != WarmupDraining
    requires StatusesOk(chunk.statuses) && |nows| == |chunk.statuses| + 1 && w.conns[i].open && !w.conns[i].stopped
    ensures var queue := w.conns[i].timestamps;
            var orphans := |chunk.statuses| - Least(|chunk.statuses|, |queue|);
            Moved(w.m, OnData(d, w, i, chunk, nows, accepted).m, Pair(chunk.statuses, nows, queue),
                  NO_ERRORS.(protocolErrors := orphans + if chunk.error.Some? then 1 else 0))
  {
    hide Moved, Unmoved, Replenish, OnResponses;
    var start := w.(conns := w.conns[i := w.conns[i].(parser := chunk.parser)]);
    ResponsesAnswer(d, start, i, chunk.statuses, nows);
    var r := OnResponses(d, start, i, chunk.statuses, nows);
    var queue := w.conns[i].timestamps;
    var answers := Pair(chunk.statuses, nows, queue);
    var errors := Errors(0, 0, |chunk.statuses| - Least(|chunk.statuses|, |queue|), 0);
    assert start.conns[i].timestamps == queue;
    assert Moved(w.m, r.0.m, answers, errors);
    if chunk.error.Some? {
      MovedProtocolError(w.m, r.0.m, answers, errors);
    } else if r.1 > 0 {
      var s := Replenish(d, r.0.running, r.0.conns[i], r.0.m, r.1, nows[|nows| - 1], accepted);
      ReplenishUnmoved(d, r.0.running, r.0.conns[i], r.0.m, r.1, nows[|nows| - 1], accepted);
      MovedThenUnmoved(w.m, r.0.m, s.m, answers, errors);
    }
    hide AnsweredSoFar;
  }

  lemma CloseMoved(w: Worker, i: nat)
    requires i < |w.conns| && w.running && w.phase != WarmupDraining
    ensures Moved(w.m, OnClose(w, i).m, [],
                  NO_ERRORS.(aborted := if w.conns[i].open then |w.conns[i].timestamps| else 0))
  {
    UnmovedIs(w.m, w.m);
    hide CountIf, Samples;
  }

  lemma SmallMoves(d: Options, w: Worker, e: Event)
    requires OptionsOk(d) && w.running
    requires (e.Timeout? || e.SocketError?) && e.i < |w.conns|
    ensures Moved(w.m, (if e.Timeout? then OnTimeout(w, e.i) else OnError(w, e.i)).m, [], ErrorsOf(d, w, e))
  {
    UnmovedIs(w.m, w.m);
    hide CountIf, Samples;
  }

  lemma ConnectUnmoved(d: Options, w: Worker, i: nat, now: real, accepted: bool)
    requires i < |w.conns|
    ensures Unmoved(w.m, OnConnect(d, w, i, now, accepted).m)
  {
    hide FillClosedLoop, Unmoved;
    var c := w.conns[i].(connected := true, reconnectScheduled := false);
    ReplenishUnmoved(d, w.running, c, w.m, 0, now, accepted);
    SameIsUnmoved(w.m);
  }

  /** Events that bring no answer and are no error. */
  lemma OthersUnmoved(d: Options, w: Worker, e: Event, now: real)
    requires OptionsOk(d) && Enabled(d, w, e, now) && MeasurementShape(d, w.m) && w.nextRateConnection < |w.conns|
    requires e.Connect? || e.Drain? || e.RateTick? || e.Reconnect?
    ensures Unmoved(w.m, Step(d, w, e, now).m)
  {
    hide Unmoved, OnConnect, DrainConn, OnRateTick, MeasurementShape;
    SameIsUnmoved(w.m);
    match e
    case Connect(i, accepted) => ConnectUnmoved(d, w, i, now, accepted);
    case Drain(i, accepted) => ReplenishUnmoved(d, w.running, w.conns[i], w.m, 0, now, accepted);
    case RateTick(accepts) => TickUnmoved(d, w, now, accepts);
    case _ =>
  }

  /** In a running phase every event moves the counters by its answers and errors, and by nothing else. */
  lemma EventMoves(d: Options, w: Worker, e: Event, now: real)
    requires OptionsOk(d) && Inv(d, w) && Enabled(d, w, e, now) && w.running && Step(d, w, e, now).running
    ensures Moved(w.m, Step(d, w, e, now).m, AnswersOf(d, w, e), ErrorsOf(d, w, e))
  {
    hide Moved, Unmoved, Inv, OnData, OnClose, OnRateTick, OnTimeout, OnError, OnConnect, OnDrain, ConnsOk;
    RunningShape(d, w);
    match e {
      case Data(i, chunk, nows, accepted) =>
        OpenWhileConnected(d, w, i);
        DataMoved(d, w, i, Parsed(d, w, i, chunk), nows, accepted);
      case Close(i) => CloseMoved(w, i);
      case Timeout(i) => SmallMoves(d, w, e);
      case SocketError(i) => SmallMoves(d, w, e);
      case Start(_, _, _) =>
      case StopTimer =>
      case Abort =>
      case _ =>
        OthersUnmoved(d, w, e, now);
        UnmovedIs(w.m, Step(d, w, e, now).m);
    }
  }

  lemma SameIsUnmoved(m: Measurement)
    ensures Unmoved(m, m)
  {
  }

  lemma RunningShape(d: Options, w: Worker)
    requires OptionsOk(d) && Inv(d, w) && w.running
    ensures MeasurementShape(d, w.m) && Running(w.phase) && w.phase != WarmupDraining
    ensures w.nextRateConnection < |w.conns| == d.connections
  {
    hide ConnsOk, Books, Tallies, RateBooks, PostsOk;
  }

  lemma OpenWhileConnected(d: Options, w: Worker, i: nat)
    requires OptionsOk(d) && Inv(d, w) && w.running && i < |w.conns| && w.conns[i].connected
    ensures w.conns[i].open && !w.conns[i].stopped
  {
    hide Books, Tallies, RateBooks, PostsOk;
    assert ConnOk(d, w.phase, Live(w), w.conns[i], 0);
  }

  // ---------------------------------------------------------------- a whole phase

  /** The answers of the events from state `first` to state `last`. */
  function PhaseAnswers(d: Options, t: Trace, first: nat, last: nat): seq<Answered>
    requires first <= last < |t.states| == |t.events| + 1
    decreases last
  {
    if first == last then []
    else
      PhaseAnswers(d, t, first, last - 1) + AnswersOf(d, t.states[last - 1], t.events[last - 1].event)
  }

  function PhaseErrors(d: Options, t: Trace, first: nat, last: nat): Errors
    requires first <= last < |t.states| == |t.events| + 1
    decreases last
  {
    if first == last then NO_ERRORS
    else AddErrors(PhaseErrors(d, t, first, last - 1), ErrorsOf(d, t.states[last - 1], t.events[last - 1].event))
  }

  function AddErrors(a: Errors, b: Errors): Errors {
    Errors(a.timeouts + b.timeouts, a.connectionErrors + b.connectionErrors, a.protocolErrors + b.protocolErrors,
           a.aborted + b.aborted)
  }

  lemma MovedTwice(m: Measurement, r: Measurement, u: Measurement, a: seq<Answered>, b: seq<Answered>,
                   e: Errors, f: Errors)
    requires Moved(m, r, a, e) && Moved(r, u, b, f)
    ensures Moved(m, u, a + b, AddErrors(e, f))
  {
    assert Samples(a + b) == Samples(a) + Samples(b);
    forall code: nat
      ensures CountIf(a + b, HasStatus(code)) == CountIf(a, HasStatus(code)) + CountIf(b, HasStatus(code))
    {
      CountIfConcat(a, b, HasStatus(code));
    }
    CountIfConcat(a, b, IsSuccess());
    hide CountIf, Samples;
  }

  /** The states from `first` to `last` are those of one phase that an idle worker has started. */
  predicate PhaseRuns(d: Options, t: Trace, first: nat, last: nat)
    requires 0 < first <= last < |t.states| == |t.events| + 1
  {
    && t.events[first - 1].event.Start? && t.states[first - 1].phase == Idle
    && forall k :: first <= k <= last ==> t.states[k].running
  }

  lemma {:induction false} FillAllUnmoved(d: Options, w: Worker, n: nat, now: real, accepted: seq<bool>)
    requires n <= |w.conns| <= |accepted|
    ensures Unmoved(w.m, FillAll(d, w, n, now, accepted).m)
    decreases n
  {
    if n > 0 {
      FillAllUnmoved(d, w, n - 1, now, accepted);
      var before := FillAll(d, w, n - 1, now, accepted);
      ReplenishUnmoved(d, w.running, before.conns[n - 1], before.m, 0, now, accepted[n - 1]);
      hide FillClosedLoop;
    }
  }

  /** A phase begins with counters at zero, at the time of its start, and ends after its duration. */
  lemma PhaseBegins(d: Options, w: Worker, measuring: bool, durationMs: real, now: real, accepts: seq<bool>)
    requires OptionsOk(d) && w.phase == Idle && |accepts| == |w.conns|
    ensures var r := OnStart(d, w, measuring, durationMs, now, accepts);
            && Moved(NoCounts(d), r.m, [], NO_ERRORS) && r.running
            && r.startedAt == now && r.stopAt == now + durationMs && r.phaseScheduled == 0
            && r.phase == if measuring then Measuring else Warmup
  {
    var w1 := Started(d, w, measuring, durationMs, now);
    FillAllUnmoved(d, w1, |w1.conns|, now, accepts);
    FillAllSteady(d, w1, |w1.conns|, now, accepts);
    SameIsUnmoved(NoCounts(d));
    hide FillAll, Unmoved;
    UnmovedIs(NoCounts(d), OnStart(d, w, measuring, durationMs, now, accepts).m);
  }

  lemma {:induction false} FillAllSteady(d: Options, w: Worker, n: nat, now: real, accepted: seq<bool>)
    requires n <= |w.conns| <= |accepted|
    ensures FillAll(d, w, n, now, accepted).phase == w.phase
    decreases n
  {
    if n > 0 {
      FillAllSteady(d, w, n - 1, now, accepted);
    }
  }

  /** While a phase runs, its times and its kind stay, and the phase goes on until the timer or an abort. */
  lemma PhaseGoesOn(d: Options, w: Worker, e: Event, now: real)
    requires OptionsOk(d) && Inv(d, w) && Enabled(d, w, e, now) && w.running
    ensures var r := Step(d, w, e, now);
            && (r.running <==> !(e.StopTimer? || e.Abort? || e.Start?))
            && (r.running ==> r.phase == w.phase && r.startedAt == w.startedAt && r.stopAt == w.stopAt)
  {
    hide Inv, OnData, OnClose, OnRateTick, FillClosedLoop, DrainConn;
    RunningShape(d, w);
    match e {
      case Data(i, chunk, nows, accepted) =>
        OpenWhileConnected(d, w, i);
        DataSteady(d, w, i, Parsed(d, w, i, chunk), nows, accepted);
      case Close(i) => CloseSteady(w, i);
      case RateTick(accepts) => TickSteady(d, w, now, accepts);
      case _ =>
    }
  }

  lemma DataSteady(d: Options, w: Worker, i: nat, chunk: Stream.Outcome, nows: seq<real>, accepted: bool)
    requires OptionsOk(d) && i < |w.conns| && MeasurementShape(d, w.m) && w.running && w.phase != WarmupDraining
    requires StatusesOk(chunk.statuses) && |nows| == |chunk.statuses| + 1
    ensures var r := OnData(d, w, i, chunk, nows, accepted);
            r.phase == w.phase && r.running && r.startedAt == w.startedAt && r.stopAt == w.stopAt
  {
    hide Moved, Replenish, OnResponses;
    var start := w.(conns := w.conns[i := w.conns[i].(parser := chunk.parser)]);
    ResponsesAnswer(d, start, i, chunk.statuses, nows);
  }

  lemma CloseSteady(w: Worker, i: nat)
    requires i < |w.conns| && w.running && w.phase != WarmupDraining
    ensures var r := OnClose(w, i);
            r.phase == w.phase && r.running && r.startedAt == w.startedAt && r.stopAt == w.stopAt
  {
  }

  lemma TickSteady(d: Options, w: Worker, now: real, accepts: seq<bool>)
    requires OptionsOk(d) && w.nextRateConnection < |w.conns| <= |accepts|
    ensures var r := OnRateTick(d, w, now, accepts);
            r.phase == w.phase && r.running == w.running && r.startedAt == w.startedAt && r.stopAt == w.stopAt
  {
    hide Dispatch, Flush, Expected, GlobalExpected;
    if w.running && d.rate.Some? {
      var w1 := Scheduled(d, w, now).0;
      FlushPhase(d, w1, |w1.conns|, now, accepts);
    }
  }

  lemma {:induction false} FlushPhase(d: Options, w: Worker, n: nat, now: real, accepted: seq<bool>)
    requires n <= |w.conns| <= |accepted|
    ensures Flush(d, w, n, now, accepted).phase == w.phase
    decreases n
  {
    if n > 0 {
      FlushPhase(d, w, n - 1, now, accepted);
    }
  }

  /**
    * At every point of a phase its counters are those of the answers and errors since it was started; and it runs from
    * the time of its start, for its duration, as the kind of phase that was asked for.
    */
  lemma {:induction false} PhaseCounted(d: Options, t: Trace, first: nat, last: nat)
    requires OptionsOk(d) && IsRun(d, t) && 0 < first <= last < |t.states| && PhaseRuns(d, t, first, last)
    ensures var (start, w) := (t.events[first - 1], t.states[last]);
            && Moved(NoCounts(d), w.m, PhaseAnswers(d, t, first, last), PhaseErrors(d, t, first, last))
            && w.startedAt == start.at && w.stopAt == start.at + start.event.durationMs
            && w.phase == if start.event.measuring then Measuring else Warmup
    decreases last
  {
    hide Inv, Moved, Step, Enabled, MeasurementShape, NoCounts, OnStart;
    EngineTheorems.StepInRun(d, t, last);
    var e := t.events[last - 1];
    if first == last {
      assert t.states[last] == Step(d, t.states[last - 1], e.event, e.at);
      StartStep(d, t.states[last - 1], e.event, e.at);
    } else {
      PhaseCounted(d, t, first, last - 1);
      EventMoves(d, t.states[last - 1], e.event, e.at);
      PhaseGoesOn(d, t.states[last - 1], e.event, e.at);
      MovedTwice(NoCounts(d), t.states[last - 1].m, t.states[last].m, PhaseAnswers(d, t, first, last - 1),
                 AnswersOf(d, t.states[last - 1], e.event), PhaseErrors(d, t, first, last - 1),
                 ErrorsOf(d, t.states[last - 1], e.event));
    }
  }

  lemma StartStep(d: Options, w: Worker, e: Event, now: real)
    requires OptionsOk(d) && Inv(d, w) && Enabled(d, w, e, now) && e.Start? && w.phase == Idle
    ensures var r := Step(d, w, e, now);
            && Moved(NoCounts(d), r.m, [], NO_ERRORS)
            && r.startedAt == now && r.stopAt == now + e.durationMs
            && r.phase == if e.measuring then Measuring else Warmup
  {
    hide Inv, Moved, OnStart, NoCounts;
    PhaseBegins(d, w, e.measuring, e.durationMs, now, e.accepts);
  }

  /**
    * The result of a measurement: its latencies are, one for one and in order, the times from the send times of the
    * requests answered in the phase to their responses; its counts by status are those of these answers; its errors are
    * those of the phase; and what is then in flight is posted with it.
    */
  lemma ResultExact(d: Options, t: Trace, first: nat, last: nat)
    requires OptionsOk(d) && IsRun(d, t) && 0 < first <= last && last + 1 < |t.states| && PhaseRuns(d, t, first, last)
    requires t.events[first - 1].event.measuring && t.events[last].event.StopTimer?
    ensures var (before, after) := (t.states[last], t.states[last + 1]);
            && |after.posted| == |before.posted| + 1 && after.posted[..|before.posted|] == before.posted
            && after.posted[|before.posted|].Posted? && after.phase == Finished
            && var posted := after.posted[|before.posted|];
               var answers := PhaseAnswers(d, t, first, last);
               && Counted(posted.result, answers, PhaseErrors(d, t, first, last))
               && posted.inFlightAtStop == TotalInFlight(before.conns)
  {
    hide Inv, Moved, Enabled, MeasurementShape, Samples, PhaseAnswers, PhaseErrors;
    PhaseCounted(d, t, first, last);
    EngineTheorems.StepInRun(d, t, last + 1);
    MovedFromZero(d, t.states[last].m, PhaseAnswers(d, t, first, last), PhaseErrors(d, t, first, last));
  }

  /** The counters are those of these answers and errors. */
  predicate Counted(m: Measurement, answers: seq<Answered>, errors: Errors) {
    && m.latencies == Samples(answers) && m.completed == |answers|
    && |m.statusCounts| == 600
    && (forall code :: 0 <= code < 600 ==> m.statusCounts[code] == CountIf(answers, HasStatus(code)))
    && m.non2xx + CountIf(answers, IsSuccess()) == |answers|
    && m.timeouts == errors.timeouts && m.connectionErrors == errors.connectionErrors
    && m.protocolErrors == errors.protocolErrors && m.aborted == errors.aborted
  }

  lemma MovedFromZero(d: Options, m: Measurement, answers: seq<Answered>, errors: Errors)
    requires OptionsOk(d) && Moved(NoCounts(d), m, answers, errors)
    ensures Counted(m, answers, errors)
  {
    hide Samples, CountIf;
    assert [] + Samples(answers) == Samples(answers);
  }
}
