/** What each event does to each connection, in every run: its queue, its backpressure, its socket and its parser. */
module EngineConnections {
  import opened Basics
  import opened Http1Engine
  import opened EngineInvariant
  import opened EngineScheduler
  import opened EngineRuns
  import opened EngineAnswers
  import EngineArrivals
  import EngineTheorems
  import Bytes
  import Stream = ResponseStream

  /** The worker stops for good with this event: an abort, the end of a measurement, or a start out of turn. */
  predicate Finishes(w: Worker, e: Event) {
    e.Abort? || (e.StopTimer? && w.phase == Measuring) || (e.Start? && w.phase != Idle)
  }

  /** A closed loop is running. */
  predicate Loops(d: Options, w: Worker) {
    w.running && d.rate.None?
  }

  function Responses(d: Options, w: Worker, e: Event): nat {
    if e.Data? && e.i < |w.conns| && Stream.Valid(w.conns[e.i].parser)
    then |Parsed(d, w, e.i, e.chunk).statuses| else 0
  }

  /** Bytes that are no response. */
  predicate Malformed(d: Options, w: Worker, e: Event) {
    e.Data? && e.i < |w.conns| && Stream.Valid(w.conns[e.i].parser) && Parsed(d, w, e.i, e.chunk).error.Some?
  }

  /** The event is one of this connection's socket, which has not been let go of. */
  predicate OfSocket(w: Worker, e: Event, j: nat)
    requires j < |w.conns|
  {
    w.conns[j].open &&
    match e
    case Data(i, _, _, _) => i == j && !w.conns[j].stopped
    case Drain(i, _) => i == j
    case Close(i) => i == j
    case Connect(i, _) => i == j && !w.conns[j].stopped
    case _ => false
  }

  /** The requests at the front of the queue that the event takes: those it answers, or all that it aborts. */
  function Removed(d: Options, w: Worker, e: Event, j: nat): (n: nat)
    requires j < |w.conns|
    ensures n <= |w.conns[j].timestamps|
  {
    if Finishes(w, e) || (e.Close? && OfSocket(w, e, j)) then |w.conns[j].timestamps|
    else if e.Data? && OfSocket(w, e, j) then Least(Responses(d, w, e), |w.conns[j].timestamps|)
    else 0
  }

  /** The requests that a closed loop sends with the event. */
  function Sent(d: Options, w: Worker, e: Event, j: nat): nat
    requires j < |w.conns|
  {
    var c := w.conns[j];
    match e
    case Connect(_, _) => if Loops(d, w) && OfSocket(w, e, j) && !c.backpressured then d.pipelining else 0
    case Data(_, _, nows, _) =>
      if Loops(d, w) && OfSocket(w, e, j) && !c.backpressured && !Malformed(d, w, e) && |nows| >= Responses(d, w, e)
      then Replaced(nows, Removed(d, w, e, j), w.stopAt) else 0
    case Drain(_, _) => if Loops(d, w) && OfSocket(w, e, j) && c.backpressured then c.pendingClosedLoop else 0
    case Start(_, _, _) =>
      if w.phase == Idle && d.rate.None? && c.connected && !c.backpressured then d.pipelining else 0
    case _ => 0
  }

  /** The socket took what was written to it without asking to wait. */
  predicate Accepted(e: Event, j: nat) {
    match e
    case Connect(_, accepted) => accepted
    case Data(_, _, _, accepted) => accepted
    case Drain(_, accepted) => accepted
    case Start(_, _, accepts) => j < |accepts| && accepts[j]
    case RateTick(accepts) => j < |accepts| && accepts[j]
    case _ => true
  }

  /** The event ends backpressure. */
  predicate Relieves(w: Worker, e: Event, j: nat)
    requires j < |w.conns|
  {
    Finishes(w, e) || ((e.Drain? || e.Close?) && OfSocket(w, e, j))
  }

  /** The queue loses its front and gains requests sent at the time of the event; a refused write holds back. */
  predicate QueueMoves(d: Options, w: Worker, e: Event, now: real, j: nat, u: Conn)
    requires j < |w.conns|
  {
    var (c, n) := (w.conns[j], Sent(d, w, e, j));
    && u.timestamps == c.timestamps[Removed(d, w, e, j)..] + Repeat(now, n)
    && u.backpressured == ((c.backpressured && !Relieves(w, e, j)) || (n > 0 && !Accepted(e, j)))
  }

  /** The socket, the reconnection and the failures noticed. */
  predicate LinkMoves(d: Options, w: Worker, e: Event, j: nat, u: Conn)
    requires j < |w.conns|
  {
    var c := w.conns[j];
    var (closes, connects) := (e.Close? && OfSocket(w, e, j), e.Connect? && OfSocket(w, e, j));
    var hears := e.Data? && OfSocket(w, e, j) && Stream.Valid(w.conns[j].parser);
    && u.stopped == (c.stopped || Finishes(w, e))
    && u.open == (!Finishes(w, e) && !closes && (c.open || (e.Reconnect? && e.i == j && !c.stopped)))
    && u.connected == (connects || (c.connected && !closes))
    && u.reconnectScheduled
       == ((c.reconnectScheduled && !connects && !(e.Reconnect? && e.i == j)) || (closes && w.phase != Finished))
    && u.protocolFailure
       == (!closes && (c.protocolFailure
                       || (hears && (Malformed(d, w, e) || Responses(d, w, e) > |c.timestamps|))))
    && u.timeoutFailure == (!closes && (c.timeoutFailure || (e.Timeout? && e.i == j)))
    && u.parser == if closes then Stream.INITIAL
                   else if hears then Parsed(d, w, j, e.chunk).parser
                   else c.parser
  }

  predicate ConnMoves(d: Options, w: Worker, e: Event, now: real, j: nat, u: Conn)
    requires j < |w.conns|
  {
    QueueMoves(d, w, e, now, j, u) && LinkMoves(d, w, e, j, u)
  }

  // ---------------------------------------------------------------- sending

  /** What sending to a connection that can take it does. */
  lemma SendMoves(d: Options, running: bool, c: Conn, m: Measurement, n: nat, now: real, accepted: bool)
    requires c.open && c.connected && !c.stopped && |c.timestamps| + n <= d.pipelining
    ensures var u := Send(d, running, c, m, Repeat(now, n), false, accepted).conn;
            u == c.(timestamps := c.timestamps + Repeat(now, n),
                    backpressured := c.backpressured || (n > 0 && !accepted))
  {
    if n == 0 {
      assert Repeat(now, 0) == [];
      assert c.timestamps + [] == c.timestamps;
    }
  }

  lemma NothingSent(s: seq<real>, now: real)
    ensures s[0..] + Repeat(now, 0) == s
  {
  }

  // ---------------------------------------------------------------- responses

  /** What responses to it, or to another connection, leave of a connection. */
  predicate Answered(a: Conn, b: Conn, responses: nat) {
    && b.timestamps == a.timestamps[Least(responses, |a.timestamps|)..]
    && b.protocolFailure == (a.protocolFailure || responses > |a.timestamps|)
    && b.open == a.open && b.connected == a.connected && b.stopped == a.stopped
    && b.reconnectScheduled == a.reconnectScheduled && b.timeoutFailure == a.timeoutFailure
    && b.backpressured == a.backpressured && b.parser == a.parser
  }

  lemma WarmupLeaves(w: Worker, j: nat)
    requires j < |w.conns|
    ensures Answered(w.conns[j], MaybeCompleteWarmup(w).conns[j], 0)
  {
    hide TotalInFlight, StopAll;
    var c := w.conns[j];
    assert c.timestamps[Least(0, |c.timestamps|)..] == c.timestamps;
    assert MaybeCompleteWarmup(w).conns[j] == c || MaybeCompleteWarmup(w).conns[j] == ResetPhaseState(c);
  }

  lemma OneMoves(d: Options, w: Worker, i: nat, status: nat, now: real, j: nat, a: Conn, k: nat)
    requires OptionsOk(d) && i < |w.conns| && MeasurementShape(d, w.m) && status < 600 && j < |w.conns|
    requires Answered(a, w.conns[j], if i == j then k else 0)
    ensures Answered(a, OnResponse(d, w, i, status, now).0.conns[j], if i == j then k + 1 else 0)
  {
    hide RecordResponse, TotalInFlight, MaybeCompleteWarmup;
    if k < |a.timestamps| {
      assert a.timestamps[k..][1..] == a.timestamps[k + 1..];
    }
    var answer := AnswerConn(d, w.running, w.conns[i], w.m, status, now);
    WarmupLeaves(w.(conns := w.conns[i := answer.conn], m := answer.m), j);
  }

  lemma {:induction false} ResponsesMove(d: Options, w: Worker, i: nat, statuses: seq<nat>, nows: seq<real>, j: nat)
    requires OptionsOk(d) && i < |w.conns| && MeasurementShape(d, w.m) && StatusesOk(statuses)
    requires |nows| >= |statuses| && j < |w.conns|
    ensures Answered(w.conns[j], OnResponses(d, w, i, statuses, nows).0.conns[j], if i == j then |statuses| else 0)
    decreases |statuses|
  {
    if statuses == [] {
      assert w.conns[j].timestamps[0..] == w.conns[j].timestamps;
    } else {
      var k := |statuses| - 1;
      ResponsesMove(d, w, i, statuses[..k], nows, j);
      var before := OnResponses(d, w, i, statuses[..k], nows).0;
      OneMoves(d, before, i, statuses[k], nows[k], j, w.conns[j], k);
      hide Answered, OnResponse;
    }
  }

  /** Replacements are sent at once, or held back under backpressure. */
  lemma Replenished(d: Options, c: Conn, m: Measurement, n: nat, now: real, accepted: bool)
    requires c.open && c.connected && !c.stopped && |c.timestamps| + n <= d.pipelining && d.rate.None? && n > 0
    ensures var u := Replenish(d, true, c, m, n, now, accepted).conn;
            u == if c.backpressured then c.(pendingClosedLoop := c.pendingClosedLoop + n)
                 else c.(timestamps := c.timestamps + Repeat(now, n), backpressured := !accepted)
  {
    SendMoves(d, true, c, m, n, now, accepted);
    hide Send;
  }

  /** What the data handler leaves of a connection, when its push asks for `owed` replacements. */
  predicate DataLeft(c: Conn, u: Conn, own: bool, chunk: Stream.Outcome, owed: nat, now: real, accepted: bool) {
    var n := if own && chunk.error.None? && !c.backpressured then owed else 0;
    && u.timestamps == c.timestamps[if own then Least(|chunk.statuses|, |c.timestamps|) else 0..] + Repeat(now, n)
    && u.backpressured == (c.backpressured || (n > 0 && !accepted))
    && u.protocolFailure
       == (c.protocolFailure || (own && (chunk.error.Some? || |chunk.statuses| > |c.timestamps|)))
    && u.open == c.open && u.connected == c.connected && u.stopped == c.stopped
    && u.reconnectScheduled == c.reconnectScheduled && u.timeoutFailure == c.timeoutFailure
    && u.parser == if own then chunk.parser else c.parser
  }

  lemma OnDataLeaves(d: Options, w: Worker, i: nat, chunk: Stream.Outcome, nows: seq<real>, accepted: bool, j: nat)
    requires OptionsOk(d) && i < |w.conns| && MeasurementShape(d, w.m) && j < |w.conns|
    requires StatusesOk(chunk.statuses) && |nows| == |chunk.statuses| + 1 && (w.running ==> w.phase != WarmupDraining)
    requires var c := w.conns[i]; c.open && c.connected && !c.stopped && |c.timestamps| <= d.pipelining
    ensures var owed := if Loops(d, w)
                        then Replaced(nows, Least(|chunk.statuses|, |w.conns[i].timestamps|), w.stopAt) else 0;
            DataLeft(w.conns[j], OnData(d, w, i, chunk, nows, accepted).conns[j], i == j, chunk, owed,
                     nows[|nows| - 1], accepted)
  {
    hide OnResponses, Replaced, Replenish, StatusesOk;
    var c, now := w.conns[i], nows[|nows| - 1];
    var start := w.(conns := w.conns[i := c.(parser := chunk.parser)]);
    ResponsesMove(d, start, i, chunk.statuses, nows, j);
    ReplacedCount(d, w, i, chunk, nows);
    var r := OnResponses(d, start, i, chunk.statuses, nows);
    var b := r.0.conns[j];
    assert Answered(start.conns[j], b, if i == j then |chunk.statuses| else 0);
    OnDataIs(d, w, i, chunk, nows, accepted, j);
    NothingSent(b.timestamps, now);
    if i == j && chunk.error.None? && r.1 > 0 {
      Replenished(d, b, r.0.m, r.1, now, accepted);
    }
    hide Repeat, Steady, MeasurementShape, OnData;
  }

  lemma OnDataIs(d: Options, w: Worker, i: nat, chunk: Stream.Outcome, nows: seq<real>, accepted: bool, j: nat)
    requires OptionsOk(d) && i < |w.conns| && MeasurementShape(d, w.m) && j < |w.conns|
    requires StatusesOk(chunk.statuses) && |nows| == |chunk.statuses| + 1
    requires var c := w.conns[i]; c.open && !c.stopped
    ensures var start := w.(conns := w.conns[i := w.conns[i].(parser := chunk.parser)]);
            var r := OnResponses(d, start, i, chunk.statuses, nows);
            var b := r.0.conns[j];
            OnData(d, w, i, chunk, nows, accepted).conns[j]
            == if i != j then b
               else if chunk.error.Some? then b.(protocolFailure := true)
               else if r.1 > 0 then Replenish(d, w.running, b, r.0.m, r.1, nows[|nows| - 1], accepted).conn
               else b
  {
    hide OnResponses, Replenish, StatusesOk;
  }

  lemma ParsedOk(d: Options, w: Worker, i: nat, chunk: seq<Bytes.Byte>)
    requires i < |w.conns| && Stream.Valid(w.conns[i].parser)
    ensures StatusesOk(Parsed(d, w, i, chunk).statuses)
  {
    hide Stream.Push;
  }

  /** How many replacements a push asks for. */
  lemma ReplacedCount(d: Options, w: Worker, i: nat, chunk: Stream.Outcome, nows: seq<real>)
    requires OptionsOk(d) && i < |w.conns| && MeasurementShape(d, w.m) && (w.running ==> w.phase != WarmupDraining)
    requires |nows| == |chunk.statuses| + 1 && StatusesOk(chunk.statuses)
    ensures var start := w.(conns := w.conns[i := w.conns[i].(parser := chunk.parser)]);
            var n := Least(|chunk.statuses|, |w.conns[i].timestamps|);
            var owed := OnResponses(d, start, i, chunk.statuses, nows).1;
            owed <= n && owed == if Loops(d, w) then Replaced(nows, n, w.stopAt) else 0
  {
    var start := w.(conns := w.conns[i := w.conns[i].(parser := chunk.parser)]);
    if w.running {
      ResponsesAnswer(d, start, i, chunk.statuses, nows);
      hide Moved, Replaced, OnResponses;
      ReplacedAtMost(nows, Least(|chunk.statuses|, |w.conns[i].timestamps|), w.stopAt);
    } else {
      NoneReplaced(d, start, i, chunk.statuses, nows);
      hide OnResponses;
    }
  }

  lemma {:induction false} ReplacedAtMost(nows: seq<real>, n: nat, stopAt: real)
    requires n <= |nows|
    ensures Replaced(nows, n, stopAt) <= n
  {
    if n > 0 {
      ReplacedAtMost(nows, n - 1, stopAt);
    }
  }

  lemma {:induction false} NoneReplaced(d: Options, w: Worker, i: nat, statuses: seq<nat>, nows: seq<real>)
    requires OptionsOk(d) && i < |w.conns| && MeasurementShape(d, w.m) && StatusesOk(statuses)
    requires |nows| >= |statuses| && !w.running
    ensures OnResponses(d, w, i, statuses, nows).1 == 0
    decreases |statuses|
  {
    if statuses != [] {
      NoneReplaced(d, w, i, statuses[..|statuses| - 1], nows);
      hide MaybeCompleteWarmup, AnswerConn;
    }
  }

  /** What the lemmas about single events take from the invariant. */
  predicate Prepared(d: Options, w: Worker) {
    && OptionsOk(d) && MeasurementShape(d, w.m) && w.nextRateConnection < |w.conns|
    && (w.running ==> w.phase != WarmupDraining)
  }

  predicate Sound(d: Options, w: Worker, c: Conn) {
    && |c.timestamps| + c.pendingClosedLoop <= d.pipelining
    && (!c.connected ==> c.timestamps == [] && c.pendingClosedLoop == 0 && !c.backpressured)
    && (c.stopped <==> w.phase == Finished)
    && (c.stopped ==> !c.open)
    && (c.connected && !c.stopped ==> c.open)
    && (w.phase == Idle ==> c.timestamps == [] && c.pendingClosedLoop == 0)
  }

  lemma InvPrepares(d: Options, w: Worker, j: nat)
    requires OptionsOk(d) && Inv(d, w) && j < |w.conns|
    ensures Prepared(d, w) && Sound(d, w, w.conns[j])
  {
    hide Books, Tallies, RateBooks, PostsOk;
    assert ConnOk(d, w.phase, Live(w), w.conns[j], 0);
  }

  lemma DataMoves(d: Options, w: Worker, e: Event, now: real, j: nat)
    requires Prepared(d, w) && Enabled(d, w, e, now) && e.Data? && j < |w.conns| && Sound(d, w, w.conns[e.i])
    ensures var u := Step(d, w, e, now).conns[j]; ConnMoves(d, w, e, now, j, u)
  {
    hide OnResponses, Replaced, Parsed, Stream.Valid, OnData;
    var i, chunk := e.i, Parsed(d, w, e.i, e.chunk);
    ParsedOk(d, w, i, e.chunk);
    if w.conns[i].open && !w.conns[i].stopped {
      OnDataLeaves(d, w, i, chunk, e.nows, e.accepted, j);
    } else {
      DataIgnored(d, w, e, now, j);
    }
    hide Repeat;
  }

  lemma DataIgnored(d: Options, w: Worker, e: Event, now: real, j: nat)
    requires OptionsOk(d) && Enabled(d, w, e, now) && e.Data? && j < |w.conns| && MeasurementShape(d, w.m)
    requires w.nextRateConnection < |w.conns| && (!w.conns[e.i].open || w.conns[e.i].stopped)
    ensures var u := Step(d, w, e, now).conns[j]; ConnMoves(d, w, e, now, j, u)
  {
    hide Parsed, OnResponses, Replaced, Stream.Valid;
    NothingSent(w.conns[j].timestamps, now);
  }

  // ---------------------------------------------------------------- the other events

  lemma FillLeaves(d: Options, running: bool, c: Conn, m: Measurement, now: real, accepted: bool)
    requires c.connected ==> c.open && !c.stopped && c.timestamps == []
    ensures var u := FillClosedLoop(d, running, c, m, now, accepted).conn;
            u == if !running || d.rate.Some? || !c.connected || d.pipelining == 0 then c
                 else if c.backpressured then c.(pendingClosedLoop := c.pendingClosedLoop + d.pipelining)
                 else c.(timestamps := c.timestamps + Repeat(now, d.pipelining), backpressured := !accepted)
  {
    if running && d.rate.None? && c.connected && d.pipelining > 0 {
      Replenished(d, c, m, d.pipelining, now, accepted);
      hide Replenish;
    }
  }

  /** The connect handler leaves its connection filled and the others as they were. */
  lemma ConnectIs(d: Options, w: Worker, i: nat, now: real, accepted: bool, j: nat)
    requires i < |w.conns| && j < |w.conns|
    ensures var c := w.conns[i].(connected := true, reconnectScheduled := false);
            OnConnect(d, w, i, now, accepted).conns[j]
            == if i != j || w.conns[i].stopped then w.conns[j]
               else FillClosedLoop(d, w.running, c, w.m, now, accepted).conn
  {
    hide FillClosedLoop;
  }

  lemma ConnectMoves(d: Options, w: Worker, e: Event, now: real, j: nat)
    requires Prepared(d, w) && Enabled(d, w, e, now) && e.Connect? && j < |w.conns| && Sound(d, w, w.conns[e.i])
    ensures ConnMoves(d, w, e, now, j, Step(d, w, e, now).conns[j])
  {
    hide FillClosedLoop, Stream.Valid, Parsed, Responses, Replaced, OnConnect, Malformed, MeasurementShape;
    var c := w.conns[e.i].(connected := true, reconnectScheduled := false);
    ConnectIs(d, w, e.i, now, e.accepted, j);
    if e.i == j {
      FillLeaves(d, w.running, c, w.m, now, e.accepted);
    }
    NothingSent(w.conns[j].timestamps, now);
    assert w.conns[j].timestamps[0..] == w.conns[j].timestamps;
    hide Repeat;
  }

  /** The drain handler ends backpressure and sends what was held back. */
  lemma DrainIs(d: Options, w: Worker, i: nat, now: real, accepted: bool, j: nat)
    requires i < |w.conns| && j < |w.conns|
    requires var c := w.conns[i];
             (c.backpressured ==> c.connected) && !(c.open && c.stopped)
             && |c.timestamps| + c.pendingClosedLoop <= d.pipelining
    ensures var c := w.conns[i];
            var n := if w.running && d.rate.None? then c.pendingClosedLoop else 0;
            OnDrain(d, w, i, now, accepted).conns[j]
            == if i != j || !c.open || !c.backpressured then w.conns[j]
               else c.(timestamps := c.timestamps + Repeat(now, n), backpressured := n > 0 && !accepted,
                       pendingClosedLoop := if n > 0 then 0 else c.pendingClosedLoop)
  {
    var c := w.conns[i];
    NothingSent(c.timestamps, now);
    assert c.timestamps[0..] == c.timestamps;
    if c.open && c.backpressured && c.pendingClosedLoop > 0 && w.running && d.rate.None? {
      var freed := c.(backpressured := false, pendingClosedLoop := 0);
      SendMoves(d, w.running, freed, w.m, c.pendingClosedLoop, now, accepted);
    }
    hide Send, Repeat;
  }

  lemma DrainMoves(d: Options, w: Worker, e: Event, now: real, j: nat)
    requires Prepared(d, w) && Enabled(d, w, e, now) && e.Drain? && j < |w.conns| && Sound(d, w, w.conns[e.i])
    ensures ConnMoves(d, w, e, now, j, Step(d, w, e, now).conns[j])
  {
    hide OnDrain, Stream.Valid, Parsed, Responses, Replaced, Malformed, MeasurementShape;
    DrainIs(d, w, e.i, now, e.accepted, j);
    NothingSent(w.conns[j].timestamps, now);
    assert w.conns[j].timestamps[0..] == w.conns[j].timestamps;
    hide Repeat;
  }

  /** A connection without its socket. */
  function Unlinked(c: Conn): Conn {
    c.(open := false, backpressured := false, connected := false)
  }

  lemma DisconnectLeaves(w: Worker, i: nat, j: nat)
    requires i < |w.conns| && j < |w.conns|
    ensures var r := Disconnect(w, i);
            && Answered(if i == j then Unlinked(w.conns[j]) else w.conns[j], r.conns[j], 0)
            && (r.phase == w.phase || r.phase == Idle)
  {
    hide MaybeCompleteWarmup, Answered;
    var w1 := w.(conns := w.conns[i := Unlinked(w.conns[i])]);
    var fewer := w1.(connected := if w.connected > 0 then w.connected - 1 else 0);
    WarmupLeaves(fewer, j);
    WarmupPhase(fewer);
    NothingAnswered(w1.conns[j]);
    assert w1.conns[j] == if i == j then Unlinked(w.conns[j]) else w.conns[j];
    assert Disconnect(w, i) == if w.conns[i].connected then MaybeCompleteWarmup(fewer) else w1;
    assert Answered(w1.conns[j], Disconnect(w, i).conns[j], 0);
    hide *;
  }

  lemma NothingAnswered(c: Conn)
    ensures Answered(c, c, 0)
  {
    assert c.timestamps[0..] == c.timestamps;
  }

  lemma AbortLeaves(w: Worker, i: nat, j: nat)
    requires i < |w.conns| && j < |w.conns|
    ensures Answered(if i == j then w.conns[j].(timestamps := []) else w.conns[j], AbortInFlight(w, i).conns[j], 0)
  {
    hide MaybeCompleteWarmup, RecordAborted, Answered;
    WarmupLeaves(w.(m := RecordAborted(w.m, w.running, |w.conns[i].timestamps|),
                    conns := w.conns[i := w.conns[i].(timestamps := [])]), j);
  }

  /** A closed socket leaves its connection empty and another one as it was. */
  lemma CloseLeaves(w: Worker, i: nat, j: nat)
    requires i < |w.conns| && j < |w.conns| && w.conns[i].open && !w.conns[i].stopped && w.phase != Finished
    ensures var c := w.conns[j];
            var u := OnClose(w, i).conns[j];
            if i != j then Answered(c, u, 0)
            else u.timestamps == [] && !u.open && !u.connected && !u.stopped && !u.backpressured
                 && u.reconnectScheduled && !u.protocolFailure && !u.timeoutFailure && u.parser == Stream.INITIAL
  {
    hide Disconnect, AbortInFlight;
    DisconnectLeaves(w, i, j);
    AbortLeaves(Disconnect(w, i), i, j);
    assert w.conns[j].timestamps[0..] == w.conns[j].timestamps;
    var queue := Disconnect(w, i).conns[j].timestamps;
    assert queue[0..] == queue;
  }

  lemma WarmupPhase(w: Worker)
    ensures MaybeCompleteWarmup(w).phase == w.phase || MaybeCompleteWarmup(w).phase == Idle
  {
  }

  lemma CloseMoves(d: Options, w: Worker, e: Event, now: real, j: nat)
    requires Prepared(d, w) && Enabled(d, w, e, now) && e.Close? && j < |w.conns| && Sound(d, w, w.conns[e.i])
    ensures ConnMoves(d, w, e, now, j, Step(d, w, e, now).conns[j])
  {
    hide Stream.Valid, Parsed, Responses, Replaced, OnClose;
    NothingSent(w.conns[j].timestamps, now);
    if w.conns[e.i].open {
      CloseLeaves(w, e.i, j);
    } else {
      ClosedAlready(w, e.i);
    }
  }

  lemma ClosedAlready(w: Worker, i: nat)
    requires i < |w.conns| && !w.conns[i].open
    ensures OnClose(w, i) == w
  {
  }

  /** Timeouts and errors only mark the connection; a reconnection opens it. */
  function Marked(e: Event, c: Conn, own: bool): Conn {
    if !own || e.SocketError? then c
    else if e.Timeout? then c.(timeoutFailure := true)
    else c.(reconnectScheduled := false, open := c.open || !c.stopped)
  }

  lemma SmallIs(d: Options, w: Worker, e: Event, now: real, j: nat)
    requires Prepared(d, w) && Enabled(d, w, e, now) && j < |w.conns|
    requires e.Timeout? || e.SocketError? || e.Reconnect?
    ensures Step(d, w, e, now).conns[j] == Marked(e, w.conns[j], e.i == j)
  {
    hide MeasurementShape;
  }

  lemma MarkedMoves(d: Options, w: Worker, e: Event, now: real, j: nat)
    requires j < |w.conns| && (e.Timeout? || e.SocketError? || e.Reconnect?)
    ensures ConnMoves(d, w, e, now, j, Marked(e, w.conns[j], e.i == j))
  {
    hide Stream.Valid, Parsed, Responses, Replaced, Malformed, Repeat;
    NothingSent(w.conns[j].timestamps, now);
  }

  lemma SmallMovesConn(d: Options, w: Worker, e: Event, now: real, j: nat)
    requires Prepared(d, w) && Enabled(d, w, e, now) && j < |w.conns| && Sound(d, w, w.conns[j])
    requires e.Timeout? || e.SocketError? || e.Reconnect?
    ensures ConnMoves(d, w, e, now, j, Step(d, w, e, now).conns[j])
  {
    SmallIs(d, w, e, now, j);
    MarkedMoves(d, w, e, now, j);
    hide *;
  }

  lemma StopIs(w: Worker, j: nat)
    requires j < |w.conns|
    ensures var u := OnStopTimer(w).conns[j];
            if w.phase == Measuring then u == StopConn(w.conns[j]) else Answered(w.conns[j], u, 0)
  {
    hide MaybeCompleteWarmup, Answered;
    var draining := w.(running := false, phase := WarmupDraining);
    WarmupLeaves(draining, j);
    NothingAnswered(w.conns[j]);
    assert w.phase == Warmup ==> OnStopTimer(w) == MaybeCompleteWarmup(draining);
    assert w.phase == Measuring ==> OnStopTimer(w).conns[j] == StopConn(w.conns[j]);
    hide *;
  }

  lemma FinishMoves(d: Options, w: Worker, e: Event, now: real, j: nat)
    requires Prepared(d, w) && Enabled(d, w, e, now) && j < |w.conns| && Sound(d, w, w.conns[j])
    requires e.StopTimer? || e.Abort? || (e.Start? && w.phase != Idle)
    ensures ConnMoves(d, w, e, now, j, Step(d, w, e, now).conns[j])
  {
    hide Stream.Valid, Parsed, Responses, Replaced, Malformed, MeasurementShape, OnStopTimer, StopAll;
    var c := w.conns[j];
    NothingSent(c.timestamps, now);
    assert c.timestamps[|c.timestamps|..] + Repeat(now, 0) == [];
    StopIs(w, j);
    hide Repeat;
  }

  lemma {:induction false} FillAllLeaves(d: Options, w: Worker, n: nat, now: real, accepted: seq<bool>, j: nat)
    requires n <= |w.conns| <= |accepted| && j < |w.conns| && w.running && d.rate.None? && d.pipelining > 0
    requires var c := w.conns[j]; c.connected ==> c.open && !c.stopped && c.timestamps == []
    ensures var c, u := w.conns[j], FillAll(d, w, n, now, accepted).conns[j];
            u == if n <= j || !c.connected then c
                 else if c.backpressured then c.(pendingClosedLoop := c.pendingClosedLoop + d.pipelining)
                 else c.(timestamps := c.timestamps + Repeat(now, d.pipelining), backpressured := !accepted[j])
    decreases n
  {
    if n > 0 {
      FillAllLeaves(d, w, n - 1, now, accepted, j);
      var before := FillAll(d, w, n - 1, now, accepted);
      hide FillClosedLoop, Repeat;
      if n - 1 == j {
        FillLeaves(d, w.running, w.conns[j], before.m, now, accepted[j]);
      }
    }
  }

  lemma StartMoves(d: Options, w: Worker, e: Event, now: real, j: nat)
    requires Prepared(d, w) && Enabled(d, w, e, now) && j < |w.conns| && Sound(d, w, w.conns[j])
    requires e.Start? && w.phase == Idle
    ensures ConnMoves(d, w, e, now, j, Step(d, w, e, now).conns[j])
  {
    hide Stream.Valid, Parsed, Responses, Replaced, FillAll;
    var w1 := Started(d, w, e.measuring, e.durationMs, now);
    if d.rate.None? {
      FillAllLeaves(d, w1, |w1.conns|, now, e.accepts, j);
    }
    NothingSent(w.conns[j].timestamps, now);
    hide Repeat;
  }

  // ---------------------------------------------------------------- ticks

  /** Handing arrivals over adds to the batches of connections with room, and never more than there is room for. */
  predicate Batched(d: Options, running: bool, c: Conn, u: Conn) {
    && u == c.(rateBatch := u.rateBatch)
    && (u != c ==> Slots(d, running, c) > 0 && |u.rateBatch| + |u.timestamps| <= d.pipelining)
  }

  lemma {:induction false} DispatchKeeps(
    d: Options, w: Worker, conns: seq<Conn>, cursor: nat, scheduled: nat, due: nat, j: nat)
    requires d.rate.Some? && d.rate.value > 0.0 && cursor < |conns| && j < |conns|
    ensures Batched(d, w.running, conns[j], Dispatch(d, w, conns, cursor, scheduled, due).conns[j])
    decreases due
  {
    hide NextAvailable, ScheduledAt;
    if due > 0 {
      var r := NextAvailable(d, w.running, conns, cursor, |conns|);
      if r.0.Some? {
        var at := ScheduledAt(d, w.startedAt, d.rate.value, scheduled);
        DispatchKeeps(d, w, Schedule(conns, r.0.value, at), r.1, scheduled + 1, due - 1, j);
      }
    }
  }

  lemma {:induction false} FlushLeaves(d: Options, w: Worker, n: nat, now: real, accepted: seq<bool>, j: nat)
    requires n <= |w.conns| <= |accepted| && j < |w.conns|
    requires var c := w.conns[j];
             c.rateBatch != [] ==>
               c.open && c.connected && !c.stopped && |c.timestamps| + |c.rateBatch| <= d.pipelining
    ensures var c := w.conns[j];
            Flush(d, w, n, now, accepted).conns[j]
            == if n <= j || c.rateBatch == [] then c
               else c.(timestamps := c.timestamps + Stamps(d, c.rateBatch, now), rateBatch := [],
                       backpressured := c.backpressured || !accepted[j])
    decreases n
  {
    if n > 0 {
      FlushLeaves(d, w, n - 1, now, accepted, j);
      hide Stamps, Repeat;
    }
  }

  /**
    * What a tick does to a connection: requests join the queue only of one that is connected and not held back, and
    * a refused write holds back the next.
    */
  predicate TickMoves(c: Conn, u: Conn, accepted: bool) {
    && u == c.(timestamps := u.timestamps, backpressured := u.backpressured)
    && c.timestamps <= u.timestamps
    && u.backpressured == (c.backpressured || (u.timestamps != c.timestamps && !accepted))
    && (u.timestamps != c.timestamps ==> c.connected && !c.backpressured)
  }

  lemma TickConnection(d: Options, w: Worker, now: real, accepts: seq<bool>, j: nat)
    requires OptionsOk(d) && w.nextRateConnection < |w.conns| <= |accepts| && j < |w.conns|
    requires Sound(d, w, w.conns[j]) && w.conns[j].rateBatch == []
    ensures TickMoves(w.conns[j], OnRateTick(d, w, now, accepts).conns[j], accepts[j])
  {
    hide Dispatch, Flush, Expected, GlobalExpected, Stamps;
    if w.running && d.rate.Some? {
      var s := Scheduled(d, w, now);
      DispatchKeeps(d, w, w.conns, w.nextRateConnection, w.phaseScheduled, s.2, j);
      FlushLeaves(d, s.0, |s.0.conns|, now, accepts, j);
    }
  }

  lemma TickInStep(d: Options, w: Worker, e: Event, now: real, j: nat)
    requires Prepared(d, w) && Enabled(d, w, e, now) && e.RateTick? && j < |w.conns|
    requires Sound(d, w, w.conns[j]) && w.conns[j].rateBatch == []
    ensures TickMoves(w.conns[j], Step(d, w, e, now).conns[j], e.accepts[j])
  {
    hide OnRateTick, TickMoves;
    TickConnection(d, w, now, e.accepts, j);
  }

  lemma NoBatchIn(d: Options, w: Worker, j: nat)
    requires OptionsOk(d) && Inv(d, w) && j < |w.conns|
    ensures w.conns[j].rateBatch == []
  {
    hide Books, Tallies, RateBooks, PostsOk;
    assert ConnOk(d, w.phase, Live(w), w.conns[j], 0);
  }

  /**
    * In every run, every event but a tick does to every connection exactly this: the requests that it answers or
    * aborts leave the front of the queue, those that it sends join it with the time of the event, backpressure begins
    * with a refused write and ends with a drain or a close, and the socket, its reconnection and its parser follow.
    * A tick only appends to queues, and holds back the connections whose write was refused.
    */
  lemma ConnectionsMove(d: Options, t: Trace, k: nat, j: nat)
    requires OptionsOk(d) && IsRun(d, t) && 0 < k < |t.states|
    requires j < |t.states[k - 1].conns|
    ensures j < |t.states[k].conns|
    ensures var (w, e, u) := (t.states[k - 1], t.events[k - 1].event, t.states[k].conns[j]);
            if e.RateTick? then j < |e.accepts| && TickMoves(w.conns[j], u, e.accepts[j])
            else ConnMoves(d, w, e, t.events[k - 1].at, j, u)
  {
    hide TickMoves, OnRateTick, Inv, ConnMoves, Handle, Prepared, Sound;
    EngineTheorems.StepInRun(d, t, k);
    RunKeepsInv(d, t, k);
    EngineTheorems.SameConnections(d, t.states[k - 1], t.states[k]);
    var w, e, now := t.states[k - 1], t.events[k - 1].event, t.events[k - 1].at;
    InvPrepares(d, w, j);
    match e {
      case Data(_, _, _, _) =>
        InvPrepares(d, w, e.i);
        DataMoves(d, w, e, now, j);
      case Connect(_, _) =>
        InvPrepares(d, w, e.i);
        ConnectMoves(d, w, e, now, j);
      case Drain(_, _) =>
        InvPrepares(d, w, e.i);
        DrainMoves(d, w, e, now, j);
      case Close(_) =>
        InvPrepares(d, w, e.i);
        CloseMoves(d, w, e, now, j);
      case Timeout(_) => SmallMovesConn(d, w, e, now, j);
      case SocketError(_) => SmallMovesConn(d, w, e, now, j);
      case Reconnect(_) => SmallMovesConn(d, w, e, now, j);
      case Start(_, _, _) => if w.phase == Idle { StartMoves(d, w, e, now, j); } else { FinishMoves(d, w, e, now, j); }
      case StopTimer => FinishMoves(d, w, e, now, j);
      case Abort => FinishMoves(d, w, e, now, j);
      case RateTick(accepts) =>
        NoBatchIn(d, w, j);
        TickInStep(d, w, e, now, j);
    }
  }
}
