/** What each event does to the phase of a worker and to the messages it has posted, in every run. */
module EngineMessages {
  import opened Basics
  import opened Http1Engine
  import opened EngineInvariant
  import opened EngineScheduler
  import opened EngineRuns
  import opened EngineConnections
  import EngineArrivals
  import EngineTheorems
  import opened EngineAnswers
  import Stream = ResponseStream

  /** Nothing is in flight. */
  predicate Quiet(conns: seq<Conn>) {
    forall j :: 0 <= j < |conns| ==> conns[j].timestamps == []
  }

  predicate AllConnected(conns: seq<Conn>) {
    forall j :: 0 <= j < |conns| ==> conns[j].connected
  }

  /** A warmup that is over and not drained before the event. */
  predicate Draining(w: Worker, e: Event) {
    w.phase == WarmupDraining || (w.phase == Warmup && e.StopTimer?)
  }

  /** The phase after an event that leaves these connections. */
  function NextPhase(w: Worker, e: Event, conns: seq<Conn>): Phase {
    if Finishes(w, e) then Finished
    else if e.Start? then (if e.measuring then Measuring else Warmup)
    else if Draining(w, e) then (if Quiet(conns) then Idle else WarmupDraining)
    else w.phase
  }

  /** What the event posts. */
  function Posting(w: Worker, e: Event, conns: seq<Conn>): seq<Message> {
    if e.Start? && w.phase != Idle then [Fatal]
    else if e.StopTimer? && w.phase == Measuring then [Posted(w.m, TotalInFlight(w.conns))]
    else if Draining(w, e) && !Finishes(w, e) && Quiet(conns) then [WarmupComplete]
    else if e.Connect? && !w.readySent && AllConnected(conns) then [Ready]
    else []
  }

  predicate MessagesMove(w: Worker, e: Event, r: Worker) {
    && r.phase == NextPhase(w, e, r.conns)
    && r.posted == w.posted + Posting(w, e, r.conns)
    && r.readySent == (w.readySent || (e.Connect? && AllConnected(r.conns)))
  }

  /** A draining warmup has something in flight. */
  predicate Busy(w: Worker) {
    w.phase == WarmupDraining ==> !Quiet(w.conns)
  }

  /** Phase and posts are as before, or the warmup has just been drained. */
  predicate Drained(w: Worker, r: Worker) {
    if w.phase == WarmupDraining && Quiet(r.conns)
    then r.phase == Idle && r.posted == w.posted + [WarmupComplete]
    else r.phase == w.phase && r.posted == w.posted
  }

  lemma QuietIs(conns: seq<Conn>)
    ensures Quiet(conns) <==> TotalInFlight(conns) == 0
  {
    NoneInFlight(conns);
  }

  lemma CompleteDrains(w: Worker)
    ensures Drained(w, MaybeCompleteWarmup(w))
  {
    QuietIs(w.conns);
    hide TotalInFlight;
    var r := MaybeCompleteWarmup(w);
    if r != w {
      forall j | 0 <= j < |r.conns|
        ensures r.conns[j].timestamps == []
      {
        assert r.conns[j] == ResetPhaseState(w.conns[j]);
      }
      assert Quiet(r.conns);
    }
  }

  lemma OneDrains(d: Options, w: Worker, before: Worker, i: nat, status: nat, now: real)
    requires OptionsOk(d) && i < |before.conns| && MeasurementShape(d, before.m) && status < 600
    requires Drained(w, before) && Busy(w)
    ensures Drained(w, OnResponse(d, before, i, status, now).0)
  {
    hide MaybeCompleteWarmup, RecordResponse;
    var a := AnswerConn(d, before.running, before.conns[i], before.m, status, now);
    var w1 := before.(conns := before.conns[i := a.conn], m := a.m);
    if a.answered {
      CompleteDrains(w1);
      assert before.conns[i].timestamps != [];
      assert !Quiet(before.conns);
    } else {
      assert w1.conns[i].timestamps == before.conns[i].timestamps == [];
      assert Quiet(w1.conns) <==> Quiet(before.conns) by {
        assert forall j :: 0 <= j < |w1.conns| ==> w1.conns[j].timestamps == before.conns[j].timestamps;
      }
    }
  }

  lemma {:induction false} ResponsesDrain(d: Options, w: Worker, i: nat, statuses: seq<nat>, nows: seq<real>)
    requires OptionsOk(d) && i < |w.conns| && MeasurementShape(d, w.m) && StatusesOk(statuses)
    requires |nows| >= |statuses| && Busy(w)
    ensures Drained(w, OnResponses(d, w, i, statuses, nows).0)
    decreases |statuses|
  {
    if statuses != [] {
      var k := |statuses| - 1;
      ResponsesDrain(d, w, i, statuses[..k], nows);
      var before := OnResponses(d, w, i, statuses[..k], nows).0;
      hide Drained, OnResponse;
      OneDrains(d, w, before, i, statuses[k], nows[k]);
    }
  }

  lemma QuietSame(a: seq<Conn>, b: seq<Conn>)
    requires |a| == |b| && forall j :: 0 <= j < |a| ==> a[j].timestamps == b[j].timestamps
    ensures Quiet(a) <==> Quiet(b)
  {
  }

  lemma DataDrains(d: Options, w: Worker, i: nat, chunk: Stream.Outcome, nows: seq<real>, accepted: bool)
    requires Prepared(d, w) && i < |w.conns| && StatusesOk(chunk.statuses) && |nows| == |chunk.statuses| + 1
    requires Busy(w)
    ensures Drained(w, OnData(d, w, i, chunk, nows, accepted))
  {
    hide OnResponses, Replenish, Quiet, StatusesOk;
    var c := w.conns[i];
    if c.open && !c.stopped {
      var start := w.(conns := w.conns[i := c.(parser := chunk.parser)]);
      QuietSame(w.conns, start.conns);
      ResponsesDrain(d, start, i, chunk.statuses, nows);
      var r := OnResponses(d, start, i, chunk.statuses, nows);
      if !w.running {
        NoneReplaced(d, start, i, chunk.statuses, nows);
      }
      var marked := r.0.conns[i := r.0.conns[i].(protocolFailure := true)];
      QuietSame(r.0.conns, marked);
    }
  }

  lemma CloseDrains(w: Worker, i: nat)
    requires i < |w.conns| && Busy(w)
    ensures Drained(w, OnClose(w, i))
  {
    hide MaybeCompleteWarmup, RecordAborted, TotalInFlight, Quiet;
    var c := w.conns[i];
    if c.open {
      var w1 := w.(conns := w.conns[i := Unlinked(c)]);
      var fewer := w1.(connected := if w.connected > 0 then w.connected - 1 else 0);
      QuietSame(w.conns, w1.conns);
      CompleteDrains(fewer);
      UndrainedSame(fewer);
      var w2 := Disconnect(w, i);
      assert w2.conns == w1.conns && w2.phase == w.phase && w2.posted == w.posted;
      var w3 := w2.(m := RecordAborted(w2.m, w2.running, |w2.conns[i].timestamps|),
                    conns := w2.conns[i := w2.conns[i].(timestamps := [])]);
      CompleteDrains(w3);
      var w4 := AbortInFlight(w2, i);
      QuietSame(w4.conns, w4.conns[i := ResetClosed(w4.conns[i], w2.phase != Finished)]);
    }
  }

  lemma UndrainedSame(w: Worker)
    requires Busy(w)
    ensures MaybeCompleteWarmup(w) == w
  {
    QuietIs(w.conns);
  }

  // ---------------------------------------------------------------- one event

  lemma DrainedMoves(w: Worker, e: Event, r: Worker)
    requires Drained(w, r) && !Finishes(w, e) && !e.StopTimer? && !e.Start? && !e.Connect?
    requires r.readySent == w.readySent
    ensures MessagesMove(w, e, r)
  {
    assert w.posted + [] == w.posted;
    hide Quiet;
  }

  /** An event that leaves the phase and the posts alone, and every queue of a draining warmup. */
  lemma SameDrained(w: Worker, r: Worker)
    requires Busy(w) && r.phase == w.phase && r.posted == w.posted && |r.conns| == |w.conns|
    requires w.phase == WarmupDraining ==>
               forall j :: 0 <= j < |w.conns| ==> r.conns[j].timestamps == w.conns[j].timestamps
    ensures Drained(w, r)
  {
    if w.phase == WarmupDraining {
      QuietSame(w.conns, r.conns);
    }
    hide Quiet;
  }

  lemma {:induction false} CountIs(conns: seq<Conn>)
    ensures CountConnected(conns) <= |conns|
    ensures CountConnected(conns) == |conns| <==> AllConnected(conns)
  {
    if conns != [] {
      CountIs(conns[..|conns| - 1]);
      assert AllConnected(conns) <==> AllConnected(conns[..|conns| - 1]) && conns[|conns| - 1].connected;
    }
  }

  /** The last connection to come up is the event that makes the worker ready. */
  lemma ConnectReadies(d: Options, w: Worker, e: Event, now: real)
    requires Prepared(d, w) && Enabled(d, w, e, now) && e.Connect? && Sound(d, w, w.conns[e.i])
    requires Busy(w) && Shape(d, Step(d, w, e, now))
    ensures MessagesMove(w, e, Step(d, w, e, now))
  {
    hide Quiet, CountConnected, MeasurementShape, AllConnected;
    var r := Step(d, w, e, now);
    CountIs(r.conns);
    if w.phase == WarmupDraining {
      QuietSame(w.conns, r.conns);
    }
    assert w.posted + [] == w.posted;
    hide FillClosedLoop;
  }

  lemma SmallDrains(d: Options, w: Worker, e: Event, now: real)
    requires Prepared(d, w) && Enabled(d, w, e, now) && Busy(w)
    requires e.Drain? || e.Timeout? || e.SocketError? || e.Reconnect? || e.RateTick?
    ensures var r := Step(d, w, e, now); Drained(w, r) && r.readySent == w.readySent
  {
    hide Quiet, Send, Drained, Dispatch, Flush, OnRateTick, Expected, GlobalExpected;
    var r := Step(d, w, e, now);
    if e.RateTick? {
      TickPlain(d, w, now, e.accepts);
    }
    SameDrained(w, r);
  }

  lemma TickPlain(d: Options, w: Worker, now: real, accepts: seq<bool>)
    requires OptionsOk(d) && w.nextRateConnection < |w.conns| <= |accepts| && w.running
    ensures var r := OnRateTick(d, w, now, accepts);
            r.phase == w.phase && r.posted == w.posted && r.readySent == w.readySent && |r.conns| == |w.conns|
  {
    hide Dispatch, Flush, Expected, GlobalExpected;
    if d.rate.Some? {
      var w1 := Scheduled(d, w, now).0;
      EngineTheorems.FlushPostsNothing(d, w1, |w1.conns|, now, accepts);
    }
  }

  lemma StopDrains(d: Options, w: Worker, e: Event, now: real)
    requires Prepared(d, w) && Enabled(d, w, e, now) && (e.StopTimer? || e.Abort?) && Busy(w)
    ensures MessagesMove(w, e, Step(d, w, e, now))
  {
    hide TotalInFlight, MaybeCompleteWarmup, StopAll;
    CompleteDrains(w.(running := false, phase := WarmupDraining));
    assert w.posted + [] == w.posted;
    hide Quiet;
  }

  lemma StartPosts(d: Options, w: Worker, e: Event, now: real)
    requires Prepared(d, w) && Enabled(d, w, e, now) && e.Start? && Busy(w)
    ensures MessagesMove(w, e, Step(d, w, e, now))
  {
    hide FillAll, StopAll, Quiet, TotalInFlight;
    if w.phase == Idle {
      var w1 := Started(d, w, e.measuring, e.durationMs, now);
      EngineTheorems.FillPostsNothing(d, w1, |w1.conns|, now, e.accepts);
      FillAllSteady(d, w1, |w1.conns|, now, e.accepts);
    }
    assert w.posted + [] == w.posted;
  }

  lemma StepMessages(d: Options, w: Worker, e: Event, now: real)
    requires OptionsOk(d) && Inv(d, w) && Enabled(d, w, e, now) && Busy(w)
    ensures MessagesMove(w, e, Step(d, w, e, now))
  {
    hide Inv, MessagesMove, Prepared, Sound, Step, Busy, Drained, Finishes, Parsed, Stream.Valid;
    InvSteps(d, w);
    var r := Step(d, w, e, now);
    match e {
      case Connect(i, _) =>
        InvPrepares(d, w, i);
        StepKeepsInv(d, w, e, now);
        InvShape(d, r);
        ConnectReadies(d, w, e, now);
      case Data(i, chunk, nows, accepted) => DataPosts(d, w, e, now);
      case Close(i) => ClosePosts(d, w, e, now);
      case Start(_, _, _) => StartPosts(d, w, e, now);
      case StopTimer => StopDrains(d, w, e, now);
      case Abort => StopDrains(d, w, e, now);
      case _ =>
        SmallDrains(d, w, e, now);
        NoFinish(w, e);
        DrainedMoves(w, e, r);
    }
  }

  lemma InvSteps(d: Options, w: Worker)
    requires OptionsOk(d) && Inv(d, w)
    ensures Prepared(d, w) && MeasurementShape(d, w.m) && w.nextRateConnection < |w.conns|
  {
    hide ConnsOk, Books, Tallies, RateBooks, PostsOk;
  }

  lemma NoFinish(w: Worker, e: Event)
    requires !e.StopTimer? && !e.Abort? && !e.Start?
    ensures !Finishes(w, e)
  {
  }

  lemma InvShape(d: Options, w: Worker)
    requires OptionsOk(d) && Inv(d, w)
    ensures Shape(d, w)
  {
    hide ConnsOk, Books, Tallies, RateBooks, PostsOk, Shape;
  }

  lemma DataPosts(d: Options, w: Worker, e: Event, now: real)
    requires Prepared(d, w) && Enabled(d, w, e, now) && e.Data? && Busy(w)
    ensures MessagesMove(w, e, Step(d, w, e, now))
  {
    hide OnData, Drained, MessagesMove, Parsed, Stream.Valid, Busy;
    ParsedOk(d, w, e.i, e.chunk);
    DataDrains(d, w, e.i, Parsed(d, w, e.i, e.chunk), e.nows, e.accepted);
    var r := OnData(d, w, e.i, Parsed(d, w, e.i, e.chunk), e.nows, e.accepted);
    ClockDrained(w, r, now);
    DrainedMoves(w, e, Step(d, w, e, now));
  }

  lemma ClosePosts(d: Options, w: Worker, e: Event, now: real)
    requires Prepared(d, w) && Enabled(d, w, e, now) && e.Close? && Busy(w)
    ensures MessagesMove(w, e, Step(d, w, e, now))
  {
    hide OnClose, Drained, MessagesMove, Busy;
    CloseDrains(w, e.i);
    ClockDrained(w, OnClose(w, e.i), now);
    DrainedMoves(w, e, Step(d, w, e, now));
  }

  lemma ClockDrained(w: Worker, r: Worker, now: real)
    requires Drained(w, r)
    ensures Drained(w, r.(clock := now))
  {
  }

  lemma MovesBusy(w: Worker, e: Event, r: Worker)
    requires MessagesMove(w, e, r)
    ensures Busy(r)
  {
    hide Quiet;
  }

  lemma {:induction false} RunBusy(d: Options, t: Trace, k: nat)
    requires OptionsOk(d) && IsRun(d, t) && k < |t.states|
    ensures Busy(t.states[k])
    decreases k
  {
    hide Inv, MessagesMove, Busy, Step, Enabled, MeasurementShape;
    assert Linked(d, t, k);
    if k == 0 {
      NewBusy(d, t.states[0]);
    } else {
      RunBusy(d, t, k - 1);
      EngineTheorems.StepInRun(d, t, k);
      StepMessages(d, t.states[k - 1], t.events[k - 1].event, t.events[k - 1].at);
      MovesBusy(t.states[k - 1], t.events[k - 1].event, t.states[k]);
    }
  }

  lemma NewBusy(d: Options, w: Worker)
    requires OptionsOk(d) && exists now :: w == Initial(d, now)
    ensures Busy(w)
  {
  }

  /**
    * In every run the phase and the posts move with the events by this table, and no other way: ready with the
    * connection that completes them, a drained warmup with the event that takes the last request in flight, a result
    * with the end of a measurement, and a fatal error with a start out of turn.
    */
  lemma MessagesInRun(d: Options, t: Trace, k: nat)
    requires OptionsOk(d) && IsRun(d, t) && 0 < k < |t.states|
    ensures MessagesMove(t.states[k - 1], t.events[k - 1].event, t.states[k])
  {
    hide Inv, MessagesMove, Busy, Step, Enabled, MeasurementShape;
    RunBusy(d, t, k - 1);
    EngineTheorems.StepInRun(d, t, k);
    StepMessages(d, t.states[k - 1], t.events[k - 1].event, t.events[k - 1].at);
  }
}
