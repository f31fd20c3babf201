/** What holds of a load worker over every run, in its own terms. */
module EngineTheorems {
  import opened Basics
  import opened Http1Engine
  import opened EngineInvariant
  import opened EngineScheduler
  import opened EngineRuns
  import Stream = ResponseStream
  import HistogramAccuracy
  import LatencyHistogram

  lemma ReachableInv(d: Options, w: Worker)
    requires OptionsOk(d) && Reachable(d, w)
    ensures Inv(d, w)
  {
    hide Inv, Linked;
    var t :| IsRun(d, t) && t.states[|t.states| - 1] == w;
    RunKeepsInv(d, t, |t.states| - 1);
  }

  /** Queued, batched and held-back requests always fit the pipeline, so no capacity error is ever thrown. */
  lemma CapacityNeverExceeded(d: Options, w: Worker)
    requires OptionsOk(d) && Reachable(d, w)
    ensures !w.thrown
    ensures forall i :: 0 <= i < |w.conns| ==>
              |w.conns[i].timestamps| + |w.conns[i].rateBatch| + w.conns[i].pendingClosedLoop <= d.pipelining
  {
    ReachableInv(d, w);
    forall i | 0 <= i < |w.conns|
      ensures |w.conns[i].timestamps| + |w.conns[i].rateBatch| + w.conns[i].pendingClosedLoop <= d.pipelining
    {
      assert ConnOk(d, w.phase, Live(w), w.conns[i], 0);
    }
  }

  /** While a phase runs, and in the result it posts, every request sent is completed, aborted or in flight. */
  lemma RequestsConserved(d: Options, w: Worker)
    requires OptionsOk(d) && Reachable(d, w)
    ensures w.running ==> w.m.sent == w.m.completed + w.m.aborted + TotalInFlight(w.conns)
    ensures forall k :: 0 <= k < |w.posted| && w.posted[k].Posted? ==>
              var result := w.posted[k].result;
              result.sent == result.completed + result.aborted + w.posted[k].inFlightAtStop
  {
    hide ConnsOk;
    ReachableInv(d, w);
    assert forall k :: 0 <= k < |w.posted| ==> ResultOk(d, w.posted[k]);
  }

  /** The counts that a result lists for the codes below `n`. */
  function Listed(codes: map<nat, nat>, n: nat): nat {
    if n == 0 then 0 else Listed(codes, n - 1) + if n - 1 in codes then codes[n - 1] else 0
  }

  lemma {:induction false} ListedSum(counts: seq<nat>, n: nat)
    requires n <= |counts|
    requires forall code :: 0 <= code < 100 && code < |counts| ==> counts[code] == 0
    ensures Listed(StatusCodes(counts, |counts|), n) == CountSum(counts[..n])
  {
    if n > 0 {
      ListedSum(counts, n - 1);
      assert counts[..n][..n - 1] == counts[..n - 1];
    }
  }

  /**
    * A posted result lists final statuses only; their counts add up to its completed responses, those of the codes
    * below 300 to the responses that it does not count as failures, and it has one latency for each response.
    */
  lemma ResultTallies(d: Options, w: Worker, k: nat)
    requires OptionsOk(d) && Reachable(d, w) && k < |w.posted| && w.posted[k].Posted?
    ensures var result := w.posted[k].result;
            && |result.statusCounts| == 600
            && var codes := StatusCodes(result.statusCounts, 600);
               && (forall code :: code in codes ==> 200 <= code < 600)
               && Listed(codes, 600) == result.completed == |result.latencies|
               && Listed(codes, 300) == result.completed - result.non2xx
  {
    hide ConnsOk, CountSum;
    ReachableInv(d, w);
    assert ResultOk(d, w.posted[k]);
    var counts := w.posted[k].result.statusCounts;
    ListedSum(counts, |counts|);
    ListedSum(counts, 300);
    assert counts[..|counts|] == counts;
  }

  /** Its histogram has each of them as accepted or as rejected for its range. */
  lemma ResultObservations(d: Options, w: Worker, k: nat)
    requires OptionsOk(d) && Reachable(d, w) && k < |w.posted| && w.posted[k].Posted?
    ensures var result := w.posted[k].result;
            (HistogramAccuracy.Observations(LatencyHistogram.RecordAll(d.histogram, result.latencies))
             == result.completed)
  {
    hide LatencyHistogram.RecordAll, HistogramAccuracy.Observations;
    ResultTallies(d, w, k);
    HistogramAccuracy.AllObserved(d.histogram, w.posted[k].result.latencies);
  }

  /** In a closed loop a healthy connection is always full until the phase's end. */
  lemma WorkConserved(d: Options, w: Worker, i: nat)
    requires OptionsOk(d) && Reachable(d, w) && i < |w.conns|
    requires ClosedLoopActive(d, w) && w.clock < w.stopAt
    requires w.conns[i].connected && !w.conns[i].protocolFailure && !w.conns[i].timeoutFailure
    ensures |w.conns[i].timestamps| + w.conns[i].pendingClosedLoop == d.pipelining
  {
    ReachableInv(d, w);
    assert ConnOk(d, w.phase, Live(w), w.conns[i], 0);
  }

  /** Ready is posted at most once; a result or a fatal error at most once, as the last message of the worker. */
  lemma PostsInOrder(d: Options, w: Worker, k: nat, l: nat)
    requires OptionsOk(d) && Reachable(d, w) && k < l < |w.posted|
    ensures !(w.posted[k] == Ready && w.posted[l] == Ready)
    ensures !w.posted[k].Posted? && !w.posted[k].Fatal?
    ensures w.posted[l].Posted? || w.posted[l].Fatal? ==> l == |w.posted| - 1 && w.phase == Finished
  {
    hide ConnsOk;
    ReachableInv(d, w);
  }

  /** A worker that is idle, as after a completed warmup, has nothing in flight and nothing held back. */
  lemma IdleIsDrained(d: Options, w: Worker)
    requires OptionsOk(d) && Reachable(d, w) && w.phase == Idle
    ensures TotalInFlight(w.conns) == 0
    ensures forall i :: 0 <= i < |w.conns| ==> w.conns[i].pendingClosedLoop == 0 && w.conns[i].rateBatch == []
  {
    ReachableInv(d, w);
    IdleByInv(d, w);
  }

  lemma IdleByInv(d: Options, w: Worker)
    requires OptionsOk(d) && Inv(d, w) && w.phase == Idle
    ensures TotalInFlight(w.conns) == 0
    ensures forall i :: 0 <= i < |w.conns| ==> w.conns[i].pendingClosedLoop == 0 && w.conns[i].rateBatch == []
  {
    forall i | 0 <= i < |w.conns|
      ensures w.conns[i].timestamps == [] && w.conns[i].pendingClosedLoop == 0 && w.conns[i].rateBatch == []
    {
      assert ConnOk(d, Idle, Live(w), w.conns[i], 0);
    }
    NoneInFlight(w.conns);
  }

  // ---------------------------------------------------------------- the end of a warmup

  /** Nothing was posted and the phase is the same, or a draining warmup was reported complete. */
  predicate Completing(w: Worker, r: Worker) {
    || (r.posted == w.posted && r.phase == w.phase)
    || (r.posted == w.posted + [WarmupComplete] && w.phase == WarmupDraining && r.phase == Idle)
  }

  lemma {:induction false} ResponsesComplete(d: Options, w: Worker, i: nat, statuses: seq<nat>, nows: seq<real>)
    requires OptionsOk(d) && i < |w.conns| && MeasurementShape(d, w.m) && StatusesOk(statuses) && |nows| >= |statuses|
    ensures Completing(w, OnResponses(d, w, i, statuses, nows).0)
    decreases |statuses|
  {
    hide MeasurementShape, AnswerConn;
    if statuses != [] {
      ResponsesComplete(d, w, i, statuses[..|statuses| - 1], nows);
    }
  }

  lemma {:induction false} FlushPostsNothing(d: Options, w: Worker, n: nat, now: real, accepted: seq<bool>)
    requires n <= |w.conns| <= |accepted|
    ensures Flush(d, w, n, now, accepted).posted == w.posted && Flush(d, w, n, now, accepted).phase == w.phase
  {
    hide FlushOne;
    if n > 0 {
      FlushPostsNothing(d, w, n - 1, now, accepted);
    }
  }

  lemma {:induction false} FillPostsNothing(d: Options, w: Worker, n: nat, now: real, accepted: seq<bool>)
    requires n <= |w.conns| <= |accepted|
    ensures FillAll(d, w, n, now, accepted).posted == w.posted
  {
    hide FillClosedLoop;
    if n > 0 {
      FillPostsNothing(d, w, n - 1, now, accepted);
    }
  }

  lemma DataCompletes(d: Options, w: Worker, i: nat, chunk: Stream.Outcome, nows: seq<real>, accepted: bool)
    requires OptionsOk(d) && i < |w.conns| && MeasurementShape(d, w.m)
    requires StatusesOk(chunk.statuses) && |nows| == |chunk.statuses| + 1
    ensures Completing(w, OnData(d, w, i, chunk, nows, accepted))
  {
    hide OnResponses, Replenish, MeasurementShape;
    ResponsesComplete(d, w.(conns := w.conns[i := w.conns[i].(parser := chunk.parser)]), i, chunk.statuses, nows);
  }

  lemma CloseCompleting(w: Worker, i: nat)
    requires i < |w.conns|
    ensures Completing(w, OnClose(w, i))
  {
    if w.conns[i].open {
      var w2 := Disconnect(w, i);
      assert Completing(w, w2);
      assert Completing(w2, AbortInFlight(w2, i));
    }
    hide Disconnect, AbortInFlight;
  }

  /** A step that reports a complete warmup leaves the worker idle with nothing in flight on any connection. */
  lemma WarmupCompleteIsDrained(d: Options, w: Worker, e: Event, now: real)
    requires OptionsOk(d) && Inv(d, w) && Enabled(d, w, e, now)
    requires var posted := Step(d, w, e, now).posted; |posted| > |w.posted| && WarmupComplete in posted[|w.posted|..]
    ensures var r := Step(d, w, e, now); r.phase == Idle && TotalInFlight(r.conns) == 0
  {
    hide ConnsOk, Books, Tallies, RateBooks, PostsOk, MeasurementShape;
    StepKeepsInv(d, w, e, now);
    CompleteLeavesIdle(d, w, e, now);
    hide Handle;
    IdleByInv(d, Step(d, w, e, now));
  }

  lemma CompleteLeavesIdle(d: Options, w: Worker, e: Event, now: real)
    requires OptionsOk(d) && Enabled(d, w, e, now) && MeasurementShape(d, w.m) && w.nextRateConnection < |w.conns|
    requires var posted := Handle(d, w, e, now).posted; |posted| > |w.posted| && WarmupComplete in posted[|w.posted|..]
    ensures Handle(d, w, e, now).phase == Idle
  {
    hide OnData, OnClose, FillClosedLoop, Dispatch, Flush, FillAll, Expected, GlobalExpected, MeasurementShape;
    hide DrainConn, TotalInFlight;
    match e
    case Data(i, chunk, nows, accepted) => DataCompletes(d, w, i, Parsed(d, w, i, chunk), nows, accepted);
    case Close(i) => CloseCompleting(w, i);
    case RateTick(accepts) => TickPostsNothing(d, w, now, accepts);
    case Start(measuring, durationMs, accepts) =>
      if w.phase == Idle {
        var w1 := Started(d, w, measuring, durationMs, now);
        FillPostsNothing(d, w1, |w1.conns|, now, accepts);
      }
    case _ =>
  }

  lemma TickPostsNothing(d: Options, w: Worker, now: real, accepted: seq<bool>)
    requires OptionsOk(d) && w.nextRateConnection < |w.conns| <= |accepted|
    ensures OnRateTick(d, w, now, accepted).posted == w.posted
  {
    hide Dispatch, Expected, GlobalExpected, Flush;
    if w.running && d.rate.Some? {
      var expected := Expected(d, GlobalExpected(w, d.rate.value, now));
      var due := if expected > w.phaseScheduled then expected - w.phaseScheduled else 0;
      var r := Dispatch(d, w, w.conns, w.nextRateConnection, w.phaseScheduled, due);
      var w1 := w.(conns := r.conns, nextRateConnection := r.cursor, phaseScheduled := w.phaseScheduled + due,
                   m := w.m.(rateDropped := w.m.rateDropped + r.dropped));
      FlushPostsNothing(d, w1, |w1.conns|, now, accepted);
    }
  }

  // ---------------------------------------------------------------- ready

  lemma {:induction false} AllCounted(conns: seq<Conn>)
    ensures CountConnected(conns) <= |conns|
    ensures CountConnected(conns) == |conns| ==> forall i :: 0 <= i < |conns| ==> conns[i].connected
  {
    if conns != [] {
      AllCounted(conns[..|conns| - 1]);
    }
  }

  /** Ready is posted by the event after which all connections are connected at once. */
  lemma ReadyMeansAllConnected(d: Options, w: Worker, e: Event, now: real)
    requires OptionsOk(d) && Inv(d, w) && Enabled(d, w, e, now)
    requires !w.readySent && Step(d, w, e, now).readySent
    ensures forall i :: 0 <= i < |w.conns| ==> Step(d, w, e, now).conns[i].connected
  {
    hide ConnsOk, Books, Tallies, RateBooks, PostsOk, Handle, MeasurementShape;
    StepKeepsInv(d, w, e, now);
    ReadyByConnect(d, w, e, now);
    OpenNotFinished(d, w, e.i);
    AllCounted(Step(d, w, e, now).conns);
  }

  lemma OpenNotFinished(d: Options, w: Worker, i: nat)
    requires OptionsOk(d) && Inv(d, w) && i < |w.conns| && !w.conns[i].stopped
    ensures w.phase != Finished
  {
    assert ConnOk(d, w.phase, Live(w), w.conns[i], 0);
  }

  /** Only a connection that comes up makes the worker ready, and only as the last one missing. */
  lemma ReadyByConnect(d: Options, w: Worker, e: Event, now: real)
    requires OptionsOk(d) && Enabled(d, w, e, now) && MeasurementShape(d, w.m) && w.nextRateConnection < |w.conns|
    requires Handle(d, w, e, now).readySent != w.readySent
    ensures e.Connect? && !w.conns[e.i].stopped
    ensures var r := Handle(d, w, e, now); r.connected == d.connections && r.phase == w.phase
  {
    hide OnData, OnDrain, OnTimeout, OnError, OnClose, OnReconnect, FillClosedLoop, Dispatch, Flush, Parsed;
    hide Expected, GlobalExpected, MeasurementShape;
  }

  // ---------------------------------------------------------------- the rate, over runs

  /** No arrival is handed over or dropped before it is due. */
  predicate NotAhead(d: Options, w: Worker)
    requires OptionsOk(d)
  {
    w.running && d.rate.Some? ==> w.phaseScheduled <= Expected(d, GlobalExpected(w, d.rate.value, w.clock))
  }

  lemma ExpectedMonotone(d: Options, a: int, b: int)
    requires OptionsOk(d) && a <= b
    ensures Expected(d, a) <= Expected(d, b)
  {
    var e := Expected(d, a);
    if e > 0 {
      ExpectedExact(d, a, e - 1);
      ExpectedExact(d, b, e - 1);
    }
  }

  lemma GlobalMonotone(w: Worker, rate: real, before: real, now: real)
    requires rate > 0.0 && before <= now
    ensures GlobalExpected(w, rate, before) <= GlobalExpected(w, rate, now)
  {
    var a, b := Earlier(before, w.stopAt) - w.startedAt, Earlier(now, w.stopAt) - w.startedAt;
    assert a <= b;
    assert a * rate <= b * rate;
    assert a * rate / 1000.0 <= b * rate / 1000.0;
  }

  lemma StepNotAhead(d: Options, w: Worker, e: Event, now: real)
    requires OptionsOk(d) && Inv(d, w) && Enabled(d, w, e, now) && NotAhead(d, w)
    ensures NotAhead(d, Step(d, w, e, now))
  {
    hide ConnsOk, Books, Tallies, RateBooks, PostsOk, MeasurementShape, Expected, GlobalExpected;
    if d.rate.Some? {
      if e.Start? {
        FreshStart(d, w, e, now);
      } else {
        hide Handle;
        TimesKept(d, w, e, now);
        var r := Step(d, w, e, now);
        SameTimes(w, r, d.rate.value, now);
        if e.RateTick? {
          TickNotAhead(d, w, now, e);
        }
        GlobalMonotone(w, d.rate.value, w.clock, now);
        ExpectedMonotone(d, GlobalExpected(w, d.rate.value, w.clock), GlobalExpected(w, d.rate.value, now));
      }
    }
  }

  lemma SameTimes(w: Worker, r: Worker, rate: real, now: real)
    requires r.startedAt == w.startedAt && r.stopAt == w.stopAt
    ensures GlobalExpected(r, rate, now) == GlobalExpected(w, rate, now)
  {
  }

  lemma FreshStart(d: Options, w: Worker, e: Event, now: real)
    requires OptionsOk(d) && Inv(d, w) && Enabled(d, w, e, now) && e.Start? && d.rate.Some?
    ensures Step(d, w, e, now).running ==> Step(d, w, e, now).phaseScheduled == 0
  {
    hide ConnsOk, Books, Tallies, RateBooks, PostsOk, MeasurementShape;
  }

  lemma TickNotAhead(d: Options, w: Worker, now: real, e: Event)
    requires OptionsOk(d) && Inv(d, w) && Enabled(d, w, e, now) && e.RateTick? && d.rate.Some?
    ensures var expected := Expected(d, GlobalExpected(w, d.rate.value, now));
            Handle(d, w, e, now).phaseScheduled == if expected > w.phaseScheduled then expected else w.phaseScheduled
  {
    hide ConnsOk, Books, Tallies, RateBooks, PostsOk, MeasurementShape, Expected, GlobalExpected;
    RateTickExact(d, w, now, e.accepts);
  }

  lemma {:induction false} RunNotAhead(d: Options, t: Trace, i: nat)
    requires OptionsOk(d) && IsRun(d, t) && i < |t.states|
    ensures NotAhead(d, t.states[i])
  {
    hide Inv, NotAhead, Enabled, Step, MeasurementShape;
    assert Linked(d, t, i);
    if i == 0 {
      NewNotAhead(d, t.states[0]);
    } else {
      RunNotAhead(d, t, i - 1);
      RunKeepsInv(d, t, i - 1);
      StepNotAhead(d, t.states[i - 1], t.events[i - 1].event, t.events[i - 1].at);
    }
  }

  lemma NewNotAhead(d: Options, w: Worker)
    requires OptionsOk(d) && exists now :: w == Initial(d, now)
    ensures NotAhead(d, w)
  {
  }

  /** At a fixed rate every arrival handed over or dropped so far was due, and every one of them is accounted for. */
  lemma RateAccounted(d: Options, w: Worker)
    requires OptionsOk(d) && Reachable(d, w) && FixedRateActive(d, w)
    ensures w.m.sent + w.m.rateDropped == w.phaseScheduled
    ensures forall k :: 0 <= k < w.phaseScheduled ==> Due(d, w.startedAt, k, Earlier(w.clock, w.stopAt))
    ensures w.m.scheduledOperations == w.m.sent
  {
    hide ConnsOk, Tallies, PostsOk, MeasurementShape, Linked, Expected, GlobalExpected, Due;
    ReachableInv(d, w);
    var t :| IsRun(d, t) && t.states[|t.states| - 1] == w;
    RunNotAhead(d, t, |t.states| - 1);
    forall k | 0 <= k < w.phaseScheduled
      ensures Due(d, w.startedAt, k, Earlier(w.clock, w.stopAt))
    {
      ExpectedIsDue(d, w, w.clock, k);
    }
  }

  // ---------------------------------------------------------------- quiet phases

  /** A queue only lost entries at its front, or was cleared. */
  predicate Shrinks(a: seq<real>, b: seq<real>) {
    |b| <= |a| && b == a[|a| - |b|..]
  }

  predicate AllShrink(a: seq<Conn>, b: seq<Conn>) {
    |a| == |b| && forall i :: 0 <= i < |a| ==> Shrinks(a[i].timestamps, b[i].timestamps)
  }

  lemma ShrinkTwice(a: seq<real>, b: seq<real>, c: seq<real>)
    requires Shrinks(a, b) && Shrinks(b, c)
    ensures Shrinks(a, c)
  {
    assert c == a[|a| - |b|..][|b| - |c|..];
  }

  lemma AllShrinkTwice(a: seq<Conn>, b: seq<Conn>, c: seq<Conn>)
    requires AllShrink(a, b) && AllShrink(b, c)
    ensures AllShrink(a, c)
  {
    hide Shrinks;
    forall i | 0 <= i < |a|
      ensures Shrinks(a[i].timestamps, c[i].timestamps)
    {
      ShrinkTwice(a[i].timestamps, b[i].timestamps, c[i].timestamps);
    }
  }

  lemma WarmupShrinks(w: Worker)
    ensures AllShrink(w.conns, MaybeCompleteWarmup(w).conns)
  {
  }

  lemma ResponseShrinks(d: Options, w: Worker, i: nat, status: nat, now: real)
    requires OptionsOk(d) && i < |w.conns| && MeasurementShape(d, w.m) && status < 600
    ensures AllShrink(w.conns, OnResponse(d, w, i, status, now).0.conns)
  {
    hide RecordResponse, MaybeCompleteWarmup;
    var c := w.conns[i];
    if c.timestamps != [] {
      var m1 := if w.running then RecordResponse(d, w.m, status, now - c.timestamps[0]) else w.m;
      var w1 := w.(conns := w.conns[i := c.(timestamps := c.timestamps[1..])], m := m1);
      TakenShrinks(w.conns, i);
      hide AllShrink;
      WarmupShrinks(w1);
      AllShrinkTwice(w.conns, w1.conns, MaybeCompleteWarmup(w1).conns);
      assert OnResponse(d, w, i, status, now).0 == MaybeCompleteWarmup(w1);
    }
  }

  lemma TakenShrinks(conns: seq<Conn>, i: nat)
    requires i < |conns| && conns[i].timestamps != []
    ensures AllShrink(conns, conns[i := conns[i].(timestamps := conns[i].timestamps[1..])])
  {
  }

  lemma {:induction false} ResponsesShrink(d: Options, w: Worker, i: nat, statuses: seq<nat>, nows: seq<real>)
    requires OptionsOk(d) && i < |w.conns| && MeasurementShape(d, w.m) && StatusesOk(statuses)
    requires |nows| >= |statuses|
    ensures AllShrink(w.conns, OnResponses(d, w, i, statuses, nows).0.conns)
    decreases |statuses|
  {
    hide OnResponse, AllShrink, MeasurementShape;
    if statuses == [] {
      AllShrinkSame(w.conns);
    } else {
      var n := |statuses| - 1;
      ResponsesShrink(d, w, i, statuses[..n], nows);
      var before := OnResponses(d, w, i, statuses[..n], nows);
      ResponseShrinks(d, before.0, i, statuses[n], nows[n]);
      AllShrinkTwice(w.conns, before.0.conns, OnResponse(d, before.0, i, statuses[n], nows[n]).0.conns);
    }
  }

  lemma AllShrinkSame(conns: seq<Conn>)
    ensures AllShrink(conns, conns)
  {
  }

  lemma DataShrinks(d: Options, w: Worker, i: nat, chunk: Stream.Outcome, nows: seq<real>, accepted: bool)
    requires OptionsOk(d) && i < |w.conns| && MeasurementShape(d, w.m) && !w.running
    requires StatusesOk(chunk.statuses) && |nows| == |chunk.statuses| + 1
    ensures AllShrink(w.conns, OnData(d, w, i, chunk, nows, accepted).conns)
  {
    hide OnResponses, MeasurementShape, Shrinks;
    var c := w.conns[i];
    ShrinksSame(w.conns);
    if c.open && !c.stopped {
      var start := w.(conns := w.conns[i := c.(parser := chunk.parser)]);
      ResponsesShrink(d, start, i, chunk.statuses, nows);
    }
  }

  lemma ShrinksSame(conns: seq<Conn>)
    ensures forall i :: 0 <= i < |conns| ==> Shrinks(conns[i].timestamps, conns[i].timestamps)
  {
  }

  lemma DisconnectShrinks(w: Worker, i: nat)
    requires i < |w.conns|
    ensures AllShrink(w.conns, Disconnect(w, i).conns)
  {
    hide Shrinks, MaybeCompleteWarmup;
    var c := w.conns[i];
    var w1 := w.(conns := w.conns[i := c.(open := false, backpressured := false, connected := false)]);
    ShrinksSame(w.conns);
    if c.connected {
      var w2 := w1.(connected := if w.connected > 0 then w.connected - 1 else 0);
      WarmupShrinks(w2);
      AllShrinkTwice(w.conns, w1.conns, MaybeCompleteWarmup(w2).conns);
    }
  }

  lemma AbortShrinks(w: Worker, i: nat)
    requires i < |w.conns|
    ensures AllShrink(w.conns, AbortInFlight(w, i).conns)
  {
    hide MaybeCompleteWarmup;
    var c := w.conns[i];
    var w1 := w.(m := RecordAborted(w.m, w.running, |c.timestamps|), conns := w.conns[i := c.(timestamps := [])]);
    WarmupShrinks(w1);
    AllShrinkTwice(w.conns, w1.conns, MaybeCompleteWarmup(w1).conns);
  }

  lemma CloseShrinks(w: Worker, i: nat)
    requires i < |w.conns|
    ensures AllShrink(w.conns, OnClose(w, i).conns)
  {
    hide Shrinks, Disconnect, AbortInFlight;
    if w.conns[i].open {
      var w2 := Disconnect(w, i);
      var w4 := AbortInFlight(w2, i);
      DisconnectShrinks(w, i);
      AbortShrinks(w2, i);
      AllShrinkTwice(w.conns, w2.conns, w4.conns);
    } else {
      AllShrinkSame(w.conns);
    }
  }

  /** Outside a running phase nothing is sent: unless a phase starts, every queue only loses entries. */
  lemma QuietOutsidePhases(d: Options, w: Worker, e: Event, now: real)
    requires OptionsOk(d) && Inv(d, w) && Enabled(d, w, e, now)
    requires !w.running && !(e.Start? && w.phase == Idle)
    ensures AllShrink(w.conns, Step(d, w, e, now).conns)
  {
    hide ConnsOk, Books, Tallies, RateBooks, PostsOk, MeasurementShape, Shrinks, OnData, OnClose, Stream.Push;
    hide Send, Flush, Dispatch, MaybeCompleteWarmup;
    ShrinksSame(w.conns);
    if e.Data? {
      DataShrinks(d, w, e.i, Parsed(d, w, e.i, e.chunk), e.nows, e.accepted);
    } else if e.Close? {
      CloseShrinks(w, e.i);
    } else if e.Start? || e.Abort? {
      StopShrinks(w.conns);
    }
  }

  lemma StopShrinks(conns: seq<Conn>)
    ensures AllShrink(conns, StopAll(conns))
  {
  }

  // ---------------------------------------------------------------- the same over runs

  /** In every run, ready is posted by an event after which every connection is connected at once. */
  lemma ReadyInRun(d: Options, t: Trace, i: nat)
    requires OptionsOk(d) && IsRun(d, t) && 0 < i < |t.states|
    requires !t.states[i - 1].readySent && t.states[i].readySent
    ensures forall j :: 0 <= j < |t.states[i].conns| ==> t.states[i].conns[j].connected
  {
    hide Inv, Step, Enabled, MeasurementShape;
    StepInRun(d, t, i);
    ReadyMeansAllConnected(d, t.states[i - 1], t.events[i - 1].event, t.events[i - 1].at);
    RunKeepsInv(d, t, i);
    SameConnections(d, t.states[i - 1], t.states[i]);
  }

  /** In every run, an event that posts `warmup-complete` leaves the worker idle with nothing in flight. */
  lemma WarmupInRun(d: Options, t: Trace, i: nat)
    requires OptionsOk(d) && IsRun(d, t) && 0 < i < |t.states|
    requires |t.states[i].posted| > |t.states[i - 1].posted|
    requires WarmupComplete in t.states[i].posted[|t.states[i - 1].posted|..]
    ensures t.states[i].phase == Idle && TotalInFlight(t.states[i].conns) == 0
  {
    hide Inv, Step, Enabled, MeasurementShape;
    StepInRun(d, t, i);
    WarmupCompleteIsDrained(d, t.states[i - 1], t.events[i - 1].event, t.events[i - 1].at);
  }

  /** In every run, an event outside a running phase that starts none adds to no queue: nothing is sent. */
  lemma QuietInRun(d: Options, t: Trace, i: nat)
    requires OptionsOk(d) && IsRun(d, t) && 0 < i < |t.states|
    requires !t.states[i - 1].running && !(t.events[i - 1].event.Start? && t.states[i - 1].phase == Idle)
    ensures AllShrink(t.states[i - 1].conns, t.states[i].conns)
  {
    hide Inv, Step, Enabled, MeasurementShape, AllShrink;
    StepInRun(d, t, i);
    QuietOutsidePhases(d, t.states[i - 1], t.events[i - 1].event, t.events[i - 1].at);
  }

  /** In every run, a rate tick sends what is due as far as the free slots go and drops the rest. */
  lemma TickInRun(d: Options, t: Trace, i: nat)
    requires OptionsOk(d) && IsRun(d, t) && 0 < i < |t.states|
    requires t.events[i - 1].event.RateTick? && FixedRateActive(d, t.states[i - 1])
    ensures var (w, r, now) := (t.states[i - 1], t.states[i], t.events[i - 1].at);
            && (forall k: nat :: k < r.phaseScheduled <==>
                  k < w.phaseScheduled || Due(d, w.startedAt, k, Earlier(now, w.stopAt)))
            && r.phaseScheduled >= w.phaseScheduled
            && var due := r.phaseScheduled - w.phaseScheduled;
               var sent := Least(due, Free(d, true, w.conns));
               r.m.sent == w.m.sent + sent && r.m.rateDropped == w.m.rateDropped + due - sent
  {
    hide Inv, MeasurementShape, OnRateTick, Expected, GlobalExpected, Free, Due;
    StepInRun(d, t, i);
    RateTickExact(d, t.states[i - 1], t.events[i - 1].at, t.events[i - 1].event.accepts);
  }

  lemma StepInRun(d: Options, t: Trace, i: nat)
    requires OptionsOk(d) && IsRun(d, t) && 0 < i < |t.states|
    ensures Inv(d, t.states[i - 1]) && Follows(d, t.states[i - 1], t.events[i - 1], t.states[i])
  {
    hide Inv, Follows;
    RunKeepsInv(d, t, i - 1);
    assert Linked(d, t, i);
  }

  lemma SameConnections(d: Options, w: Worker, r: Worker)
    requires OptionsOk(d) && Inv(d, w) && Inv(d, r)
    ensures |w.conns| == |r.conns| == d.connections
  {
    hide ConnsOk, Books, Tallies, RateBooks, PostsOk, MeasurementShape;
  }
}
