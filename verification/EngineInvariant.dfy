/** What every event of a load worker keeps, and so what holds in every reachable state. */
module EngineInvariant {
  import opened Basics
  import opened Http1Engine
  import Stream = ResponseStream

  predicate Running(phase: Phase) {
    phase == Warmup || phase == Measuring
  }

  /**
    * One connection between events. `owed` requests are about to be replenished by the event in progress; `live`
    * says that the clock has not reached the phase's end.
    */
  predicate ConnOk(d: Options, phase: Phase, live: bool, c: Conn, owed: nat) {
    && Stream.Valid(c.parser)
    && c.rateBatch == []
    // Capacity: what is queued, held back and owed fits the pipeline.
    && |c.timestamps| + c.pendingClosedLoop + owed <= d.pipelining
    && (!c.connected ==> c.timestamps == [] && c.pendingClosedLoop == 0 && !c.backpressured)
    && (c.stopped <==> phase == Finished)
    && (c.stopped ==> !c.open && c.timestamps == [] && c.pendingClosedLoop == 0)
    && (c.connected && !c.stopped ==> c.open)
    && (phase == Idle ==> c.timestamps == [] && c.pendingClosedLoop == 0)
    && (d.rate.Some? ==> c.pendingClosedLoop == 0)
    && (owed > 0 ==> c.connected && Running(phase) && d.rate.None?)
    && (Running(phase) && c.pendingClosedLoop > 0 ==> c.backpressured)
    // Work conservation: a healthy connection of a closed loop is full.
    && (Running(phase) && d.rate.None? && live && c.connected && !c.protocolFailure && !c.timeoutFailure ==>
          |c.timestamps| + c.pendingClosedLoop + owed == d.pipelining)
  }

  predicate ConnsOk(d: Options, w: Worker, live: bool, i: nat, owed: nat) {
    forall j :: 0 <= j < |w.conns| ==> ConnOk(d, w.phase, live, w.conns[j], if j == i then owed else 0)
  }

  /** Every request sent in the phase is answered, aborted or in flight. */
  predicate Books(w: Worker) {
    w.running ==> w.m.sent == w.m.completed + w.m.aborted + TotalInFlight(w.conns)
  }

  function CountSum(counts: seq<nat>): nat {
    if counts == [] then 0 else CountSum(counts[..|counts| - 1]) + counts[|counts| - 1]
  }

  /**
    * Completed responses are counted once by status, all of them final, and those that are no success once more; and
    * the recorder has been fed one latency for each.
    */
  predicate Tallies(d: Options, m: Measurement) {
    && m.completed == CountSum(m.statusCounts) && m.completed == |m.latencies|
    && |m.statusCounts| == 600
    && (forall code :: 0 <= code < 200 ==> m.statusCounts[code] == 0)
    && m.completed == m.non2xx + CountSum(m.statusCounts[..300])
  }

  /** Every arrival of a fixed rate so far was sent or dropped; a closed loop has no arrivals. */
  predicate RateBooks(d: Options, w: Worker) {
    w.running ==>
      && (d.rate.Some? ==> w.phaseScheduled == w.m.sent + w.m.rateDropped && w.m.scheduledOperations == w.m.sent)
      && (d.rate.None? ==> w.m.rateDropped == 0 && w.m.scheduledOperations == 0)
  }

  predicate ResultOk(d: Options, message: Message) {
    message.Posted? ==>
      && message.result.sent == message.result.completed + message.result.aborted + message.inFlightAtStop
      && Tallies(d, message.result)
  }

  /** `ready` is posted at most once, and a result or a fatal error is the last message of a finished worker. */
  ghost predicate PostsOk(d: Options, w: Worker) {
    && (forall k :: 0 <= k < |w.posted| && w.posted[k] == Ready ==> w.readySent)
    && (forall k, l :: 0 <= k < l < |w.posted| ==> !(w.posted[k] == Ready && w.posted[l] == Ready))
    && (forall k :: 0 <= k < |w.posted| && (w.posted[k].Posted? || w.posted[k].Fatal?) ==>
          k == |w.posted| - 1 && w.phase == Finished)
    && (forall k :: 0 <= k < |w.posted| ==> ResultOk(d, w.posted[k]))
  }

  predicate Shape(d: Options, w: Worker)
    requires OptionsOk(d)
  {
    && |w.conns| == d.connections && w.nextRateConnection < d.connections
    && MeasurementShape(d, w.m)
    && !w.thrown
    && (w.running <==> Running(w.phase))
    && (w.phase != Finished ==> w.connected == CountConnected(w.conns))
  }

  ghost predicate Between(d: Options, w: Worker, live: bool, i: nat, owed: nat)
    requires OptionsOk(d)
  {
    Shape(d, w) && ConnsOk(d, w, live, i, owed) && Books(w) && Tallies(d, w.m) && RateBooks(d, w) && PostsOk(d, w)
  }

  predicate Live(w: Worker) {
    w.clock < w.stopAt
  }

  /** The invariant between events. */
  ghost predicate Inv(d: Options, w: Worker)
    requires OptionsOk(d)
  {
    Between(d, w, Live(w), 0, 0)
  }

  // ---------------------------------------------------------------- sums

  lemma {:induction false} InFlightUpdate(conns: seq<Conn>, i: nat, c: Conn)
    requires i < |conns|
    ensures TotalInFlight(conns[i := c]) == TotalInFlight(conns) - |conns[i].timestamps| + |c.timestamps|
    ensures |conns[i].timestamps| <= TotalInFlight(conns)
  {
    var front := conns[..|conns| - 1];
    if i == |conns| - 1 {
      assert conns[i := c][..|conns| - 1] == front;
    } else {
      assert conns[i := c][..|conns| - 1] == front[i := c];
      InFlightUpdate(front, i, c);
    }
  }

  lemma {:induction false} ConnectedUpdate(conns: seq<Conn>, i: nat, c: Conn)
    requires i < |conns|
    ensures CountConnected(conns[i := c])
         == CountConnected(conns) - (if conns[i].connected then 1 else 0) + if c.connected then 1 else 0
    ensures conns[i].connected ==> CountConnected(conns) > 0
  {
    var front := conns[..|conns| - 1];
    if i == |conns| - 1 {
      assert conns[i := c][..|conns| - 1] == front;
    } else {
      assert conns[i := c][..|conns| - 1] == front[i := c];
      ConnectedUpdate(front, i, c);
    }
  }

  lemma {:induction false} SumsAgree(a: seq<Conn>, b: seq<Conn>)
    requires |a| == |b|
    requires forall j :: 0 <= j < |a| ==>
               |a[j].timestamps| == |b[j].timestamps| && a[j].connected == b[j].connected
    ensures TotalInFlight(a) == TotalInFlight(b) && CountConnected(a) == CountConnected(b)
  {
    if a != [] {
      SumsAgree(a[..|a| - 1], b[..|b| - 1]);
    }
  }

  lemma {:induction false} NoneInFlight(conns: seq<Conn>)
    ensures TotalInFlight(conns) == 0 <==> forall j :: 0 <= j < |conns| ==> conns[j].timestamps == []
  {
    if conns != [] {
      NoneInFlight(conns[..|conns| - 1]);
    }
  }

  lemma {:induction false} SumUpdate(counts: seq<nat>, k: nat)
    requires k < |counts|
    ensures CountSum(counts[k := counts[k] + 1]) == CountSum(counts) + 1
  {
    var front := counts[..|counts| - 1];
    if k == |counts| - 1 {
      assert counts[k := counts[k] + 1][..|counts| - 1] == front;
    } else {
      assert counts[k := counts[k] + 1][..|counts| - 1] == front[k := front[k] + 1];
      SumUpdate(front, k);
    }
  }

  lemma {:induction false} SumZero(counts: seq<nat>)
    requires forall k :: 0 <= k < |counts| ==> counts[k] == 0
    ensures CountSum(counts) == 0
  {
    if counts != [] {
      SumZero(counts[..|counts| - 1]);
    }
  }

  // ---------------------------------------------------------------- one connection

  /** Sending changed only the queue and the sent counters, and by the same number. */
  predicate Balanced(before: Conn, m: Measurement, s: Sending) {
    && !s.thrown
    && s.conn.connected == before.connected
    && |before.timestamps| <= |s.conn.timestamps|
    && s.m == m.(sent := m.sent + |s.conn.timestamps| - |before.timestamps|,
                 scheduledOperations := s.m.scheduledOperations)
  }

  /** Replenishing what is owed sends it or holds it back, and never overflows the queue. */
  lemma ReplenishOk(
    d: Options, phase: Phase, live: bool, c: Conn, m: Measurement, count: nat, now: real, accepted: bool)
    requires ConnOk(d, phase, live, c, count) && count > 0
    ensures var s := Replenish(d, true, c, m, count, now, accepted);
            ConnOk(d, phase, live, s.conn, 0) && Balanced(c, m, s)
            && s.m.scheduledOperations == m.scheduledOperations
  {
  }

  lemma FillOk(d: Options, phase: Phase, live: bool, c: Conn, m: Measurement, now: real, accepted: bool)
    requires ConnOk(d, phase, live, c, if c.connected && Running(phase) && d.rate.None? then d.pipelining else 0)
    requires d.pipelining > 0
    ensures var s := FillClosedLoop(d, Running(phase), c, m, now, accepted);
            ConnOk(d, phase, live, s.conn, 0) && Balanced(c, m, s)
            && s.m.scheduledOperations == m.scheduledOperations
  {
    if c.connected && Running(phase) && d.rate.None? {
      ReplenishOk(d, phase, live, c, m, d.pipelining, now, accepted);
    }
  }

  // ---------------------------------------------------------------- worker updates

  /** Replacing one connection and the counters together keeps the rest when the books still balance. */
  lemma ReplaceOk(
    d: Options, w: Worker, live: bool, i: nat, owed: nat, c: Conn, next: nat, m: Measurement, connected: nat)
    requires OptionsOk(d) && i < |w.conns| && Between(d, w, live, i, owed)
    requires ConnOk(d, w.phase, live, c, next)
    requires MeasurementShape(d, m) && Tallies(d, m)
    requires w.running ==>
               (m.sent + w.m.completed + w.m.aborted + |w.conns[i].timestamps|
             == w.m.sent + m.completed + m.aborted + |c.timestamps|)
    requires m.rateDropped == w.m.rateDropped && m.scheduledOperations == w.m.scheduledOperations
    requires d.rate.Some? ==> m.sent == w.m.sent
    requires w.phase != Finished ==>
               connected + (if w.conns[i].connected then 1 else 0) == w.connected + if c.connected then 1 else 0
    ensures Between(d, w.(conns := w.conns[i := c], m := m, connected := connected), live, i, next)
  {
    hide ConnOk, Tallies, MeasurementShape, PostsOk;
    InFlightUpdate(w.conns, i, c);
    ConnectedUpdate(w.conns, i, c);
    PostsOkSame(d, w, w.(conns := w.conns[i := c], m := m, connected := connected));
  }

  /** Posting depends only on what was posted, the ready flag and the phase. */
  lemma PostsOkSame(d: Options, w: Worker, v: Worker)
    requires PostsOk(d, w) && v.posted == w.posted && v.readySent == w.readySent && v.phase == w.phase
    ensures PostsOk(d, v)
  {
  }

  /** Replacing one connection after a balanced sending keeps everything else. */
  lemma UpdateOk(d: Options, w: Worker, live: bool, i: nat, owed: nat, s: Sending)
    requires OptionsOk(d) && i < |w.conns| && Between(d, w, live, i, owed)
    requires w.running && d.rate.None?
    requires ConnOk(d, w.phase, live, s.conn, 0) && Balanced(w.conns[i], w.m, s)
    requires s.m.scheduledOperations == w.m.scheduledOperations
    ensures Between(d, Update(w, i, s), live, 0, 0)
  {
    hide ConnOk, ConnsOk, PostsOk;
    ReplaceOk(d, w, live, i, owed, s.conn, 0, s.m, w.connected);
    OwedZero(d, Update(w, i, s), live, i, 0);
  }

  /** Replacing a connection by one with the same queue and connected flag keeps the books. */
  lemma SwapOk(d: Options, w: Worker, live: bool, i: nat, owed: nat, c: Conn, newOwed: nat)
    requires OptionsOk(d) && i < |w.conns| && Between(d, w, live, i, owed)
    requires ConnOk(d, w.phase, live, c, newOwed)
    requires |c.timestamps| == |w.conns[i].timestamps| && c.connected == w.conns[i].connected
    ensures Between(d, w.(conns := w.conns[i := c]), live, i, newOwed)
  {
    hide ConnOk, ConnsOk, PostsOk;
    ReplaceOk(d, w, live, i, owed, c, newOwed, w.m, w.connected);
  }

  lemma OwedZero(d: Options, w: Worker, live: bool, i: nat, j: nat)
    requires OptionsOk(d) && Between(d, w, live, i, 0)
    ensures Between(d, w, live, j, 0)
  {
    hide ConnOk, Books, Tallies, RateBooks, PostsOk, Shape;
  }

  lemma PostOk(d: Options, w: Worker, live: bool, i: nat, owed: nat, message: Message)
    requires OptionsOk(d) && Between(d, w, live, i, owed)
    requires w.phase != Finished || forall k :: 0 <= k < |w.posted| ==> !w.posted[k].Posted? && !w.posted[k].Fatal?
    requires message == Ready ==> w.readySent && forall k :: 0 <= k < |w.posted| ==> w.posted[k] != Ready
    requires message.Posted? || message.Fatal? ==> w.phase == Finished
    requires ResultOk(d, message)
    ensures Between(d, Post(w, message), live, i, owed)
  {
    hide ConnOk, Tallies, MeasurementShape;
  }

  /** A drained warmup goes back to idle with nothing in flight and nothing held back. */
  lemma CompleteWarmupOk(d: Options, w: Worker, live: bool, i: nat, owed: nat)
    requires OptionsOk(d) && Between(d, w, live, i, owed) && i < |w.conns|
    ensures Between(d, MaybeCompleteWarmup(w), live, i, owed)
  {
    if w.phase == WarmupDraining && TotalInFlight(w.conns) == 0 {
      var conns := ResetAll(w.conns);
      var idle := w.(conns := conns, phase := Idle);
      SumsAgree(w.conns, conns);
      NoneInFlight(w.conns);
      forall j | 0 <= j < |conns|
        ensures ConnOk(d, Idle, live, conns[j], 0)
      {
        assert ConnOk(d, w.phase, live, w.conns[j], if j == i then owed else 0);
      }
      assert ConnOk(d, w.phase, live, w.conns[i], owed);
      assert Between(d, idle, live, i, 0);
      PostOk(d, idle, live, i, 0, WarmupComplete);
    }
  }

  /** Once the phase's end is reached work conservation asks for nothing. */
  lemma LiveWeakens(d: Options, w: Worker, live: bool, i: nat)
    requires OptionsOk(d) && Between(d, w, live, i, 0)
    ensures Between(d, w, false, i, 0)
  {
    forall j | 0 <= j < |w.conns|
      ensures ConnOk(d, w.phase, false, w.conns[j], 0)
    {
      assert ConnOk(d, w.phase, live, w.conns[j], 0);
    }
    hide ConnOk;
  }

  // ---------------------------------------------------------------- events of one connection

  function Connecting(c: Conn): Conn {
    c.(connected := true, reconnectScheduled := false)
  }

  lemma ConnectingOk(d: Options, phase: Phase, live: bool, c: Conn)
    requires ConnOk(d, phase, live, c, 0) && c.open && !c.connected
    ensures !c.stopped
    ensures ConnOk(d, phase, live, Connecting(c), if Running(phase) && d.rate.None? then d.pipelining else 0)
  {
  }

  /** A connection that comes up owes a whole pipeline when a closed loop is running. */
  lemma ConnectedOk(d: Options, w: Worker, live: bool, i: nat) returns (owed: nat)
    requires OptionsOk(d) && Between(d, w, live, 0, 0) && i < |w.conns|
    requires w.conns[i].open && !w.conns[i].connected
    ensures owed == if w.running && d.rate.None? then d.pipelining else 0
    ensures var c1 := Connecting(w.conns[i]);
            && !c1.stopped && ConnOk(d, w.phase, live, c1, owed) && w.phase != Finished
            && Between(d, w.(connected := w.connected + 1, conns := w.conns[i := c1]), live, i, owed)
  {
    owed := if w.running && d.rate.None? then d.pipelining else 0;
    var c := w.conns[i];
    assert ConnOk(d, w.phase, live, c, 0);
    ConnectingOk(d, w.phase, live, c);
    OwedZero(d, w, live, 0, i);
    hide ConnOk, ConnsOk, PostsOk;
    ReplaceOk(d, w, live, i, 0, Connecting(c), owed, w.m, w.connected + 1);
  }

  lemma ReadyOk(d: Options, w: Worker, live: bool, i: nat, owed: nat)
    requires OptionsOk(d) && Between(d, w, live, i, owed) && !w.readySent && w.phase != Finished
    ensures Between(d, Post(w.(readySent := true), Ready), live, i, owed)
  {
    hide ConnOk, Tallies, MeasurementShape;
    var ready := w.(readySent := true);
    assert Between(d, ready, live, i, owed);
    PostOk(d, ready, live, i, owed, Ready);
  }

  lemma ConnectOk(d: Options, w: Worker, live: bool, i: nat, now: real, accepted: bool)
    requires OptionsOk(d) && Between(d, w, live, 0, 0) && i < |w.conns|
    requires w.conns[i].open && !w.conns[i].connected
    ensures Between(d, OnConnect(d, w, i, now, accepted), live, 0, 0)
  {
    hide ConnsOk, Books, Tallies, RateBooks, PostsOk, MeasurementShape;
    var c := w.conns[i];
    var owed := ConnectedOk(d, w, live, i);
    var c1 := Connecting(c);
    var w1 := w.(connected := w.connected + 1, conns := w.conns[i := c1]);
    var w2 := w1;
    if !w.readySent && w1.connected == d.connections {
      ReadyOk(d, w1, live, i, owed);
      w2 := Post(w1.(readySent := true), Ready);
    }
    var s := FillClosedLoop(d, w.running, c1, w.m, now, accepted);
    FillOk(d, w.phase, live, c1, w.m, now, accepted);
    if !c.stopped {
      if owed > 0 {
        UpdateOk(d, w2, live, i, owed, s);
      } else {
        assert w2.conns[i := c1] == w2.conns;
        OwedZero(d, w2, live, i, 0);
      }
    }
  }

  /** A response that answers nothing marks the connection and changes no queue. */
  lemma OrphanOk(d: Options, w: Worker, live: bool, i: nat, owed: nat)
    requires OptionsOk(d) && i < |w.conns| && Between(d, w, live, i, owed)
    ensures Between(d, w.(conns := w.conns[i := w.conns[i].(protocolFailure := true)],
                          m := RecordProtocolError(w.m, w.running)), live, i, owed)
  {
    var c1 := w.conns[i].(protocolFailure := true);
    assert ConnOk(d, w.phase, live, w.conns[i], owed);
    assert ConnOk(d, w.phase, live, c1, owed);
    hide ConnOk, ConnsOk, PostsOk;
    ReplaceOk(d, w, live, i, owed, c1, owed, RecordProtocolError(w.m, w.running), w.connected);
  }

  /** A response takes the oldest timestamp, is counted, and asks for a replacement while the phase goes on. */
  lemma AnsweredOk(d: Options, w: Worker, live: bool, i: nat, owed: nat, status: nat, latencyMs: real, more: bool)
    requires OptionsOk(d) && i < |w.conns| && Between(d, w, live, i, owed) && 200 <= status <= 599
    requires w.conns[i].connected && w.conns[i].timestamps != []
    requires more ==> ClosedLoopActive(d, w)
    requires live && ClosedLoopActive(d, w) ==> more
    ensures var c := w.conns[i];
            Between(d, w.(conns := w.conns[i := c.(timestamps := c.timestamps[1..])],
                          m := if w.running then RecordResponse(d, w.m, status, latencyMs) else w.m),
                    live, i, owed + if more then 1 else 0)
  {
    var c := w.conns[i];
    var c1 := c.(timestamps := c.timestamps[1..]);
    assert ConnOk(d, w.phase, live, c, owed);
    assert ConnOk(d, w.phase, live, c1, owed + if more then 1 else 0);
    RecordResponseTallies(d, w.m, status, latencyMs);
    hide ConnOk, ConnsOk, PostsOk, RecordResponse, Tallies, MeasurementShape;
    var m := if w.running then RecordResponse(d, w.m, status, latencyMs) else w.m;
    ReplaceOk(d, w, live, i, owed, c1, owed + if more then 1 else 0, m, w.connected);
  }

  lemma WarmupKeeps(w: Worker, i: nat)
    requires i < |w.conns|
    ensures var r := MaybeCompleteWarmup(w);
            r.conns[i].connected == w.conns[i].connected && r.stopAt == w.stopAt && r.running == w.running
  {
  }

  lemma ResponseOk(d: Options, w: Worker, live: bool, i: nat, owed: nat, status: nat, now: real)
    requires OptionsOk(d) && i < |w.conns| && Between(d, w, live, i, owed) && 200 <= status <= 599
    requires live ==> now < w.stopAt
    requires w.conns[i].connected
    ensures var r := OnResponse(d, w, i, status, now);
            && Between(d, r.0, live, i, owed + if r.1 then 1 else 0)
            && r.0.conns[i].connected && r.0.stopAt == w.stopAt && r.0.running == w.running
  {
    hide ConnsOk, Books, Tallies, RateBooks, PostsOk, RecordResponse, MaybeCompleteWarmup;
    var c := w.conns[i];
    if c.timestamps == [] {
      OrphanOk(d, w, live, i, owed);
    } else {
      var more := ClosedLoopActive(d, w) && now < w.stopAt;
      var latencyMs := now - c.timestamps[0];
      AnsweredOk(d, w, live, i, owed, status, latencyMs, more);
      var w1 := w.(conns := w.conns[i := c.(timestamps := c.timestamps[1..])],
                   m := if w.running then RecordResponse(d, w.m, status, latencyMs) else w.m);
      CompleteWarmupOk(d, w1, live, i, owed + if more then 1 else 0);
      WarmupKeeps(w1, i);
    }
  }

  lemma RecordResponseTallies(d: Options, m: Measurement, status: nat, latencyMs: real)
    requires OptionsOk(d) && MeasurementShape(d, m) && Tallies(d, m) && 200 <= status < 600
    ensures var r := RecordResponse(d, m, status, latencyMs);
            && Tallies(d, r) && MeasurementShape(d, r) && r.completed == m.completed + 1
            && r.sent == m.sent && r.aborted == m.aborted && r.rateDropped == m.rateDropped
            && r.scheduledOperations == m.scheduledOperations
  {
    var counts := m.statusCounts;
    SumUpdate(counts, status);
    if status < 300 {
      assert counts[status := counts[status] + 1][..300] == counts[..300][status := counts[status] + 1];
      SumUpdate(counts[..300], status);
    } else {
      assert counts[status := counts[status] + 1][..300] == counts[..300];
    }
  }

  lemma {:induction false} ResponsesOk(
    d: Options, w: Worker, live: bool, i: nat, statuses: seq<nat>, nows: seq<real>)
    requires OptionsOk(d) && i < |w.conns| && Between(d, w, live, i, 0)
    requires StatusesOk(statuses) && |nows| >= |statuses|
    requires forall k :: 0 <= k < |statuses| && live ==> nows[k] < w.stopAt
    requires w.conns[i].connected
    ensures var r := OnResponses(d, w, i, statuses, nows);
            && Between(d, r.0, live, i, r.1)
            && r.0.conns[i].connected && r.0.stopAt == w.stopAt && r.0.running == w.running
    decreases |statuses|
  {
    hide ConnsOk, Books, Tallies, RateBooks, PostsOk, OnResponse, MeasurementShape;
    if statuses != [] {
      var n := |statuses| - 1;
      ResponsesOk(d, w, live, i, statuses[..n], nows);
      var before := OnResponses(d, w, i, statuses[..n], nows);
      ResponseOk(d, before.0, live, i, before.1, statuses[n], nows[n]);
    }
  }

  lemma DataOk(d: Options, w: Worker, live: bool, i: nat, chunk: Stream.Outcome, nows: seq<real>, accepted: bool)
    requires OptionsOk(d) && i < |w.conns| && Between(d, w, live, 0, 0)
    requires StatusesOk(chunk.statuses) && |nows| == |chunk.statuses| + 1 && Stream.Valid(chunk.parser)
    requires forall k :: 0 <= k < |nows| && live ==> nows[k] < w.stopAt
    requires w.conns[i].connected
    ensures Between(d, OnData(d, w, i, chunk, nows, accepted), live, 0, 0)
  {
    var c := w.conns[i];
    if c.open && !c.stopped {
      var c0 := c.(parser := chunk.parser);
      assert ConnOk(d, w.phase, live, c, 0);
      assert ConnOk(d, w.phase, live, c0, 0);
      OwedZero(d, w, live, 0, i);
      SwapOk(d, w, live, i, 0, c0, 0);
      var start := w.(conns := w.conns[i := c0]);
      ResponsesOk(d, start, live, i, chunk.statuses, nows);
      var r := OnResponses(d, start, i, chunk.statuses, nows);
      DataEndOk(d, r.0, live, i, r.1, chunk.error.Some?, nows[|nows| - 1], accepted);
    }
  }

  /** After the callbacks: a parse error gives up what is owed and marks the connection, otherwise it is sent. */
  lemma DataEndOk(d: Options, w: Worker, live: bool, i: nat, owed: nat, failed: bool, now: real, accepted: bool)
    requires OptionsOk(d) && i < |w.conns| && Between(d, w, live, i, owed)
    ensures failed ==>
              Between(d, w.(conns := w.conns[i := w.conns[i].(protocolFailure := true)],
                            m := RecordProtocolError(w.m, w.running)), live, 0, 0)
    ensures !failed && owed > 0 ==>
              Between(d, Update(w, i, Replenish(d, w.running, w.conns[i], w.m, owed, now, accepted)), live, 0, 0)
    ensures !failed && owed == 0 ==> Between(d, w, live, 0, 0)
  {
    var c := w.conns[i];
    assert ConnOk(d, w.phase, live, c, owed);
    hide ConnsOk, PostsOk;
    if failed {
      var c1 := c.(protocolFailure := true);
      var m := RecordProtocolError(w.m, w.running);
      assert ConnOk(d, w.phase, live, c1, 0);
      ReplaceOk(d, w, live, i, owed, c1, 0, m, w.connected);
      OwedZero(d, w.(conns := w.conns[i := c1], m := m), live, i, 0);
    } else if owed > 0 {
      ReplenishOk(d, w.phase, live, c, w.m, owed, now, accepted);
      UpdateOk(d, w, live, i, owed, Replenish(d, w.running, c, w.m, owed, now, accepted));
    } else {
      OwedZero(d, w, live, i, 0);
    }
  }

  /** Draining turns what was held back into what is owed. */
  lemma ReleasedOk(d: Options, phase: Phase, live: bool, c: Conn)
    requires ConnOk(d, phase, live, c, 0) && c.backpressured && Running(phase) && d.rate.None?
    ensures c.pendingClosedLoop > 0 ==>
              ConnOk(d, phase, live, c.(backpressured := false, pendingClosedLoop := 0), c.pendingClosedLoop)
    ensures c.pendingClosedLoop == 0 ==> ConnOk(d, phase, live, c.(backpressured := false), 0)
  {
  }

  lemma DrainResumes(d: Options, w: Worker, live: bool, i: nat, now: real, accepted: bool)
    requires OptionsOk(d) && i < |w.conns| && Between(d, w, live, i, 0) && ConnOk(d, w.phase, live, w.conns[i], 0)
    requires w.conns[i].open && w.conns[i].backpressured && w.conns[i].pendingClosedLoop > 0 && ClosedLoopActive(d, w)
    ensures Between(d, OnDrain(d, w, i, now, accepted), live, 0, 0)
  {
    hide ConnsOk, PostsOk, Books, Tallies, RateBooks, MeasurementShape;
    var c := w.conns[i];
    var owed := c.pendingClosedLoop;
    var c2 := c.(backpressured := false, pendingClosedLoop := 0);
    ReleasedOk(d, w.phase, live, c);
    SwapOk(d, w, live, i, 0, c2, owed);
    var w2 := w.(conns := w.conns[i := c2]);
    ReplenishOk(d, w.phase, live, c2, w.m, owed, now, accepted);
    var s := Replenish(d, true, c2, w.m, owed, now, accepted);
    UpdateOk(d, w2, live, i, owed, s);
    hide ConnOk;
    assert w2.conns[i := s.conn] == w.conns[i := s.conn];
  }

  lemma DrainOk(d: Options, w: Worker, live: bool, i: nat, now: real, accepted: bool)
    requires OptionsOk(d) && i < |w.conns| && Between(d, w, live, 0, 0)
    ensures Between(d, OnDrain(d, w, i, now, accepted), live, 0, 0)
  {
    var c := w.conns[i];
    assert ConnOk(d, w.phase, live, c, 0);
    OwedZero(d, w, live, 0, i);
    hide ConnsOk, PostsOk, Books, Tallies, RateBooks, MeasurementShape;
    if c.open && c.backpressured && c.pendingClosedLoop > 0 && ClosedLoopActive(d, w) {
      DrainResumes(d, w, live, i, now, accepted);
    } else {
      var c1 := if c.open then c.(backpressured := false) else c;
      assert ConnOk(d, w.phase, live, c1, 0);
      SwapOk(d, w, live, i, 0, c1, 0);
      OwedZero(d, w.(conns := w.conns[i := c1]), live, i, 0);
    }
  }

  lemma FlagsOk(d: Options, w: Worker, live: bool, i: nat)
    requires OptionsOk(d) && i < |w.conns| && Between(d, w, live, 0, 0)
    ensures Between(d, OnTimeout(w, i), live, 0, 0) && Between(d, OnError(w, i), live, 0, 0)
  {
    var c1 := w.conns[i].(timeoutFailure := true);
    assert ConnOk(d, w.phase, live, w.conns[i], 0);
    assert ConnOk(d, w.phase, live, c1, 0);
    OwedZero(d, w, live, 0, i);
    hide ConnOk, ConnsOk, PostsOk;
    var m := OnTimeout(w, i).m;
    ReplaceOk(d, w, live, i, 0, c1, 0, m, w.connected);
    OwedZero(d, OnTimeout(w, i), live, i, 0);
    ReplaceOk(d, w, live, i, 0, w.conns[i], 0, OnError(w, i).m, w.connected);
    assert w.conns[i := w.conns[i]] == w.conns;
    OwedZero(d, OnError(w, i), live, i, 0);
  }

  lemma ReconnectOk(d: Options, w: Worker, live: bool, i: nat)
    requires OptionsOk(d) && i < |w.conns| && Between(d, w, live, 0, 0)
    ensures Between(d, OnReconnect(w, i), live, 0, 0)
  {
    var c := w.conns[i].(reconnectScheduled := false);
    var c1 := if c.stopped || c.open then c else c.(open := true);
    assert ConnOk(d, w.phase, live, w.conns[i], 0);
    assert ConnOk(d, w.phase, live, c1, 0);
    OwedZero(d, w, live, 0, i);
    SwapOk(d, w, live, i, 0, c1, 0);
    OwedZero(d, w.(conns := w.conns[i := c1]), live, i, 0);
  }

  // ---------------------------------------------------------------- close

  function ClosedConn(c: Conn): Conn {
    c.(open := false, backpressured := false, connected := false, timestamps := [], rateBatch := [],
       pendingClosedLoop := 0, parser := Stream.INITIAL, protocolFailure := false, timeoutFailure := false,
       reconnectScheduled := true)
  }

  /** A close handler in one piece: everything about the connection at once, then the idle check. */
  function Closed(w: Worker, i: nat): Worker
    requires i < |w.conns|
  {
    var c := w.conns[i];
    w.(conns := w.conns[i := ClosedConn(c)],
       connected := if c.connected then (if w.connected > 0 then w.connected - 1 else 0) else w.connected,
       m := RecordAborted(w.m, w.running, |c.timestamps|))
  }

  /**
    * The two idle checks of a close handler, one with the queue still there, amount to one after it is cleared:
    * a warmup completes once, and only with an empty queue.
    */
  lemma CloseInOnePiece(w: Worker, i: nat)
    requires i < |w.conns| && w.conns[i].open && !w.conns[i].stopped && w.phase != Finished
    requires w.running ==> w.phase != WarmupDraining
    ensures OnClose(w, i) == MaybeCompleteWarmup(Closed(w, i))
  {
    var c := w.conns[i];
    var closed := Closed(w, i);
    InFlightUpdate(w.conns, i, ClosedConn(c));
    if w.phase == WarmupDraining && TotalInFlight(closed.conns) == 0 {
      CloseCompletes(w, i);
    } else {
      CloseWaits(w, i);
    }
  }

  lemma CloseCompletes(w: Worker, i: nat)
    requires i < |w.conns| && w.conns[i].open && !w.conns[i].stopped
    requires w.phase == WarmupDraining && !w.running && TotalInFlight(Closed(w, i).conns) == 0
    ensures OnClose(w, i) == MaybeCompleteWarmup(Closed(w, i))
  {
    hide TotalInFlight;
    var c := w.conns[i];
    InFlightUpdate(w.conns, i, ClosedConn(c));
    InFlightUpdate(w.conns, i, c.(open := false, backpressured := false, connected := false));
    var w2 := Disconnect(w, i);
    InFlightUpdate(w2.conns, i, w2.conns[i].(timestamps := []));
    assert OnClose(w, i).conns == ResetAll(Closed(w, i).conns);
  }

  lemma CloseWaits(w: Worker, i: nat)
    requires i < |w.conns| && w.conns[i].open && !w.conns[i].stopped && w.phase != Finished
    requires w.phase != WarmupDraining || TotalInFlight(Closed(w, i).conns) != 0
    ensures OnClose(w, i) == MaybeCompleteWarmup(Closed(w, i))
  {
    hide TotalInFlight;
    var c := w.conns[i];
    InFlightUpdate(w.conns, i, ClosedConn(c));
    InFlightUpdate(w.conns, i, c.(open := false, backpressured := false, connected := false));
    var w2 := Disconnect(w, i);
    InFlightUpdate(w2.conns, i, w2.conns[i].(timestamps := []));
    assert OnClose(w, i).conns == Closed(w, i).conns;
  }

  lemma ClosedOk(d: Options, w: Worker, live: bool, i: nat)
    requires OptionsOk(d) && i < |w.conns| && Between(d, w, live, 0, 0)
    requires w.conns[i].open
    ensures Between(d, Closed(w, i), live, 0, 0)
  {
    var c := w.conns[i];
    assert ConnOk(d, w.phase, live, c, 0);
    assert ConnOk(d, w.phase, live, ClosedConn(c), 0);
    hide ConnOk, ConnsOk, PostsOk;
    OwedZero(d, w, live, 0, i);
    ConnectedUpdate(w.conns, i, c);
    var closed := Closed(w, i);
    ReplaceOk(d, w, live, i, 0, ClosedConn(c), 0, closed.m, closed.connected);
    OwedZero(d, closed, live, i, 0);
  }

  lemma CloseOk(d: Options, w: Worker, live: bool, i: nat)
    requires OptionsOk(d) && i < |w.conns| && Between(d, w, live, 0, 0)
    ensures Between(d, OnClose(w, i), live, 0, 0)
  {
    hide MaybeCompleteWarmup, Closed, Disconnect, AbortInFlight;
    var c := w.conns[i];
    assert ConnOk(d, w.phase, live, c, 0);
    if c.open {
      CloseInOnePiece(w, i);
      ClosedOk(d, w, live, i);
      CompleteWarmupOk(d, Closed(w, i), live, 0, 0);
    }
  }
}
