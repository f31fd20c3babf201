/** Which arrivals a rate tick sends: what the queues of a worker's connections gain, time by time. */
module EngineArrivals {
  import opened Basics
  import opened Http1Engine
  import opened EngineInvariant
  import opened EngineScheduler
  import opened EngineRuns
  import EngineTheorems

  /** The scheduled times of `n` of this worker's arrivals in a row. */
  function Arrivals(d: Options, startedAt: real, first: nat, n: nat): (times: seq<real>)
    requires d.rate.Some? && d.rate.value > 0.0
    ensures |times| == n
  {
    seq(n, i requires 0 <= i < n =>
      startedAt + (d.offset + 1 + (first + i) * d.stride) as real * 1000.0 / d.rate.value)
  }

  /** What a connection holds: its queue, and its batch with the times that it will be sent with. */
  function Held(d: Options, c: Conn, now: real): multiset<real> {
    multiset(c.timestamps + Stamps(d, c.rateBatch, now))
  }

  function AllHeld(d: Options, conns: seq<Conn>, now: real): multiset<real> {
    if conns == [] then multiset{} else AllHeld(d, conns[..|conns| - 1], now) + Held(d, conns[|conns| - 1], now)
  }

  /** The send times in all queues. */
  function Queued(conns: seq<Conn>): multiset<real> {
    if conns == [] then multiset{} else Queued(conns[..|conns| - 1]) + multiset(conns[|conns| - 1].timestamps)
  }

  lemma AddToBoth(x: multiset<real>, a: multiset<real>, y: multiset<real>, b: multiset<real>, more: multiset<real>)
    requires x + a == y + b
    ensures x + more + a == y + more + b
  {
    assert x + more + a == (x + a) + more;
    assert y + more + b == (y + b) + more;
  }

  lemma TakeFromBoth(x: multiset<real>, y: multiset<real>, common: multiset<real>)
    requires x + common == y + common
    ensures x == y
  {
    forall t: real
      ensures x[t] == y[t]
    {
      assert (x + common)[t] == (y + common)[t];
    }
  }

  lemma {:induction false} HeldUpdate(d: Options, conns: seq<Conn>, i: nat, c: Conn, now: real)
    requires i < |conns|
    ensures AllHeld(d, conns[i := c], now) + Held(d, conns[i], now) == AllHeld(d, conns, now) + Held(d, c, now)
  {
    hide Held;
    var front := conns[..|conns| - 1];
    if i == |conns| - 1 {
      assert conns[i := c][..|conns| - 1] == front;
    } else {
      assert conns[i := c][..|conns| - 1] == front[i := c];
      HeldUpdate(d, front, i, c, now);
      AddToBoth(AllHeld(d, front[i := c], now), Held(d, conns[i], now), AllHeld(d, front, now), Held(d, c, now),
                Held(d, conns[|conns| - 1], now));
    }
  }

  lemma {:induction false} HeldWithoutBatches(d: Options, conns: seq<Conn>, now: real)
    requires forall j :: 0 <= j < |conns| ==> conns[j].rateBatch == []
    ensures AllHeld(d, conns, now) == Queued(conns)
  {
    if conns != [] {
      var c := conns[|conns| - 1];
      HeldWithoutBatches(d, conns[..|conns| - 1], now);
      assert c.timestamps + Stamps(d, c.rateBatch, now) == c.timestamps;
    }
  }

  lemma ScheduleHolds(d: Options, conns: seq<Conn>, i: nat, at: real, now: real)
    requires i < |conns|
    ensures AllHeld(d, Schedule(conns, i, at), now) == AllHeld(d, conns, now) + multiset(Stamps(d, [at], now))
    ensures forall j :: 0 <= j < |conns| ==> Schedule(conns, i, at)[j].timestamps == conns[j].timestamps
  {
    hide AllHeld;
    var c := conns[i].(rateBatch := conns[i].rateBatch + [at]);
    BatchHolds(d, conns[i], at, now);
    HeldUpdate(d, conns, i, c, now);
    hide Held, Stamps;
    var one := multiset(Stamps(d, [at], now));
    assert AllHeld(d, conns, now) + (Held(d, conns[i], now) + one)
        == AllHeld(d, conns, now) + one + Held(d, conns[i], now);
    TakeFromBoth(AllHeld(d, conns[i := c], now), AllHeld(d, conns, now) + one, Held(d, conns[i], now));
  }

  lemma BatchHolds(d: Options, c: Conn, at: real, now: real)
    ensures Held(d, c.(rateBatch := c.rateBatch + [at]), now) == Held(d, c, now) + multiset(Stamps(d, [at], now))
  {
    var batch := c.rateBatch;
    assert Stamps(d, batch + [at], now) == Stamps(d, batch, now) + Stamps(d, [at], now);
    assert c.timestamps + Stamps(d, batch + [at], now) == c.timestamps + Stamps(d, batch, now) + Stamps(d, [at], now);
  }

  lemma FirstArrival(d: Options, startedAt: real, first: nat, n: nat)
    requires d.rate.Some? && d.rate.value > 0.0
    ensures Arrivals(d, startedAt, first, n + 1)
         == [ScheduledAt(d, startedAt, d.rate.value, first)] + Arrivals(d, startedAt, first + 1, n)
  {
    var all, more := Arrivals(d, startedAt, first, n + 1), Arrivals(d, startedAt, first + 1, n);
    forall i | 0 <= i < n
      ensures all[i + 1] == more[i]
    {
      assert first + (i + 1) == first + 1 + i;
    }
    assert (first + 0) * d.stride == first * d.stride;
  }

  lemma ArrivalsStep(d: Options, startedAt: real, first: nat, n: nat, now: real)
    requires d.rate.Some? && d.rate.value > 0.0
    ensures var at := ScheduledAt(d, startedAt, d.rate.value, first);
            (multiset(Stamps(d, [at], now)) + multiset(Stamps(d, Arrivals(d, startedAt, first + 1, n), now))
             == multiset(Stamps(d, Arrivals(d, startedAt, first, n + 1), now)))
  {
    var at := ScheduledAt(d, startedAt, d.rate.value, first);
    var more := Arrivals(d, startedAt, first + 1, n);
    FirstArrival(d, startedAt, first, n);
    hide ScheduledAt, Arrivals;
    assert Stamps(d, [at] + more, now) == Stamps(d, [at], now) + Stamps(d, more, now);
  }

  /** What a tick hands over are the next arrivals of the worker, without a gap. */
  lemma {:induction false} DispatchHolds(
    d: Options, w: Worker, conns: seq<Conn>, cursor: nat, scheduled: nat, due: nat, now: real)
    requires d.rate.Some? && d.rate.value > 0.0 && cursor < |conns|
    ensures var r := Dispatch(d, w, conns, cursor, scheduled, due);
            && AllHeld(d, r.conns, now)
            == AllHeld(d, conns, now) + multiset(Stamps(d, Arrivals(d, w.startedAt, scheduled, r.handed), now))
            && forall j :: 0 <= j < |conns| ==> r.conns[j].timestamps == conns[j].timestamps
    decreases due
  {
    hide NextAvailable, ScheduledAt, AllHeld, Schedule, CanSchedule, Arrivals, Stamps;
    var r := NextAvailable(d, w.running, conns, cursor, |conns|);
    if due == 0 || r.0 == None {
      NoArrivals(d, w.startedAt, scheduled, now);
    } else {
      var at := ScheduledAt(d, w.startedAt, d.rate.value, scheduled);
      ScheduleTakesSlot(d, w.running, conns, r.0.value, at);
      ScheduleHolds(d, conns, r.0.value, at, now);
      DispatchHolds(d, w, Schedule(conns, r.0.value, at), r.1, scheduled + 1, due - 1, now);
      var more := Dispatch(d, w, Schedule(conns, r.0.value, at), r.1, scheduled + 1, due - 1);
      ArrivalsStep(d, w.startedAt, scheduled, more.handed, now);
    }
  }

  lemma NoArrivals(d: Options, startedAt: real, first: nat, now: real)
    requires d.rate.Some? && d.rate.value > 0.0
    ensures multiset(Stamps(d, Arrivals(d, startedAt, first, 0), now)) == multiset{}
  {
    assert Stamps(d, Arrivals(d, startedAt, first, 0), now) == [];
  }

  /** A flush moves the batch into the queue, behind what is there. */
  lemma FlushOneHolds(d: Options, phase: Phase, live: bool, c: Conn, m: Measurement, now: real, accepted: bool)
    requires BatchOk(d, phase, live, c) && Running(phase) && d.rate.Some?
    ensures var s := FlushOne(d, true, c, m, now, accepted);
            Held(d, s.conn, now) == Held(d, c, now) && c.timestamps <= s.conn.timestamps
  {
    var s := FlushOne(d, true, c, m, now, accepted);
    assert ConnOk(d, phase, live, c.(rateBatch := []), 0);
    if c.rateBatch != [] {
      assert s.conn.timestamps + Stamps(d, s.conn.rateBatch, now) == c.timestamps + Stamps(d, c.rateBatch, now);
    }
  }

  lemma {:induction false} FlushHolds(d: Options, w: Worker, live: bool, n: nat, now: real, accepted: seq<bool>)
    requires OptionsOk(d) && n <= |w.conns| <= |accepted| && Flushing(d, w, live, 0)
    ensures var r := Flush(d, w, n, now, accepted);
            && AllHeld(d, r.conns, now) == AllHeld(d, w.conns, now)
            && forall j :: 0 <= j < |w.conns| ==> w.conns[j].timestamps <= r.conns[j].timestamps
    decreases n
  {
    hide FlushOne, Held, AllHeld, BatchOk, ConnOk, Books, Tallies, PostsOk;
    if n > 0 {
      FlushHolds(d, w, live, n - 1, now, accepted);
      FlushOk(d, w, live, n - 1, now, accepted);
      var before := Flush(d, w, n - 1, now, accepted);
      var c := before.conns[n - 1];
      assert BatchOk(d, before.phase, live, c);
      FlushOneHolds(d, before.phase, live, c, before.m, now, accepted[n - 1]);
      var sent := FlushOne(d, true, c, before.m, now, accepted[n - 1]).conn;
      HeldUpdate(d, before.conns, n - 1, sent, now);
      TakeFromBoth(AllHeld(d, before.conns[n - 1 := sent], now), AllHeld(d, before.conns, now), Held(d, c, now));
    }
  }

  lemma NoBatch(d: Options, w: Worker, live: bool)
    requires OptionsOk(d) && Between(d, w, live, 0, 0)
    ensures forall j :: 0 <= j < |w.conns| ==> w.conns[j].rateBatch == []
  {
    hide Books, Tallies, PostsOk;
    forall j | 0 <= j < |w.conns|
      ensures w.conns[j].rateBatch == []
    {
      assert ConnOk(d, w.phase, live, w.conns[j], 0);
    }
  }

  /** One tick on any state that satisfies the invariant. */
  lemma TickArrivals(d: Options, w: Worker, now: real, accepted: seq<bool>)
    requires OptionsOk(d) && Inv(d, w) && w.running && d.rate.Some? && |accepted| == |w.conns|
    ensures var r := OnRateTick(d, w, now, accepted);
            var sent := r.m.sent - w.m.sent;
            && sent >= 0 && |r.conns| == |w.conns|
            && Queued(r.conns)
            == Queued(w.conns) + multiset(Stamps(d, Arrivals(d, w.startedAt, w.phaseScheduled, sent), now))
            && forall j :: 0 <= j < |w.conns| ==> w.conns[j].timestamps <= r.conns[j].timestamps
  {
    hide Dispatch, Flushing, GlobalExpected, Expected, Flush, ConnsOk, Tallies, MeasurementShape, PostsOk, Books, Free,
      Arrivals, Stamps, Queued, AllHeld;
    var s := Scheduled(d, w, now);
    var r := Flush(d, s.0, |s.0.conns|, now, accepted);
    RateTickExact(d, w, now, accepted);
    DispatchExact(d, w, w.conns, w.nextRateConnection, w.phaseScheduled, s.2);
    DispatchHolds(d, w, w.conns, w.nextRateConnection, w.phaseScheduled, s.2, now);
    ScheduledOk(d, w, Live(w), now);
    FlushHolds(d, s.0, Live(w), |s.0.conns|, now, accepted);
    assert OnRateTick(d, w, now, accepted) == r;
    NoBatch(d, w, Live(w));
    HeldWithoutBatches(d, w.conns, now);
    RateTickOk(d, w, Live(w), now, accepted);
    NoBatch(d, r, Live(w));
    HeldWithoutBatches(d, r.conns, now);
  }

  // ---------------------------------------------------------------- over runs

  /**
    * In every run, after a tick of a running phase the worker has taken exactly the arrivals that were taken before or
    * are due by the tick and by the end of the phase: none is left behind, and none is taken early.
    */
  lemma DueInRun(d: Options, t: Trace, i: nat, k: nat)
    requires OptionsOk(d) && IsRun(d, t) && 0 < i < |t.states|
    requires t.events[i - 1].event.RateTick? && FixedRateActive(d, t.states[i - 1])
    ensures var (w, r, now) := (t.states[i - 1], t.states[i], t.events[i - 1].at);
            k < r.phaseScheduled <==>
              k < w.phaseScheduled || Due(d, w.startedAt, k, if now < w.stopAt then now else w.stopAt)
  {
    hide Inv, MeasurementShape, OnRateTick, Expected, GlobalExpected, Free, Due;
    var w, r, now := t.states[i - 1], t.states[i], t.events[i - 1].at;
    EngineTheorems.TickInRun(d, t, i);
    assert k < r.phaseScheduled <==> k < w.phaseScheduled || Due(d, w.startedAt, k, Earlier(now, w.stopAt));
  }

  /**
    * In every run, a tick appends to the queues exactly the worker's next arrivals, as many as it sends and without a
    * gap: with their scheduled times, or all with the time of the tick when latency is measured from the write.
    */
  lemma ArrivalsInRun(d: Options, t: Trace, i: nat)
    requires OptionsOk(d) && IsRun(d, t) && 0 < i < |t.states|
    requires t.events[i - 1].event.RateTick? && FixedRateActive(d, t.states[i - 1])
    ensures var (w, r) := (t.states[i - 1], t.states[i]);
            var sent := r.m.sent - w.m.sent;
            && sent >= 0 && |r.conns| == |w.conns|
            && Queued(r.conns)
            == (Queued(w.conns)
                + multiset(Stamps(d, Arrivals(d, w.startedAt, w.phaseScheduled, sent), t.events[i - 1].at)))
            && forall j :: 0 <= j < |w.conns| ==> w.conns[j].timestamps <= r.conns[j].timestamps
  {
    hide Inv, MeasurementShape, OnRateTick, Queued, Stamps, Arrivals;
    EngineTheorems.StepInRun(d, t, i);
    TickArrivals(d, t.states[i - 1], t.events[i - 1].at, t.events[i - 1].event.accepts);
  }
}
