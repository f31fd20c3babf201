/** The fixed-rate scheduler: what one tick hands over, and which arrivals each worker takes. */
module EngineScheduler {
  import opened Basics
  import opened Http1Engine

  // ---------------------------------------------------------------- room

  /** The requests a connection can still take in this tick. */
  function Slots(d: Options, running: bool, c: Conn): nat {
    var held := |c.timestamps| + |c.rateBatch|;
    if running && d.rate.Some? && c.connected && !c.stopped && !c.backpressured && held < d.pipelining
    then d.pipelining - held else 0
  }

  function Free(d: Options, running: bool, conns: seq<Conn>): nat {
    if conns == [] then 0 else Free(d, running, conns[..|conns| - 1]) + Slots(d, running, conns[|conns| - 1])
  }

  lemma {:induction false} FreeUpdate(d: Options, running: bool, conns: seq<Conn>, i: nat, c: Conn)
    requires i < |conns|
    ensures Free(d, running, conns[i := c])
         == Free(d, running, conns) - Slots(d, running, conns[i]) + Slots(d, running, c)
    ensures Slots(d, running, conns[i]) <= Free(d, running, conns)
  {
    var front := conns[..|conns| - 1];
    if i == |conns| - 1 {
      assert conns[i := c][..|conns| - 1] == front;
    } else {
      assert conns[i := c][..|conns| - 1] == front[i := c];
      FreeUpdate(d, running, front, i, c);
    }
  }

  lemma {:induction false} NoneFree(d: Options, running: bool, conns: seq<Conn>)
    requires forall j :: 0 <= j < |conns| ==> !CanSchedule(d, running, conns[j])
    ensures Free(d, running, conns) == 0
  {
    if conns != [] {
      NoneFree(d, running, conns[..|conns| - 1]);
    }
  }

  // ---------------------------------------------------------------- the round-robin search

  /** The cursor after at most one round of steps. */
  function After(cursor: nat, k: nat, n: nat): (r: nat)
    requires cursor < n && k <= n
    ensures r < n
  {
    if cursor + k < n then cursor + k else cursor + k - n
  }

  lemma NextIs(cursor: nat, n: nat)
    requires cursor < n
    ensures (cursor + 1) % n == if cursor + 1 == n then 0 else cursor + 1
  {
  }

  /** A search that fails has tried that many connections in turn and stands that many further. */
  lemma {:induction false} SearchFails(d: Options, running: bool, conns: seq<Conn>, cursor: nat, attempts: nat)
    requires cursor < |conns| && attempts <= |conns|
    requires NextAvailable(d, running, conns, cursor, attempts).0 == None
    ensures NextAvailable(d, running, conns, cursor, attempts).1 == After(cursor, attempts, |conns|)
    ensures forall k :: 0 <= k < attempts ==> !CanSchedule(d, running, conns[After(cursor, k, |conns|)])
    decreases attempts
  {
    hide CanSchedule;
    if attempts > 0 {
      NextIs(cursor, |conns|);
      var next := (cursor + 1) % |conns|;
      SearchFails(d, running, conns, next, attempts - 1);
      forall k | 0 <= k < attempts
        ensures !CanSchedule(d, running, conns[After(cursor, k, |conns|)])
      {
        if k > 0 {
          assert After(cursor, k, |conns|) == After(next, k - 1, |conns|);
        }
      }
    }
  }

  /** One full round finds a connection exactly when some connection has room; a failed one leaves the cursor. */
  lemma FullRound(d: Options, running: bool, conns: seq<Conn>, cursor: nat)
    requires cursor < |conns|
    ensures var r := NextAvailable(d, running, conns, cursor, |conns|);
            && (r.0 == None <==> forall j :: 0 <= j < |conns| ==> !CanSchedule(d, running, conns[j]))
            && (r.0 == None ==> r.1 == cursor)
  {
    hide CanSchedule;
    var n := |conns|;
    if NextAvailable(d, running, conns, cursor, n).0 == None {
      SearchFails(d, running, conns, cursor, n);
      forall j | 0 <= j < n
        ensures !CanSchedule(d, running, conns[j])
      {
        var k := if j >= cursor then j - cursor else j + n - cursor;
        assert After(cursor, k, n) == j;
      }
    }
  }

  /**
    * The search takes the first connection with room, in turn from the cursor, and moves the cursor just behind it:
    * the connections share the arrivals round robin.
    */
  lemma {:induction false} SearchFinds(d: Options, running: bool, conns: seq<Conn>, cursor: nat, attempts: nat)
    returns (k: nat)
    requires cursor < |conns| && attempts <= |conns|
    requires NextAvailable(d, running, conns, cursor, attempts).0.Some?
    ensures k < attempts
    ensures NextAvailable(d, running, conns, cursor, attempts)
         == (Some(After(cursor, k, |conns|)), After(cursor, k + 1, |conns|))
    ensures Slots(d, running, conns[After(cursor, k, |conns|)]) > 0
    ensures forall l :: 0 <= l < k ==> Slots(d, running, conns[After(cursor, l, |conns|)]) == 0
    decreases attempts
  {
    NextIs(cursor, |conns|);
    if CanSchedule(d, running, conns[cursor]) {
      k := 0;
    } else {
      var next := (cursor + 1) % |conns|;
      k := SearchFinds(d, running, conns, next, attempts - 1);
      forall l | 0 <= l <= k
        ensures Slots(d, running, conns[After(cursor, l, |conns|)]) == 0
      {
        if l > 0 {
          assert After(cursor, l, |conns|) == After(next, l - 1, |conns|);
        }
      }
      k := k + 1;
    }
  }

  // ---------------------------------------------------------------- the tick

  /** The same tick with every arrival tried separately. */
  function DispatchEach(d: Options, w: Worker, conns: seq<Conn>, cursor: nat, scheduled: nat, due: nat): (r: Dispatched)
    requires d.rate.Some? && d.rate.value > 0.0 && cursor < |conns|
    decreases due
  {
    if due == 0 then Dispatched(conns, cursor, 0, 0, false)
    else
      var (found, next) := NextAvailable(d, w.running, conns, cursor, |conns|);
      match found
      case None =>
        var r := DispatchEach(d, w, conns, next, scheduled + 1, due - 1);
        r.(dropped := r.dropped + 1)
      case Some(i) =>
        var at := ScheduledAt(d, w.startedAt, d.rate.value, scheduled);
        var r := DispatchEach(d, w, Schedule(conns, i, at), next, scheduled + 1, due - 1);
        r.(handed := r.handed + 1)
  }

  lemma {:induction false} NoRoomDropsAll(
    d: Options, w: Worker, conns: seq<Conn>, cursor: nat, scheduled: nat, due: nat)
    requires d.rate.Some? && d.rate.value > 0.0 && cursor < |conns|
    requires NextAvailable(d, w.running, conns, cursor, |conns|).0 == None
    ensures DispatchEach(d, w, conns, cursor, scheduled, due) == Dispatched(conns, cursor, 0, due, false)
    decreases due
  {
    hide NextAvailable;
    if due > 0 {
      FullRound(d, w.running, conns, cursor);
      NoRoomDropsAll(d, w, conns, cursor, scheduled + 1, due - 1);
    }
  }

  /** Stopping at the first arrival that finds no room changes nothing: schedule, drops and cursor are the same. */
  lemma {:induction false} EarlyExitSame(d: Options, w: Worker, conns: seq<Conn>, cursor: nat, scheduled: nat, due: nat)
    requires d.rate.Some? && d.rate.value > 0.0 && cursor < |conns|
    ensures Dispatch(d, w, conns, cursor, scheduled, due) == DispatchEach(d, w, conns, cursor, scheduled, due)
    decreases due
  {
    hide NextAvailable;
    if due > 0 {
      var r := NextAvailable(d, w.running, conns, cursor, |conns|);
      if r.0 == None {
        FullRound(d, w.running, conns, cursor);
        NoRoomDropsAll(d, w, conns, cursor, scheduled, due);
        NoRoomDropsAll(d, w, conns, cursor, scheduled + 1, due - 1);
      } else {
        var at := ScheduledAt(d, w.startedAt, d.rate.value, scheduled);
        EarlyExitSame(d, w, Schedule(conns, r.0.value, at), r.1, scheduled + 1, due - 1);
      }
    }
  }

  function Least(a: nat, b: nat): nat {
    if a < b then a else b
  }

  /** A tick hands over exactly what fits: as many arrivals as are due or as there is room for. */
  lemma {:induction false} DispatchExact(d: Options, w: Worker, conns: seq<Conn>, cursor: nat, scheduled: nat, due: nat)
    requires d.rate.Some? && d.rate.value > 0.0 && cursor < |conns|
    ensures var r := Dispatch(d, w, conns, cursor, scheduled, due);
            && r.handed == Least(due, Free(d, w.running, conns))
            && Free(d, w.running, r.conns) == Free(d, w.running, conns) - r.handed
    decreases due
  {
    hide NextAvailable, ScheduledAt, Free, CanSchedule, Schedule;
    if due > 0 {
      FullRound(d, w.running, conns, cursor);
      var r := NextAvailable(d, w.running, conns, cursor, |conns|);
      if r.0 == None {
        NoneFree(d, w.running, conns);
      } else {
        var at := ScheduledAt(d, w.startedAt, d.rate.value, scheduled);
        ScheduleTakesSlot(d, w.running, conns, r.0.value, at);
        DispatchExact(d, w, Schedule(conns, r.0.value, at), r.1, scheduled + 1, due - 1);
      }
    }
  }

  lemma ScheduleTakesSlot(d: Options, running: bool, conns: seq<Conn>, i: nat, at: real)
    requires i < |conns| && CanSchedule(d, running, conns[i])
    ensures |Schedule(conns, i, at)| == |conns|
    ensures Free(d, running, Schedule(conns, i, at)) == Free(d, running, conns) - 1
  {
    FreeUpdate(d, running, conns, i, conns[i].(rateBatch := conns[i].rateBatch + [at]));
    hide Free;
  }

  // ---------------------------------------------------------------- arrivals

  /** The worker that takes a global arrival, numbered from one. */
  ghost predicate Takes(d: Options, number: nat) {
    exists k: nat :: number == Sequence(d, k)
  }

  lemma Gap(n: nat, a: int, b: int)
    requires a < b
    ensures a * n + n <= b * n
  {
    assert (b - a - 1) * n >= 0;
  }

  lemma StrideSteps(d: Options, a: nat, b: nat)
    requires OptionsOk(d) && a < b
    ensures Sequence(d, a) + d.stride <= Sequence(d, b)
  {
    Gap(d.stride, a, b);
  }

  /** This worker's arrivals among the first `global` are exactly its first `Expected` ones. */
  lemma ExpectedExact(d: Options, global: int, k: nat)
    requires OptionsOk(d)
    ensures k < Expected(d, global) <==> Sequence(d, k) <= global
  {
    if global > d.offset {
      var m, n := global - 1 - d.offset, d.stride;
      var q := m / n;
      assert m == n * q + m % n;
      if k < q {
        Gap(n, k, q);
      } else if k > q {
        Gap(n, q, k);
      }
    }
  }

  /** Arrival `k` of this worker is due by a time. */
  predicate Due(d: Options, startedAt: real, k: nat, until: real)
    requires d.rate.Some? && d.rate.value > 0.0
  {
    startedAt + (d.offset + 1 + k * d.stride) as real * 1000.0 / d.rate.value <= until
  }

  lemma WholeNumber(n: nat, x: real)
    ensures n <= x.Floor <==> n as real <= x
  {
  }

  lemma TimeOfNumber(number: real, elapsed: real, rate: real)
    requires rate > 0.0
    ensures number <= elapsed * rate / 1000.0 <==> number * 1000.0 / rate <= elapsed
  {
    var x := number * 1000.0 / rate;
    assert x * rate == number * 1000.0;
    if x <= elapsed {
      assert x * rate <= elapsed * rate;
    } else {
      assert x * rate > elapsed * rate;
    }
  }

  /** The arrivals expected by a tick are exactly those that are due by it and by the end of the phase. */
  lemma ExpectedIsDue(d: Options, w: Worker, now: real, k: nat)
    requires OptionsOk(d) && d.rate.Some?
    ensures k < Expected(d, GlobalExpected(w, d.rate.value, now))
       <==> Due(d, w.startedAt, k, if now < w.stopAt then now else w.stopAt)
  {
    var until := if now < w.stopAt then now else w.stopAt;
    var global := GlobalExpected(w, d.rate.value, now);
    var number := d.offset + 1 + k * d.stride;
    ExpectedExact(d, global, k);
    assert Sequence(d, k) == number;
    WholeNumber(number, (until - w.startedAt) * d.rate.value / 1000.0);
    TimeOfNumber(number as real, until - w.startedAt, d.rate.value);
  }

  /** All workers of one load have the same options but for their offset. */
  predicate OneLoad(workers: seq<Options>) {
    && (forall i :: 0 <= i < |workers| ==> OptionsOk(workers[i]))
    && (forall i :: 0 <= i < |workers| ==> workers[i].offset == i && workers[i].stride == |workers|)
  }

  /** The owner of an arrival and its place in the owner's order. */
  lemma OwnerOf(workers: seq<Options>, number: nat) returns (i: nat, k: nat)
    requires OneLoad(workers) && workers != [] && number >= 1
    ensures i < |workers| && number == Sequence(workers[i], k)
  {
    var n := |workers|;
    i, k := (number - 1) % n, (number - 1) / n;
    assert number - 1 == n * k + i;
    assert k * n == n * k;
  }

  /** No arrival has two owners. */
  lemma OneOwner(workers: seq<Options>, i: nat, j: nat, k: nat, l: nat)
    requires OneLoad(workers) && i < |workers| && j < |workers|
    requires Sequence(workers[i], k) == Sequence(workers[j], l)
    ensures i == j && k == l
  {
    var n := |workers|;
    if k < l {
      Gap(n, k, l);
    } else if l < k {
      Gap(n, l, k);
    }
  }

  function TotalExpected(workers: seq<Options>, n: nat, global: nat): nat
    requires n <= |workers| && forall i :: 0 <= i < |workers| ==> OptionsOk(workers[i])
  {
    if n == 0 then 0 else TotalExpected(workers, n - 1, global) + Expected(workers[n - 1], global)
  }

  /** One more arrival is one more for its owner and for nobody else. */
  lemma ExpectedStep(d: Options, global: nat)
    requires OptionsOk(d)
    ensures Expected(d, global + 1) == Expected(d, global) + if Takes(d, global + 1) then 1 else 0
  {
    var e := Expected(d, global);
    ExpectedExact(d, global, e);
    ExpectedExact(d, global + 1, e);
    ExpectedExact(d, global + 1, e + 1);
    if e > 0 {
      ExpectedExact(d, global, e - 1);
      ExpectedExact(d, global + 1, e - 1);
    }
    StrideSteps(d, e, e + 1);
    if Takes(d, global + 1) {
      var k: nat :| global + 1 == Sequence(d, k);
      if k < e {
        ExpectedExact(d, global, k);
      } else if k > e {
        StrideSteps(d, e, k);
      }
    } else {
      assert Sequence(d, e) != global + 1;
    }
  }

  lemma {:induction false} TotalStep(workers: seq<Options>, n: nat, global: nat, owner: nat)
    requires OneLoad(workers) && n <= |workers| && owner < |workers|
    requires Takes(workers[owner], global + 1)
    ensures TotalExpected(workers, n, global + 1) == TotalExpected(workers, n, global) + if owner < n then 1 else 0
    decreases n
  {
    if n > 0 {
      TotalStep(workers, n - 1, global, owner);
      ExpectedStep(workers[n - 1], global);
      if Takes(workers[n - 1], global + 1) {
        var k: nat :| global + 1 == Sequence(workers[n - 1], k);
        var l: nat :| global + 1 == Sequence(workers[owner], l);
        OneOwner(workers, n - 1, owner, k, l);
      }
    }
  }

  lemma {:induction false} TotalNone(workers: seq<Options>, n: nat)
    requires OneLoad(workers) && n <= |workers|
    ensures TotalExpected(workers, n, 0) == 0
  {
    if n > 0 {
      TotalNone(workers, n - 1);
    }
  }

  /** The workers' shares of the first `global` arrivals add up to all of them. */
  lemma {:induction false} SharesCover(workers: seq<Options>, global: nat)
    requires OneLoad(workers) && workers != []
    ensures TotalExpected(workers, |workers|, global) == global
    decreases global
  {
    if global == 0 {
      TotalNone(workers, |workers|);
    } else {
      SharesCover(workers, global - 1);
      var owner, k := OwnerOf(workers, global);
      assert Takes(workers[owner], global);
      TotalStep(workers, |workers|, global - 1, owner);
    }
  }

  /**
    * The workers partition the arrivals: each of the first `global` is among the expected ones of exactly one
    * worker, at exactly one place, and the counts add up.
    */
  lemma ArrivalsPartition(workers: seq<Options>, global: nat, number: nat)
    requires OneLoad(workers) && workers != [] && 1 <= number <= global
    ensures exists i, k :: Assigned(workers, global, number, i, k)
    ensures forall i, j, k, l :: Assigned(workers, global, number, i, k) && Assigned(workers, global, number, j, l) ==>
              i == j && k == l
    ensures TotalExpected(workers, |workers|, global) == global
  {
    var i, k := OwnerOf(workers, number);
    ExpectedExact(workers[i], global, k);
    assert Assigned(workers, global, number, i, k);
    forall i, j, k, l | Assigned(workers, global, number, i, k) && Assigned(workers, global, number, j, l)
      ensures i == j && k == l
    {
      OneOwner(workers, i, j, k, l);
    }
    SharesCover(workers, global);
  }

  predicate Assigned(workers: seq<Options>, global: nat, number: nat, i: nat, k: nat)
    requires OneLoad(workers)
  {
    i < |workers| && k < Expected(workers[i], global) && number == Sequence(workers[i], k)
  }

  // ---------------------------------------------------------------- times

  /** Due arrivals were scheduled after the start, not after the tick or the phase's end, and in strict order. */
  lemma ScheduledTimes(d: Options, w: Worker, now: real, k: nat, l: nat)
    requires OptionsOk(d) && d.rate.Some? && k <= l
    requires l < Expected(d, GlobalExpected(w, d.rate.value, now))
    ensures var at, later := ScheduledAt(d, w.startedAt, d.rate.value, k), ScheduledAt(d, w.startedAt, d.rate.value, l);
            w.startedAt < at && later <= Earlier(now, w.stopAt) && (k < l ==> at < later)
  {
    var rate := d.rate.value;
    ExpectedExact(d, GlobalExpected(w, rate, now), l);
    TimeOrder(Sequence(d, k) as real, Sequence(d, k) as real + 1.0, rate);
    if k < l {
      StrideSteps(d, k, l);
      TimeOrder(Sequence(d, k) as real, Sequence(d, l) as real, rate);
    }
    TimeBound(Sequence(d, l) as real, Earlier(now, w.stopAt) - w.startedAt, rate);
  }

  lemma TimeOrder(a: real, b: real, rate: real)
    requires rate > 0.0 && 0.0 < a < b
    ensures 0.0 < a * 1000.0 / rate < b * 1000.0 / rate
  {
    var x, y := a * 1000.0 / rate, b * 1000.0 / rate;
    assert x * rate == a * 1000.0 && y * rate == b * 1000.0;
  }

  lemma TimeBound(number: real, elapsed: real, rate: real)
    requires rate > 0.0 && number <= elapsed * rate / 1000.0
    ensures number * 1000.0 / rate <= elapsed
  {
    var x := number * 1000.0 / rate;
    assert x * rate == number * 1000.0;
    assert number * 1000.0 <= elapsed * rate;
  }
}
