/** What each event of a WebSocket connection sends, answers, aborts and counts, in every run. */
module WebSocketMoves {
  import opened Basics
  import opened WebSocketConnection

  function Nows(attempts: seq<Attempt>): (s: seq<real>)
    ensures |s| == |attempts| && forall i :: 0 <= i < |s| ==> s[i] == attempts[i].now
  {
    seq(|attempts|, i requires 0 <= i < |attempts| => attempts[i].now)
  }

  /** A message of a supported kind for which a request is in flight. */
  predicate Answers(s: State, e: Event) {
    e.Message? && e.supported && s.c.attached && !s.c.stopped && s.c.latencyStarts != []
  }

  /** A message that answers nothing. */
  predicate Wrong(s: State, e: Event) {
    e.Message? && s.c.attached && !s.c.stopped && (!e.supported || s.c.latencyStarts == [])
  }

  /** The timeout of a request that is in flight. */
  predicate TimesOut(s: State, e: Event) {
    e.TimerFires? && s.c.attached && s.c.latencyStarts != []
  }

  /** The first error of a socket, or its close without one, while the connection is in use. */
  predicate Breaks(s: State, e: Event) {
    (e.Failed? || e.Closed?) && s.c.attached && !s.c.stopped && !s.c.errorObserved
  }

  /** What is left in a queue once the message has taken its entry. */
  function Left(s: State, e: Event, queue: seq<real>): seq<real> {
    if (Answers(s, e) || Wrong(s, e)) && queue != [] then queue[1..] else queue
  }

  /** The latency starts of the messages sent: their send times, unless the schedule counts. */
  function Starts(d: Setup, e: Event, n: nat): seq<real>
    requires n <= |Attempts(e)|
  {
    if e.Scheduled? && d.correctOmission then seq(n, _ => e.at) else Nows(Attempts(e)[..n])
  }

  function One(b: bool): nat {
    if b then 1 else 0
  }

  /**
    * The event sends its first `n` attempts, none of which throws. `gone` says that it lets go of the socket: because
    * of a message that answers nothing, a timeout, a close, or the next attempt, which throws. Then everything in
    * flight is aborted; otherwise it stays in order behind what a message has taken.
    */
  predicate Moves(d: Setup, s: State, e: Event, t: State, n: nat, gone: bool) {
    && n <= |Attempts(e)| && (forall k :: 0 <= k < n ==> !Attempts(e)[k].throws)
    && var (times, starts) := (Left(s, e, s.c.timeoutStarts), Left(s, e, s.c.latencyStarts));
       var forced := Wrong(s, e) || TimesOut(s, e) || (e.Closed? && s.c.attached);
       var threw := gone && !forced;
       && (forced ==> gone && n == 0)
       && (threw ==> n < |Attempts(e)| && Attempts(e)[n].throws)
       && (gone ==> !t.c.attached && t.c.latencyStarts == t.c.timeoutStarts == [])
       && (!gone && !e.Stopped? ==> t.c.timeoutStarts == times + Nows(Attempts(e)[..n])
                                    && t.c.latencyStarts == starts + Starts(d, e, n))
       && t.n.answered == s.n.answered + (if Answers(s, e) then [s.c.latencyStarts[0]] else [])
       && t.n.completed == s.n.completed + One(Answers(s, e))
       && t.n.sent == s.n.sent + n && t.n.scheduled == s.n.scheduled + (if e.Scheduled? then n else 0)
       && t.n.aborted == s.n.aborted + (if gone then |starts| + n else 0)
       && t.n.protocolErrors == s.n.protocolErrors + One(Wrong(s, e))
       && t.n.timeouts == s.n.timeouts + One(TimesOut(s, e))
       && t.n.connectionErrors == s.n.connectionErrors + One(Breaks(s, e)) + One(threw)
  }

  /** Filling: what its attempts sent, and whether the last one threw. */
  predicate Filled(s: State, t: State, attempts: seq<Attempt>, n: nat, gone: bool) {
    && n <= |attempts| && (forall k :: 0 <= k < n ==> !attempts[k].throws)
    && (gone ==> n < |attempts| && attempts[n].throws)
    && (if gone then
          && !t.c.attached && t.c.latencyStarts == t.c.timeoutStarts == []
          && t.n == s.n.(sent := s.n.sent + n, connectionErrors := s.n.connectionErrors + 1,
                         aborted := s.n.aborted + |s.c.latencyStarts| + n)
        else
          && t.c.timeoutStarts == s.c.timeoutStarts + Nows(attempts[..n])
          && t.c.latencyStarts == s.c.latencyStarts + Nows(attempts[..n])
          && t.n == s.n.(sent := s.n.sent + n))
  }

  /** One more attempt sent in front. */
  lemma FilledMore(s: State, m: State, t: State, attempts: seq<Attempt>, n: nat, gone: bool)
    requires attempts != [] && !attempts[0].throws && Filled(m, t, attempts[1..], n, gone)
    requires m.c.timeoutStarts == s.c.timeoutStarts + [attempts[0].now]
    requires m.c.latencyStarts == s.c.latencyStarts + [attempts[0].now]
    requires m.n == s.n.(sent := s.n.sent + 1)
    ensures Filled(s, t, attempts, n + 1, gone)
  {
    forall k | 0 <= k < n + 1
      ensures !attempts[k].throws
    {
      assert k > 0 ==> attempts[1..][k - 1] == attempts[k];
    }
    assert Nows(attempts[..n + 1]) == [attempts[0].now] + Nows(attempts[1..][..n]);
  }

  lemma {:induction false} FillLoopMoves(d: Setup, s: State, attempts: seq<Attempt>) returns (n: nat, gone: bool)
    requires |attempts| >= d.maxInFlight - |s.c.latencyStarts|
    ensures Filled(s, FillLoop(d, s, attempts), attempts, n, gone)
    decreases |attempts|
  {
    n, gone := 0, false;
    assert Nows(attempts[..0]) == [];
    if |s.c.latencyStarts| < d.maxInFlight && !s.c.backpressured && CanSend(d, s.c) {
      if attempts[0].throws {
        gone := true;
      } else {
        var m := Send(d, s, attempts[0], None);
        n, gone := FillLoopMoves(d, m, attempts[1..]);
        hide Filled;
        FilledMore(s, m, FillLoop(d, m, attempts[1..]), attempts, n, gone);
        n := n + 1;
      }
    }
  }

  lemma FillMoves(d: Setup, s: State, attempts: seq<Attempt>) returns (n: nat, gone: bool)
    requires |attempts| >= d.maxInFlight
    ensures Filled(s, Fill(d, s, attempts), attempts, n, gone)
  {
    assert attempts[..0] == [];
    if d.fixedRate || !s.c.connected || s.c.stopped || s.c.backpressured || !s.c.attached {
      n, gone := 0, false;
    } else {
      n, gone := FillLoopMoves(d, s, attempts);
    }
  }

  lemma OpenedMoves(d: Setup, s: State, e: Event) returns (n: nat, gone: bool)
    requires e.Opened? && |e.attempts| == d.maxInFlight
    ensures Moves(d, s, e, Step(d, s, e), n, gone)
  {
    hide Fill;
    n, gone := FillMoves(d, s.(c := s.c.(ready := true, connected := true)), e.attempts);
    assert e.attempts[..0] == [];
    if !s.c.attached || s.c.stopped {
      n, gone := 0, false;
    }
  }

  lemma MessageMoves(d: Setup, s: State, e: Event) returns (n: nat, gone: bool)
    requires e.Message? && |e.attempts| == d.maxInFlight && |s.c.latencyStarts| == |s.c.timeoutStarts|
    ensures Moves(d, s, e, Step(d, s, e), n, gone)
  {
    hide Fill;
    n, gone := 0, Wrong(s, e);
    assert e.attempts[..0] == [];
    if Answers(s, e) {
      var rest := s.c.(latencyStarts := Rest(s.c.latencyStarts), timeoutStarts := Rest(s.c.timeoutStarts));
      var t := State(rest.(timer := Oldest(rest.timeoutStarts)), Answer(s));
      n, gone := FillMoves(d, if t.c.backpressured && e.buffered <= d.maxBuffered then EndBackpressure(t) else t,
                           e.attempts);
    }
  }

  lemma PollMoves(d: Setup, s: State, e: Event) returns (n: nat, gone: bool)
    requires e.PollFires? && |e.attempts| == d.maxInFlight
    ensures Moves(d, s, e, Step(d, s, e), n, gone)
  {
    hide Fill;
    n, gone := FillMoves(d, EndBackpressure(s), e.attempts);
    assert e.attempts[..0] == [];
    if s.c.attached && e.buffered > d.maxBuffered {
      n, gone := 0, false;
    }
  }

  lemma ScheduledMoves(d: Setup, s: State, e: Event) returns (n: nat, gone: bool)
    requires e.Scheduled?
    ensures Moves(d, s, e, Step(d, s, e), n, gone)
  {
    gone := CanSend(d, s.c) && e.attempt.throws;
    n := if CanSend(d, s.c) && !e.attempt.throws then 1 else 0;
    assert Attempts(e)[..1] == [e.attempt] && Attempts(e)[..0] == [];
    assert Nows([e.attempt]) == [e.attempt.now] && seq(1, _ => e.at) == [e.at];
  }

  lemma QuietMoves(d: Setup, s: State, e: Event)
    requires e.Failed? || e.Closing? || e.Closed? || e.TimerFires? || e.ReconnectFires? || e.Stopped?
    ensures Moves(d, s, e, Step(d, s, e), 0, TimesOut(s, e) || (e.Closed? && s.c.attached))
  {
  }

  /** The state before the last event of a run. */
  function Before(d: Setup, events: seq<Event>): State
    requires events != [] && Run(d, events).Some?
  {
    Run(d, events[..|events| - 1]).value.0
  }

  /** Every event of every run sends, answers, aborts and counts exactly that. */
  lemma EventMoves(d: Setup, events: seq<Event>) returns (n: nat, gone: bool)
    requires events != [] && Run(d, events).Some?
    ensures Moves(d, Before(d, events), events[|events| - 1], Run(d, events).value.0, n, gone)
  {
    hide Moves, Inv;
    var e, front := events[|events| - 1], events[..|events| - 1];
    var s := Before(d, events);
    RunOk(d, front);
    QueuesPaired(d, s, Run(d, front).value.1);
    match e {
      case Opened(_) => n, gone := OpenedMoves(d, s, e);
      case Message(_, _, _) => n, gone := MessageMoves(d, s, e);
      case PollFires(_, _) => n, gone := PollMoves(d, s, e);
      case Scheduled(_, _, _) => n, gone := ScheduledMoves(d, s, e);
      case _ =>
        QuietMoves(d, s, e);
        n, gone := 0, TimesOut(s, e) || (e.Closed? && s.c.attached);
    }
    hide Step;
  }

  lemma QueuesPaired(d: Setup, s: State, until: real)
    requires Inv(d, s, until)
    ensures |s.c.latencyStarts| == |s.c.timeoutStarts|
  {
  }

  // ---------------------------------------------------------------- backpressure and the socket

  /** The socket has been found to have room again. */
  predicate Relieved(d: Setup, s: State, e: Event) {
    || (e.PollFires? && (!s.c.attached || e.buffered <= d.maxBuffered))
    || (e.Message? && Answers(s, e) && e.buffered <= d.maxBuffered)
  }

  /** Some of the first attempts leaves more in the socket than it may buffer. */
  predicate Blocks(d: Setup, attempts: seq<Attempt>, n: nat)
    requires n <= |attempts|
  {
    exists k :: 0 <= k < n && attempts[k].buffered > d.maxBuffered
  }

  lemma {:induction false} FillLoopBlocks(d: Setup, s: State, attempts: seq<Attempt>)
    requires |attempts| >= d.maxInFlight - |s.c.latencyStarts|
    ensures var t := FillLoop(d, s, attempts);
            var n := t.n.sent - s.n.sent;
            && 0 <= n <= |attempts|
            && (t.c.attached == s.c.attached ==> t.c.backpressured == (s.c.backpressured || Blocks(d, attempts, n)))
            && (s.c.backpressured ==> n == 0) && (n > 0 ==> !Blocks(d, attempts, n - 1))
    decreases |attempts|
  {
    if |s.c.latencyStarts| < d.maxInFlight && !s.c.backpressured && CanSend(d, s.c) && !attempts[0].throws {
      var m := Send(d, s, attempts[0], None);
      FillLoopBlocks(d, m, attempts[1..]);
      var n := FillLoop(d, m, attempts[1..]).n.sent - m.n.sent;
      BlocksNext(d, attempts, n + 1);
      BlocksNext(d, attempts, n);
      BlocksNext(d, attempts, 1);
      hide Blocks;
    }
  }

  lemma BlocksNext(d: Setup, attempts: seq<Attempt>, n: nat)
    requires n <= |attempts| && attempts != []
    ensures n > 0 ==> (Blocks(d, attempts, n)
                       <==> attempts[0].buffered > d.maxBuffered || Blocks(d, attempts[1..], n - 1))
    ensures !Blocks(d, attempts, 0)
  {
    if n > 0 && Blocks(d, attempts[1..], n - 1) {
      var k :| 0 <= k < n - 1 && attempts[1..][k].buffered > d.maxBuffered;
      assert attempts[k + 1].buffered > d.maxBuffered;
    }
    if n > 0 && Blocks(d, attempts, n) {
      var k :| 0 <= k < n && attempts[k].buffered > d.maxBuffered;
      assert k > 0 ==> attempts[1..][k - 1] == attempts[k];
    }
  }

  /**
    * A connection that keeps its socket is held back exactly from a send that leaves too much in the socket to the
    * moment the socket is found to have room, and while it is nothing is sent.
    */
  predicate Presses(d: Setup, s: State, e: Event, t: State) {
    var n := t.n.sent - s.n.sent;
    var held := s.c.backpressured && !Relieved(d, s, e);
    && 0 <= n <= |Attempts(e)|
    && (s.c.attached && t.c.attached ==> t.c.backpressured == (held || Blocks(d, Attempts(e), n)))
    && (held ==> n == 0) && (n > 0 ==> !Blocks(d, Attempts(e), n - 1))
  }

  lemma FillPresses(d: Setup, s: State, e: Event)
    requires e.Opened? || e.PollFires?
    requires |Attempts(e)| == d.maxInFlight
    ensures Presses(d, s, e, Step(d, s, e))
  {
    if e.Opened? {
      FillBlocks(d, s.(c := s.c.(ready := true, connected := true)), e.attempts);
    } else {
      FillBlocks(d, EndBackpressure(s), e.attempts);
    }
    hide Fill;
  }

  lemma MessagePresses(d: Setup, s: State, e: Event)
    requires e.Message? && |e.attempts| == d.maxInFlight
    ensures Presses(d, s, e, Step(d, s, e))
  {
    if Answers(s, e) {
      var rest := s.c.(latencyStarts := Rest(s.c.latencyStarts), timeoutStarts := Rest(s.c.timeoutStarts));
      var t := State(rest.(timer := Oldest(rest.timeoutStarts)), Answer(s));
      FillBlocks(d, if t.c.backpressured && e.buffered <= d.maxBuffered then EndBackpressure(t) else t, e.attempts);
    }
    hide Fill;
  }

  lemma QuietPresses(d: Setup, s: State, e: Event)
    requires e.Failed? || e.Closing? || e.Closed? || e.TimerFires? || e.ReconnectFires? || e.Stopped?
    ensures Presses(d, s, e, Step(d, s, e))
  {
  }

  /** So it is in every run. */
  lemma PressureMoves(d: Setup, events: seq<Event>)
    requires events != [] && Run(d, events).Some?
    ensures Presses(d, Before(d, events), events[|events| - 1], Run(d, events).value.0)
  {
    hide Presses, Blocks;
    var e, s := events[|events| - 1], Before(d, events);
    match e {
      case Opened(_) => FillPresses(d, s, e);
      case Message(_, _, _) => MessagePresses(d, s, e);
      case PollFires(_, _) => FillPresses(d, s, e);
      case Scheduled(_, _, _) => ScheduledPresses(d, s, e);
      case _ => QuietPresses(d, s, e);
    }
    hide Step;
  }

  lemma ScheduledPresses(d: Setup, s: State, e: Event)
    requires e.Scheduled? && CanSchedule(d, s.c, e.buffered)
    ensures Presses(d, s, e, Step(d, s, e))
  {
    ScheduledBlocks(d, s, e);
    hide Blocks;
  }

  lemma FillBlocks(d: Setup, s: State, attempts: seq<Attempt>)
    requires |attempts| >= d.maxInFlight
    ensures var t := Fill(d, s, attempts);
            var n := t.n.sent - s.n.sent;
            && 0 <= n <= |attempts|
            && (t.c.attached == s.c.attached ==> t.c.backpressured == (s.c.backpressured || Blocks(d, attempts, n)))
            && (s.c.backpressured ==> n == 0) && (n > 0 ==> !Blocks(d, attempts, n - 1))
  {
    FillLoopBlocks(d, s, attempts);
  }

  lemma ScheduledBlocks(d: Setup, s: State, e: Event)
    requires e.Scheduled? && CanSchedule(d, s.c, e.buffered)
    ensures var t := Step(d, s, e);
            var n := t.n.sent - s.n.sent;
            && 0 <= n <= 1 && !s.c.backpressured
            && (t.c.attached ==> t.c.backpressured == Blocks(d, [e.attempt], n))
            && (n > 0 ==> !Blocks(d, [e.attempt], n - 1))
  {
    assert [e.attempt][0] == e.attempt;
  }

  /**
    * An open makes the connection ready; a close or anything else that lets go of the socket arms the reconnection
    * unless the connection has been stopped; the reconnection gives it a new socket; and an operation is only handed
    * over to a connection that is open, not stopped, not held back and not full.
    */
  predicate Links(d: Setup, s: State, e: Event, t: State) {
    && (t.c.stopped <==> s.c.stopped || e.Stopped?)
    && (e.Opened? && t.c.attached && !s.c.stopped ==> t.c.ready && t.c.connected)
    && (e.Closing? ==> !t.c.ready && t.c.attached == s.c.attached)
    && (e.Closed? ==> !t.c.attached) && (s.c.attached && !t.c.attached && !t.c.stopped ==> t.c.reconnect)
    && (e.ReconnectFires? && !s.c.stopped ==> t.c.attached && !t.c.reconnect)
    && (e.ReconnectFires? && !s.c.stopped && !s.c.attached ==> !t.c.errorObserved)
    && (e.Failed? && s.c.attached && !s.c.stopped ==> t.c.errorObserved && t.c.attached)
    && (e.Scheduled? ==> d.fixedRate && s.c.connected && s.c.ready && !s.c.stopped && !s.c.backpressured
                         && e.buffered <= d.maxBuffered && |s.c.latencyStarts| < d.maxInFlight)
  }

  lemma FillLinked(d: Setup, s: State, e: Event)
    requires e.Opened? || e.PollFires? || e.Message?
    requires |Attempts(e)| == d.maxInFlight
    ensures Links(d, s, e, Step(d, s, e))
  {
    if e.Opened? {
      FillLinks(d, s.(c := s.c.(ready := true, connected := true)), e.attempts);
    } else if e.PollFires? {
      FillLinks(d, EndBackpressure(s), e.attempts);
    } else if Answers(s, e) {
      var rest := s.c.(latencyStarts := Rest(s.c.latencyStarts), timeoutStarts := Rest(s.c.timeoutStarts));
      var t := State(rest.(timer := Oldest(rest.timeoutStarts)), Answer(s));
      FillLinks(d, if t.c.backpressured && e.buffered <= d.maxBuffered then EndBackpressure(t) else t, e.attempts);
    }
    hide Fill;
  }

  lemma QuietLinks(d: Setup, s: State, e: Event, since: real)
    requires Enabled(d, s, e, since) && !e.Opened? && !e.PollFires? && !e.Message?
    requires LinkOk(s.c)
    ensures Links(d, s, e, Step(d, s, e))
  {
  }

  /** So it is in every run. */
  lemma SocketMoves(d: Setup, events: seq<Event>)
    requires events != [] && Run(d, events).Some?
    ensures Links(d, Before(d, events), events[|events| - 1], Run(d, events).value.0)
  {
    hide Links, QueueOk, LinkOk;
    var e, front := events[|events| - 1], events[..|events| - 1];
    var s := Before(d, events);
    RunOk(d, front);
    if e.Opened? || e.PollFires? || e.Message? {
      FillLinked(d, s, e);
    } else {
      QuietLinks(d, s, e, Run(d, front).value.1);
    }
    hide Step;
  }

  lemma {:induction false} FillLoopLinks(d: Setup, s: State, attempts: seq<Attempt>)
    requires |attempts| >= d.maxInFlight - |s.c.latencyStarts|
    ensures var t := FillLoop(d, s, attempts);
            && t.c.stopped == s.c.stopped
            && (t.c.attached == s.c.attached ==> t.c.ready == s.c.ready && t.c.connected == s.c.connected)
            && (s.c.attached && !t.c.attached && !t.c.stopped ==> t.c.reconnect)
            && (!s.c.attached ==> !t.c.attached)
    decreases |attempts|
  {
    if |s.c.latencyStarts| < d.maxInFlight && !s.c.backpressured && CanSend(d, s.c) && !attempts[0].throws {
      FillLoopLinks(d, Send(d, s, attempts[0], None), attempts[1..]);
    }
  }

  lemma FillLinks(d: Setup, s: State, attempts: seq<Attempt>)
    requires |attempts| >= d.maxInFlight
    ensures var t := Fill(d, s, attempts);
            && t.c.stopped == s.c.stopped
            && (t.c.attached == s.c.attached ==> t.c.ready == s.c.ready && t.c.connected == s.c.connected)
            && (s.c.attached && !t.c.attached && !t.c.stopped ==> t.c.reconnect)
            && (!s.c.attached ==> !t.c.attached)
  {
    FillLoopLinks(d, s, attempts);
  }
}
