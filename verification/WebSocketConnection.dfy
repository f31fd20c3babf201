/**
  * One WebSocket connection during a recorded phase (src/load/websocket/websocket-connection.ts) as functions of its
  * fields, its counters and the answers of its socket.
  */
module WebSocketConnection {
  import opened Basics

  datatype Setup = Setup(maxInFlight: nat, maxBuffered: nat, fixedRate: bool, correctOmission: bool)

  /**
    * `attached` says that there is a socket, `ready` that it is open, `poll` and `reconnect` that their timers are
    * armed. `timer` is the send time for which the timeout timer is armed.
    */
  datatype Conn = Conn(
    attached: bool,
    ready: bool,
    connected: bool,
    stopped: bool,
    errorObserved: bool,
    backpressured: bool,
    poll: bool,
    reconnect: bool,
    timer: Option<real>,
    latencyStarts: seq<real>,
    timeoutStarts: seq<real>)

  /**
    * The connection's share of the counters. `answered` records the send times that messages were reported with, in
    * order, `lost` counts those taken by messages of an unsupported kind, `slots` the operations handed over by the
    * fixed-rate scheduler and `refused` those whose send threw.
    */
  datatype Counts = Counts(
    sent: nat,
    completed: nat,
    aborted: nat,
    connectionErrors: nat,
    timeouts: nat,
    protocolErrors: nat,
    scheduled: nat,
    answered: seq<real>,
    lost: nat,
    slots: nat,
    refused: nat)

  datatype State = State(c: Conn, n: Counts)

  const NEW := State(Conn(true, false, false, false, false, false, false, false, None, [], []),
                     Counts(0, 0, 0, 0, 0, 0, 0, [], 0, 0, 0))

  /** One send: when it happens, whether the socket throws, and how much it then has buffered. */
  datatype Attempt = Attempt(now: real, throws: bool, buffered: nat)

  function Oldest(times: seq<real>): Option<real> {
    if times == [] then None else Some(times[0])
  }

  function Rest(times: seq<real>): seq<real> {
    if times == [] then [] else times[1..]
  }

  /** `#discard`, and what closing does: everything in flight is aborted and a reconnection is scheduled. */
  function Discard(s: State): State {
    s.(c := s.c.(attached := false, ready := false, connected := false, timer := None, poll := false,
                 backpressured := false, latencyStarts := [], timeoutStarts := [],
                 reconnect := s.c.reconnect || !s.c.stopped),
       n := s.n.(aborted := s.n.aborted + |s.c.latencyStarts|))
  }

  predicate CanSend(d: Setup, c: Conn) {
    c.attached && c.ready && |c.latencyStarts| < d.maxInFlight
  }

  /** `#send`. */
  function Send(d: Setup, s: State, a: Attempt, scheduledAt: Option<real>): State {
    if !CanSend(d, s.c) then s
    else if a.throws then Discard(s.(n := s.n.(connectionErrors := s.n.connectionErrors + 1)))
    else
      var start := if scheduledAt.Some? && d.correctOmission then scheduledAt.value else a.now;
      var timeouts := s.c.timeoutStarts + [a.now];
      var blocked := s.c.backpressured || a.buffered > d.maxBuffered;
      State(s.c.(latencyStarts := s.c.latencyStarts + [start], timeoutStarts := timeouts, timer := Oldest(timeouts),
                 backpressured := blocked, poll := s.c.poll || (blocked && !s.c.backpressured)),
            s.n.(sent := s.n.sent + 1, scheduled := s.n.scheduled + if scheduledAt.Some? then 1 else 0))
  }

  /** The loop of `fillClosedLoop`, one attempt for each send it may make. */
  function FillLoop(d: Setup, s: State, attempts: seq<Attempt>): State
    requires |attempts| >= d.maxInFlight - |s.c.latencyStarts|
    decreases |attempts|
  {
    if |s.c.latencyStarts| >= d.maxInFlight || s.c.backpressured then s
    else if !CanSend(d, s.c) || attempts[0].throws then Send(d, s, attempts[0], None)
    else FillLoop(d, Send(d, s, attempts[0], None), attempts[1..])
  }

  function Fill(d: Setup, s: State, attempts: seq<Attempt>): State
    requires |attempts| >= d.maxInFlight
  {
    if d.fixedRate || !s.c.connected || s.c.stopped || s.c.backpressured || !s.c.attached then s
    else FillLoop(d, s, attempts)
  }

  function EndBackpressure(s: State): State {
    s.(c := s.c.(backpressured := false, poll := false))
  }

  function OnOpen(d: Setup, s: State, attempts: seq<Attempt>): State
    requires |attempts| >= d.maxInFlight
  {
    if !s.c.attached || s.c.stopped then s
    else Fill(d, s.(c := s.c.(ready := true, connected := true)), attempts)
  }

  /** The message is counted, and reported with the oldest send time. */
  function Answer(s: State): Counts
    requires s.c.latencyStarts != []
  {
    s.n.(completed := s.n.completed + 1, answered := s.n.answered + [s.c.latencyStarts[0]])
  }

  /** A message takes the oldest send time; it answers it, unless it is of an unsupported kind or there is none. */
  function OnMessage(d: Setup, s: State, supported: bool, buffered: nat, attempts: seq<Attempt>): State
    requires |attempts| >= d.maxInFlight
  {
    if !s.c.attached || s.c.stopped then s
    else
      var rest := s.c.(latencyStarts := Rest(s.c.latencyStarts), timeoutStarts := Rest(s.c.timeoutStarts));
      if !supported || s.c.latencyStarts == [] then
        Discard(State(rest, s.n.(protocolErrors := s.n.protocolErrors + 1,
                                 lost := s.n.lost + if s.c.latencyStarts == [] then 0 else 1)))
      else
        var t := State(rest.(timer := Oldest(rest.timeoutStarts)), Answer(s));
        Fill(d, if t.c.backpressured && buffered <= d.maxBuffered then EndBackpressure(t) else t, attempts)
  }

  function OnError(s: State): State {
    if s.c.attached && !s.c.stopped && !s.c.errorObserved
    then State(s.c.(errorObserved := true), s.n.(connectionErrors := s.n.connectionErrors + 1))
    else s
  }

  function OnClose(s: State): State {
    if !s.c.attached then s
    else
      Discard(if s.c.stopped || s.c.errorObserved then s
              else s.(n := s.n.(connectionErrors := s.n.connectionErrors + 1)))
  }

  /** The timeout timer fires. */
  function OnTimeout(s: State): State {
    var t := s.(c := s.c.(timer := None));
    if s.c.latencyStarts == [] || !s.c.attached then t
    else Discard(t.(n := s.n.(timeouts := s.n.timeouts + 1)))
  }

  /** The poll of a full socket buffer fires. */
  function OnPoll(d: Setup, s: State, buffered: nat, attempts: seq<Attempt>): State
    requires |attempts| >= d.maxInFlight
  {
    if !s.c.attached || buffered <= d.maxBuffered then Fill(d, EndBackpressure(s), attempts)
    else s.(c := s.c.(poll := s.c.backpressured && !s.c.stopped))
  }

  function Connect(s: State): State {
    if s.c.stopped || s.c.attached then s else s.(c := s.c.(attached := true, errorObserved := false))
  }

  function OnReconnect(s: State): State {
    Connect(s.(c := s.c.(reconnect := false)))
  }

  predicate CanSchedule(d: Setup, c: Conn, buffered: nat) {
    d.fixedRate && c.connected && !c.stopped && !c.backpressured && buffered <= d.maxBuffered && CanSend(d, c)
  }

  /** An operation handed over by the scheduler; one that does not fit is an error the scheduler never causes. */
  function ScheduleOperation(d: Setup, s: State, scheduledAt: real, a: Attempt): State {
    var t := s.(n := s.n.(slots := s.n.slots + 1, refused := s.n.refused + if a.throws then 1 else 0));
    Send(d, t, a, Some(scheduledAt))
  }

  function Stop(s: State): State {
    s.(c := s.c.(stopped := true, attached := false, ready := false, connected := false, timer := None, poll := false,
                 reconnect := false, backpressured := false, latencyStarts := [], timeoutStarts := []))
  }

  // ---------------------------------------------------------------- runs

  /** Events of the current socket, of the armed timers and of the worker. */
  datatype Event =
    | Opened(attempts: seq<Attempt>)
    | Message(supported: bool, buffered: nat, attempts: seq<Attempt>)
    | Failed
    | Closing
    | Closed
    | TimerFires
    | PollFires(buffered: nat, attempts: seq<Attempt>)
    | ReconnectFires
    | Scheduled(at: real, buffered: nat, attempt: Attempt)
    | Stopped

  function Attempts(e: Event): seq<Attempt> {
    match e
    case Opened(attempts) => attempts
    case Message(_, _, attempts) => attempts
    case PollFires(_, attempts) => attempts
    case Scheduled(_, _, attempt) => [attempt]
    case _ => []
  }

  /** Sends happen at times that do not go back, from `since` on. */
  predicate FromTime(attempts: seq<Attempt>, since: real) {
    && (forall i :: 0 <= i < |attempts| ==> since <= attempts[i].now)
    && (forall i, j :: 0 <= i < j < |attempts| ==> attempts[i].now <= attempts[j].now)
  }

  predicate Enabled(d: Setup, s: State, e: Event, since: real) {
    FromTime(Attempts(e), since)
    && match e
       case Opened(attempts) => s.c.attached && !s.c.connected && |attempts| == d.maxInFlight
       case Message(_, _, attempts) => s.c.connected && |attempts| == d.maxInFlight
       case TimerFires => s.c.timer.Some?
       case PollFires(_, attempts) => s.c.poll && |attempts| == d.maxInFlight
       case ReconnectFires => s.c.reconnect
       case Scheduled(_, buffered, _) => CanSchedule(d, s.c, buffered)
       case _ => true
  }

  function Step(d: Setup, s: State, e: Event): State
    requires |Attempts(e)| >= d.maxInFlight || !(e.Opened? || e.Message? || e.PollFires?)
  {
    match e
    case Opened(attempts) => OnOpen(d, s, attempts)
    case Message(supported, buffered, attempts) => OnMessage(d, s, supported, buffered, attempts)
    case Failed => OnError(s)
    case Closing => s.(c := s.c.(ready := false))
    case Closed => OnClose(s)
    case TimerFires => OnTimeout(s)
    case PollFires(buffered, attempts) => OnPoll(d, s, buffered, attempts)
    case ReconnectFires => OnReconnect(s)
    case Scheduled(at, _, attempt) => ScheduleOperation(d, s, at, attempt)
    case Stopped => Stop(s)
  }

  function Last(attempts: seq<Attempt>, since: real): real {
    if attempts == [] then since else attempts[|attempts| - 1].now
  }

  /** The state and the time after a run from a new connection; None as soon as an event cannot happen. */
  function Run(d: Setup, events: seq<Event>): Option<(State, real)>
    decreases |events|
  {
    if events == [] then Some((NEW, 0.0))
    else
      var before := Run(d, events[..|events| - 1]);
      var e := events[|events| - 1];
      if before.None? then None
      else
        var (s, since) := before.value;
        if !Enabled(d, s, e, since) then None
        else Some((Step(d, s, e), Last(Attempts(e), since)))
  }

  // ---------------------------------------------------------------- what every event keeps

  predicate OrderedUntil(times: seq<real>, until: real) {
    && (forall i :: 0 <= i < |times| ==> times[i] <= until)
    && (forall i, j :: 0 <= i < j < |times| ==> times[i] <= times[j])
  }

  /** The queue fits, and its oldest send time is the one the timeout timer is armed for. */
  predicate QueueOk(d: Setup, c: Conn, until: real) {
    && |c.latencyStarts| == |c.timeoutStarts| <= d.maxInFlight
    && OrderedUntil(c.timeoutStarts, until)
    && c.timer == Oldest(c.timeoutStarts)
  }

  /** A full buffer is being polled, and a connection without a socket is about to get one unless it is stopped. */
  predicate LinkOk(c: Conn) {
    && (c.backpressured <==> c.poll)
    && (c.ready ==> c.connected) && (c.connected ==> c.attached)
    && (!c.attached ==> c.latencyStarts == [] && !c.backpressured)
    && (if c.stopped then !c.attached && !c.reconnect else c.attached || c.reconnect)
  }

  predicate Conserved(s: State) {
    && (!s.c.stopped ==> s.n.sent == s.n.completed + s.n.aborted + s.n.lost + |s.c.latencyStarts|)
    && s.n.slots == s.n.scheduled + s.n.refused
  }

  /** In a closed loop an open connection that is not held back has as much in flight as it may. */
  predicate Full(d: Setup, c: Conn) {
    !d.fixedRate && c.ready && !c.backpressured ==> |c.latencyStarts| == d.maxInFlight
  }

  predicate Inv(d: Setup, s: State, until: real) {
    QueueOk(d, s.c, until) && LinkOk(s.c) && Conserved(s) && Full(d, s.c)
  }

  /** One send keeps everything but fullness; it fails to send only by letting go of the socket. */
  lemma SendOk(d: Setup, s: State, a: Attempt, scheduledAt: Option<real>, until: real)
    requires QueueOk(d, s.c, until) && LinkOk(s.c) && !s.c.stopped && CanSend(d, s.c) && a.now >= until
    requires s.n.sent == s.n.completed + s.n.aborted + s.n.lost + |s.c.latencyStarts|
    ensures var t := Send(d, s, a, scheduledAt);
            && QueueOk(d, t.c, a.now) && LinkOk(t.c)
            && t.n.sent == t.n.completed + t.n.aborted + t.n.lost + |t.c.latencyStarts|
            && t.n.slots == s.n.slots && t.n.refused == s.n.refused && t.c.stopped == s.c.stopped
            && t.n.scheduled == s.n.scheduled + (if scheduledAt.Some? && !a.throws then 1 else 0)
            && (if a.throws then !t.c.attached else t.c.ready && |t.c.latencyStarts| == |s.c.latencyStarts| + 1)
  {
  }

  /** Filling leaves a connection that is still open and not held back with as much in flight as it may have. */
  lemma {:induction false} FillLoopOk(d: Setup, s: State, attempts: seq<Attempt>, until: real)
    requires |attempts| >= d.maxInFlight - |s.c.latencyStarts| && FromTime(attempts, until)
    requires QueueOk(d, s.c, until) && LinkOk(s.c) && Conserved(s) && !s.c.stopped
    ensures Inv(d, FillLoop(d, s, attempts), Last(attempts, until)) || attempts == []
    ensures attempts == [] ==> Inv(d, FillLoop(d, s, attempts), until)
    decreases |attempts|
  {
    if |s.c.latencyStarts| >= d.maxInFlight || s.c.backpressured || !CanSend(d, s.c) {
      OrderedLater(s.c.timeoutStarts, until, Last(attempts, until));
    } else {
      var t := Send(d, s, attempts[0], None);
      SendOk(d, s, attempts[0], None, until);
      OrderedLater(t.c.timeoutStarts, attempts[0].now, Last(attempts, until));
      if !attempts[0].throws {
        FillLoopOk(d, t, attempts[1..], attempts[0].now);
      }
    }
  }

  lemma OrderedLater(times: seq<real>, until: real, later: real)
    requires OrderedUntil(times, until) && until <= later
    ensures OrderedUntil(times, later)
  {
  }

  lemma FillOk(d: Setup, s: State, attempts: seq<Attempt>, until: real)
    requires |attempts| >= d.maxInFlight && FromTime(attempts, until)
    requires QueueOk(d, s.c, until) && LinkOk(s.c) && Conserved(s) && !s.c.stopped
    ensures Inv(d, Fill(d, s, attempts), Last(attempts, until))
  {
    hide FillLoop, Conserved;
    FillLoopOk(d, s, attempts, until);
    OrderedLater(s.c.timeoutStarts, until, Last(attempts, until));
  }

  lemma MessageOk(d: Setup, s: State, supported: bool, buffered: nat, attempts: seq<Attempt>, until: real)
    requires Inv(d, s, until) && s.c.connected && |attempts| == d.maxInFlight && FromTime(attempts, until)
    ensures Inv(d, OnMessage(d, s, supported, buffered, attempts), Last(attempts, until))
  {
    if supported && s.c.latencyStarts != [] {
      var rest := s.c.(latencyStarts := Rest(s.c.latencyStarts), timeoutStarts := Rest(s.c.timeoutStarts));
      var t := State(rest.(timer := Oldest(rest.timeoutStarts)), Answer(s));
      FillOk(d, if t.c.backpressured && buffered <= d.maxBuffered then EndBackpressure(t) else t, attempts, until);
      hide Fill;
    }
  }

  /** Every event keeps the invariant. */
  lemma StepOk(d: Setup, s: State, e: Event, since: real)
    requires Inv(d, s, since) && Enabled(d, s, e, since)
    ensures Inv(d, Step(d, s, e), Last(Attempts(e), since))
  {
    match e
    case Opened(attempts) => FillOk(d, s.(c := s.c.(ready := true, connected := true)), attempts, since);
    case Message(supported, buffered, attempts) => MessageOk(d, s, supported, buffered, attempts, since);
    case PollFires(buffered, attempts) =>
      FillOk(d, EndBackpressure(s), attempts, since);
      OrderedLater(s.c.timeoutStarts, since, Last(attempts, since));
    case Scheduled(at, buffered, attempt) =>
      assert Attempts(e)[0] == attempt;
      ScheduledOk(d, s, at, buffered, attempt, since);
    case _ => QuietOk(d, s, e, since);
  }

  lemma ScheduledOk(d: Setup, s: State, at: real, buffered: nat, attempt: Attempt, since: real)
    requires Inv(d, s, since) && CanSchedule(d, s.c, buffered) && attempt.now >= since
    ensures Inv(d, ScheduleOperation(d, s, at, attempt), attempt.now)
  {
    SendOk(d, s, attempt, Some(at), since);
  }

  /** The events in which nothing is sent. */
  lemma QuietOk(d: Setup, s: State, e: Event, since: real)
    requires Inv(d, s, since) && Enabled(d, s, e, since)
    requires e.Failed? || e.Closing? || e.Closed? || e.TimerFires? || e.ReconnectFires? || e.Stopped?
    ensures Inv(d, Step(d, s, e), since)
  {
  }

  lemma {:induction false} RunOk(d: Setup, events: seq<Event>)
    requires Run(d, events).Some?
    ensures Inv(d, Run(d, events).value.0, Run(d, events).value.1)
    decreases |events|
  {
    hide Inv, Step, Enabled;
    if events == [] {
      NewOk(d);
    } else {
      var before := events[..|events| - 1];
      RunOk(d, before);
      StepOk(d, Run(d, before).value.0, events[|events| - 1], Run(d, before).value.1);
    }
  }

  lemma NewOk(d: Setup)
    ensures Inv(d, NEW, 0.0)
  {
  }

  // ---------------------------------------------------------------- over every run

  /** No more is in flight than may be, and the timeout timer is armed for a message than which none is older. */
  lemma TimerWatchesOldest(d: Setup, events: seq<Event>)
    requires Run(d, events).Some?
    ensures var c := Run(d, events).value.0.c;
            && |c.latencyStarts| == |c.timeoutStarts| <= d.maxInFlight
            && (c.timer.Some? <==> c.timeoutStarts != [])
            && (c.timer.Some? ==> forall i :: 0 <= i < |c.timeoutStarts| ==> c.timer.value <= c.timeoutStarts[i])
  {
    hide Run;
    RunOk(d, events);
  }

  /**
    * A closed loop keeps an open connection full unless the socket buffer is; a full buffer is being polled; and a
    * connection that is not stopped has a socket or will get one.
    */
  lemma WorkConserved(d: Setup, events: seq<Event>)
    requires Run(d, events).Some?
    ensures var c := Run(d, events).value.0.c;
            && (!d.fixedRate && c.ready && !c.backpressured ==> |c.latencyStarts| == d.maxInFlight)
            && (c.backpressured ==> c.poll)
            && (!c.stopped ==> c.attached || c.reconnect)
  {
    hide Run;
    RunOk(d, events);
  }

  /** The event is a message of an unsupported kind that takes a send time. */
  predicate Loses(s: State, e: Event) {
    e.Message? && !e.supported && s.c.attached && !s.c.stopped && s.c.latencyStarts != []
  }

  predicate Refuses(e: Event) {
    e.Scheduled? && e.attempt.throws
  }

  lemma {:induction false} FillLosesNothing(d: Setup, s: State, attempts: seq<Attempt>)
    requires |attempts| >= d.maxInFlight - |s.c.latencyStarts|
    ensures FillLoop(d, s, attempts).n.lost == s.n.lost && FillLoop(d, s, attempts).n.refused == s.n.refused
    decreases |attempts|
  {
    if |s.c.latencyStarts| < d.maxInFlight && CanSend(d, s.c) && !attempts[0].throws {
      FillLosesNothing(d, Send(d, s, attempts[0], None), attempts[1..]);
    }
  }

  lemma StepLosses(d: Setup, s: State, e: Event, since: real)
    requires Enabled(d, s, e, since)
    ensures Step(d, s, e).n.lost == s.n.lost + if Loses(s, e) then 1 else 0
    ensures Step(d, s, e).n.refused == s.n.refused + if Refuses(e) then 1 else 0
  {
    match e
    case Opened(attempts) =>
      FillLosesNothing(d, s.(c := s.c.(ready := true, connected := true)), attempts);
    case Message(supported, buffered, attempts) =>
      if s.c.latencyStarts != [] {
        var rest := s.c.(latencyStarts := Rest(s.c.latencyStarts), timeoutStarts := Rest(s.c.timeoutStarts));
        var t := State(rest.(timer := Oldest(rest.timeoutStarts)), Answer(s));
        FillLosesNothing(d, t, attempts);
        FillLosesNothing(d, EndBackpressure(t), attempts);
      }
    case PollFires(buffered, attempts) => FillLosesNothing(d, EndBackpressure(s), attempts);
    case _ =>
    hide FillLoop;
  }

  /** No message of the run took a send time that it could not answer. */
  predicate NothingLost(d: Setup, events: seq<Event>)
    requires Run(d, events).Some?
    decreases |events|
  {
    events == []
    || (NothingLost(d, events[..|events| - 1])
        && !Loses(Run(d, events[..|events| - 1]).value.0, events[|events| - 1]))
  }

  /** No send of a scheduled operation threw. */
  predicate NothingRefused(events: seq<Event>) {
    events == [] || (NothingRefused(events[..|events| - 1]) && !Refuses(events[|events| - 1]))
  }

  /** Send times get lost, and slots refused, exactly when some event of the run does it. */
  lemma {:induction false} LostExactly(d: Setup, events: seq<Event>)
    requires Run(d, events).Some?
    ensures Run(d, events).value.0.n.lost == 0 <==> NothingLost(d, events)
    ensures Run(d, events).value.0.n.refused == 0 <==> NothingRefused(events)
    decreases |events|
  {
    if events != [] {
      hide Step, Enabled, Loses, Refuses;
      var before := events[..|events| - 1];
      LostExactly(d, before);
      StepLosses(d, Run(d, before).value.0, events[|events| - 1], Run(d, before).value.1);
    }
  }

  /**
    * Before the connection is stopped, everything sent has been completed, aborted or is in flight, exactly when no
    * message of an unsupported kind arrived while something was in flight.
    */
  lemma ConservationExactly(d: Setup, events: seq<Event>)
    requires Run(d, events).Some? && !Run(d, events).value.0.c.stopped
    ensures var s := Run(d, events).value.0;
            s.n.sent == s.n.completed + s.n.aborted + |s.c.latencyStarts|
            <==> NothingLost(d, events)
  {
    hide Run, NothingLost;
    RunOk(d, events);
    LostExactly(d, events);
  }

  /** Every message is a text or an array buffer, all that a socket delivers once its binary type is set. */
  predicate Conforming(events: seq<Event>) {
    forall i :: 0 <= i < |events| && events[i].Message? ==> events[i].supported
  }

  lemma {:induction false} ConformingLosesNothing(d: Setup, events: seq<Event>)
    requires Run(d, events).Some? && Conforming(events)
    ensures NothingLost(d, events)
    decreases |events|
  {
    hide Step, Enabled;
    if events != [] {
      ConformingLosesNothing(d, events[..|events| - 1]);
    }
  }

  /** With a conforming socket nothing sent is ever unaccounted for. */
  lemma ConformingConserved(d: Setup, events: seq<Event>)
    requires Run(d, events).Some? && Conforming(events)
    ensures var s := Run(d, events).value.0;
            !s.c.stopped ==> s.n.sent == s.n.completed + s.n.aborted + |s.c.latencyStarts|
  {
    hide Run, NothingLost, Conforming;
    ConformingLosesNothing(d, events);
    if !Run(d, events).value.0.c.stopped {
      ConservationExactly(d, events);
    }
  }

  /** Every slot of the fixed-rate scheduler was sent exactly when no send of such a slot threw. */
  lemma SlotsExactly(d: Setup, events: seq<Event>)
    requires Run(d, events).Some?
    ensures var n := Run(d, events).value.0.n;
            n.slots == n.scheduled <==> NothingRefused(events)
  {
    hide Run, NothingRefused;
    RunOk(d, events);
    LostExactly(d, events);
  }

  /** A message of an unsupported kind takes a send time that is neither completed nor aborted. */
  lemma UnsupportedMessage()
    ensures var d := Setup(1, 0, false, false);
            var attempt := Attempt(1.0, false, 0);
            var run := Run(d, [Opened([attempt]), Message(false, 0, [attempt])]);
            run.Some? && run.value.0.n.sent == 1
            && run.value.0.n.completed + run.value.0.n.aborted + |run.value.0.c.latencyStarts| == 0
  {
    var d := Setup(1, 0, false, false);
    var attempt := Attempt(1.0, false, 0);
    var events := [Opened([attempt]), Message(false, 0, [attempt])];
    assert events[..1] == [Opened([attempt])] && events[..1][..0] == [];
    var ready := NEW.(c := NEW.c.(ready := true, connected := true));
    var a := Send(d, ready, attempt, None);
    assert Step(d, NEW, events[0]) == FillLoop(d, ready, [attempt]) == a;
    assert Run(d, events[..1]) == Some((a, 1.0));
    assert a.c.latencyStarts == [1.0];
  }

  /** A slot handed over to a socket whose send throws is never sent. */
  lemma RefusedSlot()
    ensures var d := Setup(1, 0, true, false);
            var run := Run(d, [Opened([Attempt(1.0, false, 0)]), Scheduled(1.0, 0, Attempt(1.0, true, 0))]);
            run.Some? && run.value.0.n.slots == 1 && run.value.0.n.scheduled == 0
            && run.value.0.n.sent == 0 && run.value.0.n.connectionErrors == 1
  {
    var d := Setup(1, 0, true, false);
    var events := [Opened([Attempt(1.0, false, 0)]), Scheduled(1.0, 0, Attempt(1.0, true, 0))];
    assert events[..1] == [Opened([Attempt(1.0, false, 0)])] && events[..1][..0] == [];
    var ready := NEW.(c := NEW.c.(ready := true, connected := true));
    assert Step(d, NEW, events[0]) == ready;
    assert Run(d, events[..1]) == Some((ready, 1.0));
  }
}
