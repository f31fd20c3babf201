/**
  * Request correlation on the control channel (src/target-provider/control-client.ts) as functions of the client's
  * fields. Requests are known by the counter part of their id.
  */
module ControlClient {
  import opened Basics

  datatype RequestType = TargetStart | MetricsStart | MetricsStop | TargetStop

  /** A response; its payload only matters for being an object or not. */
  datatype Response = Response(id: nat, kind: RequestType, ok: bool, isObject: bool)

  /** Messages with a null id: an error event fails the client, any other changes nothing here. */
  datatype Incoming = Reply(response: Response) | ErrorEvent | OtherEvent

  datatype Reason = TimedOut | WriteFailed | ClientFailed | WrongType | RemoteError

  datatype Ending = Succeeded(response: Response) | Rejected(reason: Reason)

  /** One call of a request's resolve or reject. */
  datatype Settlement = Settlement(id: nat, ending: Ending)

  datatype Pending = Pending(id: nat, kind: RequestType)

  /**
    * `pending` and `listeners` keep insertion order, as the source's Map and Set do; `armed` are the live timers.
    * `issued`, `settled` and `notified` record what has happened: the kinds requested, the settlements and the
    * listeners called, each in order.
    */
  datatype Client = Client(
    pending: seq<Pending>,
    armed: set<nat>,
    counter: nat,
    failed: bool,
    closed: bool,
    listeners: seq<nat>,
    issued: seq<RequestType>,
    settled: seq<Settlement>,
    notified: seq<nat>)

  const START := Client([], {}, 0, false, false, [], [], [], [])

  function Ids(pending: seq<Pending>): (s: set<nat>) {
    set i | 0 <= i < |pending| :: pending[i].id
  }

  /** The position of a pending request, if it is pending. */
  function Position(pending: seq<Pending>, id: nat): (r: Option<nat>)
    ensures r.Some? ==> r.value < |pending| && pending[r.value].id == id
    ensures r.None? ==> forall i :: 0 <= i < |pending| ==> pending[i].id != id
  {
    if pending == [] then None
    else if pending[|pending| - 1].id == id then Some(|pending| - 1)
    else Position(pending[..|pending| - 1], id)
  }

  function Remove(pending: seq<Pending>, k: nat): seq<Pending>
    requires k < |pending|
  {
    pending[..k] + pending[k + 1..]
  }

  /** Takes a request out of the map, clears its timer and settles it. */
  function Settle(c: Client, k: nat, ending: Ending): Client
    requires k < |c.pending|
  {
    var id := c.pending[k].id;
    c.(pending := Remove(c.pending, k), armed := c.armed - {id}, settled := c.settled + [Settlement(id, ending)])
  }

  /** A request is refused after a failure and after closing; otherwise it gets the next id. */
  predicate Accepts(c: Client, writable: bool) {
    !c.failed && !c.closed && writable
  }

  function Request(c: Client, kind: RequestType): Client {
    var id := c.counter + 1;
    c.(counter := id, pending := c.pending + [Pending(id, kind)], armed := c.armed + {id}, issued := c.issued + [kind])
  }

  /** The timer of a request fires. */
  function TimerFires(c: Client, id: nat): Client {
    match Position(c.pending, id)
    case None => c.(armed := c.armed - {id}, settled := c.settled + [Settlement(id, Rejected(TimedOut))])
    case Some(k) => Settle(c, k, Rejected(TimedOut))
  }

  /** Writing a request failed; one that is no longer pending stays settled as it is. */
  function WriteFails(c: Client, id: nat): Client {
    match Position(c.pending, id)
    case None => c
    case Some(k) => Settle(c, k, Rejected(WriteFailed))
  }

  /** Rejects what is pending, oldest first. */
  function RejectAll(pending: seq<Pending>): (s: seq<Settlement>)
    ensures |s| == |pending|
    ensures forall i :: 0 <= i < |s| ==> s[i] == Settlement(pending[i].id, Rejected(ClientFailed))
  {
    seq(|pending|, i requires 0 <= i < |pending| => Settlement(pending[i].id, Rejected(ClientFailed)))
  }

  function Fail(c: Client): Client {
    if c.failed then c
    else
      c.(failed := true, pending := [], armed := c.armed - Ids(c.pending), settled := c.settled + RejectAll(c.pending),
         notified := c.notified + c.listeners)
  }

  function EndingFor(kind: RequestType, response: Response): Ending {
    if kind != response.kind then Rejected(WrongType)
    else if !response.ok then Rejected(RemoteError)
    else Succeeded(response)
  }

  /** A reply to a request that is not pending is a protocol error, which fails the client. */
  function Receive(c: Client, message: Incoming): Client {
    match message
    case OtherEvent => c
    case ErrorEvent => Fail(c)
    case Reply(response) =>
      match Position(c.pending, response.id)
      case None => Fail(c)
      case Some(k) => Settle(c, k, EndingFor(c.pending[k].kind, response))
  }

  /** A listener added after the failure is called at once. */
  function OnFailure(c: Client, listener: nat): Client {
    c.(listeners := if listener in c.listeners then c.listeners else c.listeners + [listener],
       notified := if c.failed then c.notified + [listener] else c.notified)
  }

  function RemoveListener(listeners: seq<nat>, listener: nat): seq<nat> {
    if listeners == [] then []
    else if listeners[0] == listener then listeners[1..]
    else [listeners[0]] + RemoveListener(listeners[1..], listener)
  }

  function Unsubscribe(c: Client, listener: nat): Client {
    c.(listeners := RemoveListener(c.listeners, listener))
  }

  function Close(c: Client): Client {
    c.(closed := true)
  }

  // ---------------------------------------------------------------- events

  datatype Event =
    | Requested(kind: RequestType)
    | Fired(id: nat)
    | Unwritten(id: nat)
    | Received(message: Incoming)
    | Broken
    | Subscribed(listener: nat)
    | Unsubscribed(listener: nat)
    | Closed

  /** Timers fire only while armed, and a request is only issued while it is accepted. */
  predicate Enabled(c: Client, e: Event) {
    match e
    case Requested(_) => Accepts(c, true)
    case Fired(id) => id in c.armed
    case _ => true
  }

  function Step(c: Client, e: Event): Client {
    match e
    case Requested(kind) => Request(c, kind)
    case Fired(id) => TimerFires(c, id)
    case Unwritten(id) => WriteFails(c, id)
    case Received(message) => Receive(c, message)
    case Broken => Fail(c)
    case Subscribed(listener) => OnFailure(c, listener)
    case Unsubscribed(listener) => Unsubscribe(c, listener)
    case Closed => Close(c)
  }

  /** A run of events; None as soon as one of them cannot happen. */
  function Run(c: Client, events: seq<Event>): Option<Client>
    decreases |events|
  {
    if events == [] then Some(c)
    else if !Enabled(c, events[0]) then None
    else Run(Step(c, events[0]), events[1..])
  }

  // ---------------------------------------------------------------- what every event keeps

  /** The settlements of one request. */
  function Times(settled: seq<Settlement>, id: nat): nat {
    if settled == [] then 0
    else Times(settled[..|settled| - 1], id) + if settled[|settled| - 1].id == id then 1 else 0
  }

  /** Two settlements of one request are counted twice. */
  lemma TwiceCounted(settled: seq<Settlement>, i: nat, j: nat)
    requires i < j < |settled| && settled[i].id == settled[j].id
    ensures Times(settled, settled[i].id) >= 2
  {
    var id := settled[i].id;
    CountedOnce(settled[..j], i);
    CountedFrom(settled, j);
  }

  lemma {:induction false} CountedOnce(settled: seq<Settlement>, i: nat)
    requires i < |settled|
    ensures Times(settled, settled[i].id) >= 1
  {
    if i < |settled| - 1 {
      CountedOnce(settled[..|settled| - 1], i);
    }
  }

  lemma {:induction false} CountedFrom(settled: seq<Settlement>, j: nat)
    requires j < |settled|
    ensures Times(settled, settled[j].id) >= Times(settled[..j], settled[j].id) + 1
    decreases |settled|
  {
    if j < |settled| - 1 {
      CountedFrom(settled[..|settled| - 1], j);
      assert settled[..|settled| - 1][..j] == settled[..j];
    }
  }

  lemma {:induction false} TimesConcat(a: seq<Settlement>, b: seq<Settlement>, id: nat)
    ensures Times(a + b, id) == Times(a, id) + Times(b, id)
    decreases |b|
  {
    if b == [] {
      assert a + b == a;
    } else {
      assert (a + b)[..|a + b| - 1] == a + b[..|b| - 1];
      TimesConcat(a, b[..|b| - 1], id);
    }
  }

  lemma TimesOne(s: Settlement, id: nat)
    ensures Times([s], id) == if s.id == id then 1 else 0
  {
    assert [s][..0] == [];
  }

  predicate Distinct(pending: seq<Pending>) {
    forall i, j :: 0 <= i < j < |pending| ==> pending[i].id != pending[j].id
  }

  /** A settlement that succeeded carries a response with the request's own id and kind. */
  predicate SettledRight(c: Client, s: Settlement) {
    1 <= s.id <= c.counter && |c.issued| == c.counter
    && (s.ending.Succeeded? ==>
          s.ending.response.id == s.id && s.ending.response.ok && s.ending.response.kind == c.issued[s.id - 1])
  }

  predicate PendingOk(c: Client) {
    && |c.issued| == c.counter
    && Distinct(c.pending)
    && (forall i :: 0 <= i < |c.pending| ==>
          1 <= c.pending[i].id <= c.counter && c.pending[i].kind == c.issued[c.pending[i].id - 1])
    && c.armed == Ids(c.pending)
    && (c.failed ==> c.pending == [])
  }

  /** Every issued request is pending or settled, and settled at most once. */
  predicate SettledOnce(c: Client) {
    && (forall id: nat :: id in Ids(c.pending) ==> Times(c.settled, id) == 0)
    && (forall id: nat :: 1 <= id <= c.counter && id !in Ids(c.pending) ==> Times(c.settled, id) == 1)
    && (forall i :: 0 <= i < |c.settled| ==> SettledRight(c, c.settled[i]))
  }

  predicate NoRepeats(s: seq<nat>) {
    forall i, j :: 0 <= i < j < |s| ==> s[i] != s[j]
  }

  /** Listeners are called by the failure, and every one still registered after it has been called. */
  predicate ListenersOk(c: Client) {
    && NoRepeats(c.listeners)
    && (c.failed ==> forall l :: l in c.listeners ==> l in c.notified)
    && (!c.failed ==> c.notified == [])
  }

  ghost predicate Inv(c: Client) {
    PendingOk(c) && SettledOnce(c) && ListenersOk(c)
  }

  lemma IdsRemove(pending: seq<Pending>, k: nat)
    requires k < |pending| && Distinct(pending)
    ensures Ids(Remove(pending, k)) == Ids(pending) - {pending[k].id}
    ensures Distinct(Remove(pending, k))
    ensures forall p :: p in Remove(pending, k) ==> p in pending
  {
    var r := Remove(pending, k);
    forall id | id in Ids(pending) - {pending[k].id}
      ensures id in Ids(r)
    {
      var i :| 0 <= i < |pending| && pending[i].id == id;
      assert r[if i < k then i else i - 1] == pending[i];
    }
    forall id | id in Ids(r)
      ensures id in Ids(pending) - {pending[k].id}
    {
      var i :| 0 <= i < |r| && r[i].id == id;
      assert r[i] == pending[if i < k then i else i + 1];
    }
  }

  lemma IdIn(pending: seq<Pending>, k: nat)
    requires k < |pending|
    ensures pending[k].id in Ids(pending)
  {
  }

  lemma SettleOk(c: Client, k: nat, ending: Ending)
    requires Inv(c) && k < |c.pending|
    requires ending.Succeeded? ==>
               ending.response.ok && ending.response.id == c.pending[k].id && ending.response.kind == c.pending[k].kind
    ensures Inv(Settle(c, k, ending))
  {
    var r := Settle(c, k, ending);
    var id := c.pending[k].id;
    IdsRemove(c.pending, k);
    IdIn(c.pending, k);
    forall other: nat
      ensures Times(r.settled, other) == Times(c.settled, other) + if other == id then 1 else 0
    {
      TimesConcat(c.settled, [Settlement(id, ending)], other);
      TimesOne(Settlement(id, ending), other);
    }
    assert forall i :: 0 <= i < |r.pending| ==> r.pending[i] in c.pending;
    hide Remove, Ids, Times, Distinct;
  }

  lemma IdsAppend(pending: seq<Pending>, p: Pending)
    ensures Ids(pending + [p]) == Ids(pending) + {p.id}
  {
    assert (pending + [p])[|pending|] == p;
    forall id | id in Ids(pending)
      ensures id in Ids(pending + [p])
    {
      var i :| 0 <= i < |pending| && pending[i].id == id;
      assert (pending + [p])[i].id == id;
    }
  }

  lemma {:induction false} TimesFresh(settled: seq<Settlement>, id: nat)
    requires forall i :: 0 <= i < |settled| ==> settled[i].id != id
    ensures Times(settled, id) == 0
    decreases |settled|
  {
    if settled != [] {
      TimesFresh(settled[..|settled| - 1], id);
    }
  }

  lemma RequestOk(c: Client, kind: RequestType)
    requires Inv(c) && !c.failed
    ensures Inv(Request(c, kind))
  {
    var id := c.counter + 1;
    IdsAppend(c.pending, Pending(id, kind));
    TimesFresh(c.settled, id);
    hide Ids, Times;
  }

  lemma {:induction false} RejectedTimes(pending: seq<Pending>, id: nat)
    requires Distinct(pending)
    ensures Times(RejectAll(pending), id) == if id in Ids(pending) then 1 else 0
    decreases |pending|
  {
    if pending != [] {
      var front, last := pending[..|pending| - 1], pending[|pending| - 1];
      RejectedTimes(front, id);
      IdsAppend(front, last);
      assert pending == front + [last];
      assert RejectAll(pending)[..|pending| - 1] == RejectAll(front);
      assert id in Ids(front) ==> id != last.id;
    }
  }

  lemma RejectAllNext(pending: seq<Pending>, i: nat)
    requires i < |pending|
    ensures Ids(pending[..i + 1]) == Ids(pending[..i]) + {pending[i].id}
    ensures (RejectAll(pending[..i + 1])
             == RejectAll(pending[..i]) + [Settlement(pending[i].id, Rejected(ClientFailed))])
  {
    assert pending[..i + 1] == pending[..i] + [pending[i]];
    IdsAppend(pending[..i], pending[i]);
  }

  lemma FailOk(c: Client)
    requires Inv(c)
    ensures Inv(Fail(c)) && Fail(c).failed
  {
    if !c.failed {
      var r := Fail(c);
      forall id: nat
        ensures Times(r.settled, id) == Times(c.settled, id) + if id in Ids(c.pending) then 1 else 0
      {
        TimesConcat(c.settled, RejectAll(c.pending), id);
        RejectedTimes(c.pending, id);
      }
      assert Ids(r.pending) == {};
      hide Times;
    }
  }

  lemma {:induction false} RemoveListenerOk(listeners: seq<nat>, listener: nat)
    requires NoRepeats(listeners)
    ensures NoRepeats(RemoveListener(listeners, listener))
    ensures forall l :: l in RemoveListener(listeners, listener) <==> l in listeners && l != listener
  {
    if listeners != [] {
      var head, tail := listeners[0], listeners[1..];
      assert listeners == [head] + tail;
      assert head !in tail;
      RemoveListenerOk(tail, listener);
    }
  }

  lemma SubscriptionsOk(c: Client, listener: nat)
    requires Inv(c)
    ensures Inv(OnFailure(c, listener)) && Inv(Unsubscribe(c, listener)) && Inv(Close(c))
  {
    hide Times, Ids, Distinct, Position, RemoveListener;
    RemoveListenerOk(c.listeners, listener);
    assert Inv(Unsubscribe(c, listener));
    assert Inv(Close(c));
    assert Inv(OnFailure(c, listener));
    hide *;
  }

  /** Every event keeps the invariant. */
  lemma StepKeepsInv(c: Client, e: Event)
    requires Inv(c) && Enabled(c, e)
    ensures Inv(Step(c, e))
  {
    hide Inv, Settle, Times;
    match e
    case Requested(kind) => RequestOk(c, kind);
    case Fired(id) =>
      ArmedIsPending(c, id);
      SettleOk(c, Position(c.pending, id).value, Rejected(TimedOut));
    case Unwritten(id) =>
      if Position(c.pending, id).Some? {
        SettleOk(c, Position(c.pending, id).value, Rejected(WriteFailed));
      }
    case Received(message) => ReceiveOk(c, message);
    case Broken => FailOk(c);
    case Subscribed(listener) => SubscriptionsOk(c, listener);
    case Unsubscribed(listener) => SubscriptionsOk(c, listener);
    case Closed => SubscriptionsOk(c, 0);
  }

  lemma ArmedIsPending(c: Client, id: nat)
    requires Inv(c) && id in c.armed
    ensures Position(c.pending, id).Some?
  {
    hide Times;
    var i :| 0 <= i < |c.pending| && c.pending[i].id == id;
  }

  lemma ReceiveOk(c: Client, message: Incoming)
    requires Inv(c)
    ensures Inv(Receive(c, message))
  {
    hide Inv, Settle, Times;
    match message
    case OtherEvent =>
    case ErrorEvent => FailOk(c);
    case Reply(response) =>
      var k := Position(c.pending, response.id);
      if k.Some? {
        SettleOk(c, k.value, EndingFor(c.pending[k.value].kind, response));
      } else {
        FailOk(c);
      }
  }

  lemma StartOk()
    ensures Inv(START)
  {
  }

  lemma {:induction false} RunKeepsInv(c: Client, events: seq<Event>)
    requires Inv(c)
    ensures Run(c, events).Some? ==> Inv(Run(c, events).value)
    decreases |events|
  {
    hide Inv, Step, Enabled;
    if events != [] && Enabled(c, events[0]) {
      StepKeepsInv(c, events[0]);
      RunKeepsInv(Step(c, events[0]), events[1..]);
    }
  }

  // ---------------------------------------------------------------- over every run

  /**
    * After any run, every issued request is either pending with its timer armed and not settled, or no longer
    * pending, without a timer and settled exactly once.
    */
  lemma RequestsSettleOnce(events: seq<Event>, id: nat)
    requires Run(START, events).Some?
    ensures var c := Run(START, events).value;
            1 <= id <= c.counter ==>
              if id in Ids(c.pending) then id in c.armed && Times(c.settled, id) == 0
              else id !in c.armed && Times(c.settled, id) == 1
  {
    hide Run, Times;
    StartOk();
    RunKeepsInv(START, events);
  }

  /** A request only succeeds with a response of its own id and kind. */
  lemma SuccessIsCorrelated(events: seq<Event>, k: nat)
    requires Run(START, events).Some? && k < |Run(START, events).value.settled|
    requires Run(START, events).value.settled[k].ending.Succeeded?
    ensures var c := Run(START, events).value;
            var s := c.settled[k];
            1 <= s.id <= |c.issued| && s.ending.response.id == s.id && s.ending.response.ok
            && s.ending.response.kind == c.issued[s.id - 1]
  {
    hide Run, Times;
    StartOk();
    RunKeepsInv(START, events);
    assert SettledRight(Run(START, events).value, Run(START, events).value.settled[k]);
  }

  /** After a failure nothing is pending, no timer is armed, and every listener still registered has been called. */
  lemma FailureIsFinal(events: seq<Event>, listener: nat)
    requires Run(START, events).Some? && Run(START, events).value.failed
    ensures var c := Run(START, events).value;
            c.pending == [] && c.armed == {} && (listener in c.listeners ==> Calls(c.notified, listener) >= 1)
  {
    hide Run, Times;
    StartOk();
    RunKeepsInv(START, events);
    CallsMember(Run(START, events).value.notified, listener);
  }

  // ---------------------------------------------------------------- what each event settles

  predicate IsPending(c: Client, id: nat) {
    exists i :: 0 <= i < |c.pending| && c.pending[i].id == id
  }

  /** The event fails a client that has not failed: a broken transport, an error event, or a reply to no request. */
  predicate Fails(c: Client, e: Event) {
    !c.failed &&
    match e
    case Broken => true
    case Received(message) => message.ErrorEvent? || (message.Reply? && !IsPending(c, message.response.id))
    case _ => false
  }

  /** How the one request that the event settles ends, if there is one. */
  function SettledBy(c: Client, e: Event): Option<Settlement> {
    match e
    case Fired(id) => Some(Settlement(id, Rejected(TimedOut)))
    case Unwritten(id) => if IsPending(c, id) then Some(Settlement(id, Rejected(WriteFailed))) else None
    case Received(message) =>
      if message.Reply? && IsPending(c, message.response.id) then
        var r := message.response;
        if 1 <= r.id <= |c.issued| && c.issued[r.id - 1] != r.kind then Some(Settlement(r.id, Rejected(WrongType)))
        else if !r.ok then Some(Settlement(r.id, Rejected(RemoteError)))
        else Some(Settlement(r.id, Succeeded(r)))
      else None
    case _ => None
  }

  predicate Settles(c: Client, e: Event, t: Client) {
    && (t.failed <==> c.failed || Fails(c, e)) && (t.closed <==> c.closed || e == Closed)
    && (if Fails(c, e) then
          && t.pending == [] && |t.settled| == |c.settled| + |c.pending| && t.settled[..|c.settled|] == c.settled
          && forall i :: 0 <= i < |c.pending| ==>
               t.settled[|c.settled| + i] == Settlement(c.pending[i].id, Rejected(ClientFailed))
        else if SettledBy(c, e).Some? then
          && t.settled == c.settled + [SettledBy(c, e).value]
          && IsPending(c, SettledBy(c, e).value.id) && !IsPending(t, SettledBy(c, e).value.id)
          && |t.pending| == |c.pending| - 1
        else
          && t.settled == c.settled
          && t.pending == c.pending + if e.Requested? then [Pending(|c.issued| + 1, e.kind)] else [])
  }

  /**
    * In every run an event settles: all that is pending, oldest first, when it fails the client; else the one request
    * that it times out, could not write or replies to, as the reply says; and else none. Only a request adds one.
    */
  lemma EventSettles(events: seq<Event>, e: Event)
    requires Run(START, events).Some? && Enabled(Run(START, events).value, e)
    ensures var c := Run(START, events).value; Settles(c, e, Step(c, e))
  {
    hide Run, Times;
    StartOk();
    RunKeepsInv(START, events);
    StepSettles(Run(START, events).value, e);
  }

  lemma PositionPending(c: Client, id: nat)
    ensures Position(c.pending, id).Some? <==> IsPending(c, id)
  {
    hide Position;
  }

  lemma TakenSettles(c: Client, e: Event)
    requires Inv(c) && Enabled(c, e) && (e.Fired? || e.Unwritten?)
    ensures Settles(c, e, Step(c, e))
  {
    hide Times, Position, IsPending, Ids, Distinct;
    var id := e.id;
    PositionPending(c, id);
    if e.Fired? {
      ArmedIsPending(c, id);
    }
    if IsPending(c, id) {
      Gone(c, Position(c.pending, id).value);
    }
    assert c.pending + [] == c.pending;
    hide Remove;
  }

  lemma ReceivedSettles(c: Client, e: Event)
    requires Inv(c) && Enabled(c, e) && e.Received?
    ensures Settles(c, e, Step(c, e))
  {
    hide Times, Position, IsPending, Ids, Distinct;
    if e.message.Reply? {
      var id := e.message.response.id;
      PositionPending(c, id);
      if IsPending(c, id) {
        Gone(c, Position(c.pending, id).value);
      }
    }
    assert c.pending + [] == c.pending;
    hide Remove;
  }

  lemma StepSettles(c: Client, e: Event)
    requires Inv(c) && Enabled(c, e)
    ensures Settles(c, e, Step(c, e))
  {
    hide Times, Position, IsPending, Ids, Distinct, Remove;
    if e.Fired? || e.Unwritten? {
      TakenSettles(c, e);
    } else if e.Received? {
      ReceivedSettles(c, e);
    } else {
      assert c.pending + [] == c.pending;
    }
  }

  /** A request that is taken out is no longer pending. */
  lemma Gone(c: Client, k: nat)
    requires Inv(c) && k < |c.pending|
    ensures forall ending :: !IsPending(Settle(c, k, ending), c.pending[k].id)
    ensures |Remove(c.pending, k)| == |c.pending| - 1
  {
    IdsRemove(c.pending, k);
    var r := Remove(c.pending, k);
    assert forall i :: 0 <= i < |r| ==> r[i].id in Ids(r);
    hide Ids, Remove, Times;
  }

  // ---------------------------------------------------------------- how often a listener is called

  function Calls(notified: seq<nat>, listener: nat): nat {
    if notified == [] then 0
    else Calls(notified[..|notified| - 1], listener) + if notified[|notified| - 1] == listener then 1 else 0
  }

  /** How many times a run registers the listener. */
  function Registrations(events: seq<Event>, listener: nat): nat {
    if events == [] then 0
    else (if events[0] == Subscribed(listener) then 1 else 0) + Registrations(events[1..], listener)
  }

  lemma {:induction false} CallsConcat(a: seq<nat>, b: seq<nat>, listener: nat)
    ensures Calls(a + b, listener) == Calls(a, listener) + Calls(b, listener)
    decreases |b|
  {
    if b == [] {
      assert a + b == a;
    } else {
      assert (a + b)[..|a + b| - 1] == a + b[..|b| - 1];
      CallsConcat(a, b[..|b| - 1], listener);
    }
  }

  lemma {:induction false} CallsMember(s: seq<nat>, listener: nat)
    ensures Calls(s, listener) > 0 <==> listener in s
    ensures NoRepeats(s) ==> Calls(s, listener) <= 1
    decreases |s|
  {
    if s != [] {
      CallsMember(s[..|s| - 1], listener);
      assert s == s[..|s| - 1] + [s[|s| - 1]];
    }
  }

  /** Once the client has failed, only registering a listener calls it. */
  lemma {:induction false} CallsAfterFailure(c: Client, events: seq<Event>, listener: nat)
    requires Inv(c) && c.failed && Run(c, events).Some?
    ensures Calls(Run(c, events).value.notified, listener)
         == Calls(c.notified, listener) + Registrations(events, listener)
    decreases |events|
  {
    if events != [] {
      var next := Step(c, events[0]);
      StepKeepsInv(c, events[0]);
      assert next.failed;
      assert next.notified == if events[0].Subscribed? then c.notified + [events[0].listener] else c.notified;
      if events[0].Subscribed? {
        CallsConcat(c.notified, [events[0].listener], listener);
        assert [events[0].listener][..0] == [];
      }
      CallsAfterFailure(next, events[1..], listener);
    }
  }

  /**
    * A listener is called once if it is registered when the client fails, once more each time it is registered
    * after that, and never otherwise.
    */
  lemma CallsExact(before: seq<Event>, failing: Event, after: seq<Event>, listener: nat)
    requires Run(START, before).Some? && !Run(START, before).value.failed
    requires Enabled(Run(START, before).value, failing)
    requires var failed := Step(Run(START, before).value, failing);
             failed.failed && Run(failed, after).Some?
    ensures var c := Run(START, before).value;
            Calls(Run(Step(c, failing), after).value.notified, listener)
            == (if listener in c.listeners then 1 else 0) + Registrations(after, listener)
  {
    hide Run, Times;
    StartOk();
    RunKeepsInv(START, before);
    var c := Run(START, before).value;
    StepKeepsInv(c, failing);
    assert Step(c, failing).notified == c.notified + c.listeners == c.listeners;
    CallsMember(c.listeners, listener);
    CallsAfterFailure(Step(c, failing), after, listener);
  }

  /** A listener that was registered before is still so after these events. */
  function Registered(before: bool, events: seq<Event>, listener: nat): bool
    decreases |events|
  {
    if events == [] then before
    else
      Registered(events[0] == Subscribed(listener) || (before && events[0] != Unsubscribed(listener)), events[1..],
                 listener)
  }

  lemma {:induction false} StillRegistered(c: Client, events: seq<Event>, listener: nat)
    requires Inv(c) && Run(c, events).Some?
    ensures listener in Run(c, events).value.listeners <==> Registered(listener in c.listeners, events, listener)
    decreases |events|
  {
    hide Inv;
    if events != [] {
      StepKeepsInv(c, events[0]);
      ListenersMove(c, events[0], listener);
      hide Step, Enabled;
      StillRegistered(Step(c, events[0]), events[1..], listener);
    }
  }

  lemma ListenersMove(c: Client, e: Event, listener: nat)
    requires Inv(c) && Enabled(c, e)
    ensures listener in Step(c, e).listeners
       <==> e == Subscribed(listener) || (listener in c.listeners && e != Unsubscribed(listener))
  {
    hide Times, Position, Ids, RemoveListener, Distinct;
    if e.Unsubscribed? {
      RemoveListenerOk(c.listeners, e.listener);
    }
  }

  /** In every run a listener is registered exactly from a registration to the next removal. */
  lemma ListenersExact(events: seq<Event>, listener: nat)
    requires Run(START, events).Some?
    ensures listener in Run(START, events).value.listeners <==> Registered(false, events, listener)
  {
    StartOk();
    StillRegistered(START, events, listener);
  }

  /** Registering a listener again after the failure calls it a second time. */
  lemma CalledTwice()
    ensures var run := Run(START, [Subscribed(1), Broken, Subscribed(1)]);
            run.Some? && run.value.listeners == [1] && run.value.notified == [1, 1]
  {
    var a := Step(START, Subscribed(1));
    var b := Step(a, Broken);
    var events := [Subscribed(1), Broken, Subscribed(1)];
    assert events[1..] == [Broken, Subscribed(1)] && events[1..][1..] == [Subscribed(1)];
    assert Run(START, events) == Run(a, events[1..]) == Run(b, events[1..][1..]);
  }
}
