/**
  * The session (src/target-provider/session.ts), its control client and the agent (src/agent/agent.ts), joined by two
  * ordered channels.
  */
module Lifecycle {
  import opened Basics
  import opened TargetStates
  import CC = ControlClient

  type Client = CC.Client

  type RequestType = CC.RequestType

  /** The session's failure listener, the only one of its client. */
  const LISTENER: nat := 1

  datatype Command = Command(id: nat, kind: RequestType)

  /** `busy` is the command in execution; `alive` is whether the target process runs. */
  datatype Agent = Agent(state: TargetState, alive: bool, expectedExit: bool, busy: Option<Command>)

  /**
    * `resumed` are the settlements of the client whose awaiting call has already continued. `spoiled` records that a
    * metrics:stop response without a summary object has been received while measuring.
    */
  datatype System = System(
    session: TargetState,
    client: Client,
    resumed: set<nat>,
    spoiled: bool,
    toAgent: seq<Command>,
    agent: Agent,
    toSession: seq<CC.Incoming>)

  // ---------------------------------------------------------------- the session

  /** A client that has called its listener has moved the session to failed, when that is allowed. */
  function WithClient(s: System, c: Client): System {
    s.(client := c,
       session := if |c.notified| > |s.client.notified| && CanTransition(s.session, Failed) then Failed else s.session)
  }

  function Send(s: System, kind: RequestType): System {
    s.(client := CC.Request(s.client, kind), toAgent := s.toAgent + [Command(s.client.counter + 1, kind)])
  }

  function StartMetrics(s: System, writable: bool): System {
    if CanTransition(s.session, Measuring) && CC.Accepts(s.client, writable) then Send(s, CC.MetricsStart) else s
  }

  function StopMetrics(s: System, writable: bool): System {
    if CanTransition(s.session, Ready) && CC.Accepts(s.client, writable) then Send(s, CC.MetricsStop) else s
  }

  function Stop(s: System, writable: bool): System {
    if s.session == Stopped then s
    else if s.session == Failed then s.(client := CC.Close(s.client))
    else if !CanTransition(s.session, Stopping) then s
    else if CC.Accepts(s.client, writable) then Send(s.(session := Stopping), CC.TargetStop)
    else s.(session := Failed, client := CC.Close(s.client))
  }

  /** The call that awaits settlement k continues. */
  function Resume(s: System, k: nat): System
    requires k < |s.client.settled| && 1 <= s.client.settled[k].id <= |s.client.issued|
  {
    var ending := s.client.settled[k].ending;
    var t := s.(resumed := s.resumed + {k});
    match s.client.issued[s.client.settled[k].id - 1]
    case TargetStart => t
    case MetricsStart =>
      if ending.Succeeded? && CanTransition(s.session, Measuring) then t.(session := Measuring) else t
    case MetricsStop =>
      if ending.Rejected? then t
      else if !ending.response.isObject then t.(spoiled := s.spoiled || s.session == Measuring)
      else if CanTransition(s.session, Ready) then t.(session := Ready)
      else t
    case TargetStop =>
      var next := if ending.Succeeded? && CanTransition(s.session, Stopped) then Stopped
                  else if CanTransition(s.session, Failed) then Failed
                  else s.session;
      t.(session := next, client := CC.Close(s.client))
  }

  // ---------------------------------------------------------------- the agent

  /** The state a command leads to. */
  function Goal(kind: RequestType): TargetState {
    match kind
    case TargetStart => Starting
    case MetricsStart => Measuring
    case MetricsStop => Ready
    case TargetStop => Stopping
  }

  function Answer(s: System, command: Command, ok: bool, isObject: bool): System {
    s.(toSession := s.toSession + [CC.Reply(CC.Response(command.id, command.kind, ok, isObject))])
  }

  /**
    * The agent takes the next command. A command whose transition is not allowed is refused at once; target:start is
    * refused because the target has been started. Stopping moves to stopping and expects the exit of a live target.
    */
  function Take(s: System): System
    requires s.toAgent != [] && s.agent.busy.None?
  {
    var command := s.toAgent[0];
    var rest := s.(toAgent := s.toAgent[1..]);
    if command.kind == CC.TargetStart || !CanTransition(s.agent.state, Goal(command.kind)) then
      Answer(rest, command, false, false)
    else if command.kind == CC.TargetStop then
      rest.(agent := s.agent.(busy := Some(command), state := Stopping,
      expectedExit := s.agent.expectedExit || s.agent.alive))
    else
      rest.(agent := s.agent.(busy := Some(command)))
  }

  /** The command in execution ends well: the agent's transition is checked again before it answers. */
  function Finish(s: System, isObject: bool): System
    requires s.agent.busy.Some?
  {
    var command := s.agent.busy.value;
    var next := if command.kind == CC.TargetStop then Stopped else Goal(command.kind);
    var idle := s.(agent := s.agent.(busy := None));
    if CanTransition(s.agent.state, next) then
      Answer(idle.(agent := s.agent.(busy := None, state := next)), command, true, isObject)
    else Answer(idle, command, false, false)
  }

  /** The command in execution ends with an error: the target refuses, exits, cannot be reached or takes too long. */
  function Refuse(s: System): System
    requires s.agent.busy.Some?
  {
    Answer(s.(agent := s.agent.(busy := None)), s.agent.busy.value, false, false)
  }

  /** The target process ends. Unless that was expected the agent fails and reports it. */
  function Exit(s: System): System {
    if !s.agent.expectedExit && CanTransition(s.agent.state, Failed) then
      s.(agent := s.agent.(alive := false, state := Failed), toSession := s.toSession + [CC.ErrorEvent])
    else s.(agent := s.agent.(alive := false))
  }

  /** The agent closes, reporting the reason if that is an error, and terminates its target. */
  function AgentClose(s: System, fatal: bool): System {
    s.(agent := s.agent.(expectedExit := s.agent.expectedExit || s.agent.alive),
       toSession := if fatal then s.toSession + [CC.ErrorEvent] else s.toSession)
  }

  // ---------------------------------------------------------------- runs

  datatype Event =
    | CallStartMetrics(writable: bool)
    | CallStopMetrics(writable: bool)
    | CallStop(writable: bool)
    | TimerFires(id: nat)
    | WriteFails(id: nat)
    | CommandLost(k: nat)
    | TransportFails
    | Delivered
    | Resumed(k: nat)
    | Taken
    | Finished(isObject: bool)
    | Refused
    | TargetExits
    | AgentCloses(fatal: bool)

  /**
    * What can happen when. Timers fire while armed; a call continues once; a metrics command only ends well while the
    * target runs, because its exit rejects what it has been asked, and stopping only ends well after the exit.
    */
  predicate Enabled(s: System, e: Event) {
    match e
    case TimerFires(id) => id in s.client.armed
    case CommandLost(k) => k < |s.toAgent|
    case Delivered => s.toSession != []
    case Resumed(k) =>
      k < |s.client.settled| && k !in s.resumed && 1 <= s.client.settled[k].id <= |s.client.issued|
    case Taken => s.toAgent != [] && s.agent.busy.None?
    case Finished(_) => s.agent.busy.Some? && (s.agent.alive <==> s.agent.busy.value.kind != CC.TargetStop)
    case Refused => s.agent.busy.Some?
    case TargetExits => s.agent.alive
    case _ => true
  }

  function Step(s: System, e: Event): System
    requires Enabled(s, e)
  {
    match e
    case CallStartMetrics(writable) => StartMetrics(s, writable)
    case CallStopMetrics(writable) => StopMetrics(s, writable)
    case CallStop(writable) => Stop(s, writable)
    case TimerFires(id) => WithClient(s, CC.TimerFires(s.client, id))
    case WriteFails(id) => WithClient(s, CC.WriteFails(s.client, id))
    case CommandLost(k) =>
      WithClient(s.(toAgent := s.toAgent[..k] + s.toAgent[k + 1..]), CC.WriteFails(s.client, s.toAgent[k].id))
    case TransportFails => WithClient(s, CC.Fail(s.client))
    case Delivered => WithClient(s.(toSession := s.toSession[1..]), CC.Receive(s.client, s.toSession[0]))
    case Resumed(k) => Resume(s, k)
    case Taken => Take(s)
    case Finished(isObject) => Finish(s, isObject)
    case Refused => Refuse(s)
    case TargetExits => Exit(s)
    case AgentCloses(fatal) => AgentClose(s, fatal)
  }

  /** The client once target:start has been answered. */
  function Started(): Client {
    CC.Receive(CC.Request(CC.START, CC.TargetStart), CC.Reply(CC.Response(1, CC.TargetStart, true, true)))
  }

  /** The session as it is created, with its listener registered. */
  function Open(): System {
    System(Ready, CC.OnFailure(Started(), LISTENER), {0}, false, [], Agent(Ready, true, false, None), [])
  }

  /** The system before the first event and after each of them. */
  datatype Trace = Trace(states: seq<System>, events: seq<Event>)

  predicate Follows(s: System, e: Event, t: System) {
    Enabled(s, e) && t == Step(s, e)
  }

  /** State i is the opened session or follows from the one before it. */
  predicate Linked(t: Trace, i: nat)
    requires i < |t.states| == |t.events| + 1
  {
    if i == 0 then t.states[0] == Open() else Follows(t.states[i - 1], t.events[i - 1], t.states[i])
  }

  predicate IsRun(t: Trace) {
    |t.states| == |t.events| + 1 && forall i :: 0 <= i < |t.states| ==> Linked(t, i)
  }

  ghost predicate Reachable(s: System) {
    exists t :: IsRun(t) && t.states[|t.states| - 1] == s
  }
}
