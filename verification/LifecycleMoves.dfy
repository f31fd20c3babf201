/**
  * What each event does to the session, the agent and the two channels, state by state and message by message, without
  * the transition table.
  */
module LifecycleMoves {
  import opened Basics
  import opened TargetStates
  import opened Lifecycle
  import opened Lockstep
  import opened LifecycleRuns
  import CC = ControlClient

  // ---------------------------------------------------------------- the session

  /** The client has not failed, and the event makes it fail. */
  predicate FailsClient(s: System, e: Event) {
    !s.client.failed &&
    match e
    case TransportFails => true
    case Delivered =>
      s.toSession != [] &&
      (s.toSession[0].ErrorEvent?
       || (s.toSession[0].Reply? && forall i :: 0 <= i < |s.client.pending| ==>
             s.client.pending[i].id != s.toSession[0].response.id))
    case _ => false
  }

  /** The call that continues, and how its request ended. */
  predicate Continues(s: System, e: Event, kind: RequestType, succeeded: bool) {
    e.Resumed? && e.k < |s.client.settled| && 1 <= s.client.settled[e.k].id <= |s.client.issued|
    && s.client.issued[s.client.settled[e.k].id - 1] == kind
    && s.client.settled[e.k].ending.Succeeded? == succeeded
  }

  /** The call is a stop of an active session, whose request the client takes or refuses. */
  predicate Stops(s: System, e: Event, accepted: bool) {
    e.CallStop? && (s.session == Ready || s.session == Measuring)
    && accepted == (e.writable && !s.client.failed && !s.client.closed)
  }

  /**
    * In every run the session moves only so: to measuring when metrics:start succeeded, back to ready when
    * metrics:stop brought an object, to stopping when a stop was asked for, to stopped when that succeeded, and to
    * failed when it did not, when it could not be asked for, or when the client fails before the session has stopped.
    */
  lemma SessionMoves(s: System, e: Event)
    requires Reachable(s) && Enabled(s, e)
    ensures var after := Step(s, e).session;
            if s.session == Ready && Continues(s, e, CC.MetricsStart, true) then after == Measuring
            else if s.session == Measuring && Continues(s, e, CC.MetricsStop, true)
                    && s.client.settled[e.k].ending.response.isObject then after == Ready
            else if Stops(s, e, true) then after == Stopping
            else if Stops(s, e, false) then after == Failed
            else if s.session == Stopping && Continues(s, e, CC.TargetStop, true) then after == Stopped
            else if s.session == Stopping && Continues(s, e, CC.TargetStop, false) then after == Failed
            else if FailsClient(s, e) && s.session != Stopped then after == Failed
            else after == s.session
  {
    hide Inv, Reachable;
    ReachableOk(s);
    match e {
      case TransportFails =>
        FailNotifies(s);
      case Delivered =>
        FailNotifies(s);
        ReceiveFails(s);
      case Resumed(k) => ResumeMoves(s, k);
      case TimerFires(id) => SettlesOnly(s, id);
      case WriteFails(id) => SettlesOnly(s, id);
      case CommandLost(k) => SettlesOnly(s, s.toAgent[k].id);
      case _ =>
    }
  }

  lemma ActiveStates(s: System)
    requires Inv(s)
    ensures s.session != Starting
    ensures CC.TargetStop in s.client.issued ==> s.session != Ready && s.session != Measuring
    ensures s.client.listeners == [LISTENER]
  {
    hide CC.Inv, Wired, Locked;
  }

  /** A client that fails calls the session's listener. */
  lemma FailNotifies(s: System)
    requires Inv(s)
    ensures var r := WithClient(s, CC.Fail(s.client));
            r.session == if !s.client.failed && s.session != Stopped then Failed else s.session
  {
    ActiveStates(s);
    hide Inv;
  }

  lemma ReceiveFails(s: System)
    requires Inv(s) && s.toSession != []
    ensures var c := CC.Receive(s.client, s.toSession[0]);
            if FailsClient(s, Delivered) then c == CC.Fail(s.client) else c.notified == s.client.notified
  {
    hide Inv;
    var message := s.toSession[0];
    if message.Reply? && CC.Position(s.client.pending, message.response.id).Some? {
      var k := CC.Position(s.client.pending, message.response.id).value;
      assert s.client.pending[k].id == message.response.id;
    }
  }

  lemma SettlesOnly(s: System, id: nat)
    ensures CC.TimerFires(s.client, id).notified == s.client.notified
    ensures CC.WriteFails(s.client, id).notified == s.client.notified
  {
  }

  lemma ResumeMoves(s: System, k: nat)
    requires Inv(s) && Enabled(s, Resumed(k))
    ensures var after := Resume(s, k).session;
            if s.session == Ready && Continues(s, Resumed(k), CC.MetricsStart, true) then after == Measuring
            else if s.session == Measuring && Continues(s, Resumed(k), CC.MetricsStop, true)
                    && s.client.settled[k].ending.response.isObject then after == Ready
            else if s.session == Stopping && Continues(s, Resumed(k), CC.TargetStop, true) then after == Stopped
            else if s.session == Stopping && Continues(s, Resumed(k), CC.TargetStop, false) then after == Failed
            else after == s.session
  {
    ActiveStates(s);
    assert s.client.issued[s.client.settled[k].id - 1] in s.client.issued;
    hide Inv;
  }

  // ---------------------------------------------------------------- the agent

  /** What the agent writes: a reply to a command. */
  function ReplyTo(command: Command, ok: bool, isObject: bool): CC.Incoming {
    CC.Reply(CC.Response(command.id, command.kind, ok, isObject))
  }

  /** The agent may carry out the command in this state; one that starts the target it may not. */
  predicate Fits(state: TargetState, kind: RequestType) {
    match kind
    case TargetStart => false
    case MetricsStart => state == Ready
    case MetricsStop => state == Measuring
    case TargetStop => state == Ready || state == Measuring
  }

  /** Where a command that ends well takes the agent, if it still is in the command's state. */
  function Carried(state: TargetState, kind: RequestType): Option<TargetState> {
    match kind
    case TargetStart => None
    case MetricsStart => if state == Ready then Some(Measuring) else None
    case MetricsStop => if state == Measuring then Some(Ready) else None
    case TargetStop => if state == Stopping then Some(Stopped) else None
  }

  /** In every run the agent never is starting. */
  lemma {:induction false} NeverStarting(t: Trace, i: nat)
    requires IsRun(t) && i < |t.states|
    ensures t.states[i].agent.state != Starting
  {
    hide Step, Enabled, Open;
    assert Linked(t, i);
    if i == 0 {
      OpenIs();
    } else {
      NeverStarting(t, i - 1);
      AgentLeaves(t.states[i - 1], t.events[i - 1]);
    }
  }

  lemma AgentLeaves(s: System, e: Event)
    requires Enabled(s, e) && s.agent.state != Starting
    ensures Step(s, e).agent.state != Starting
  {
  }

  lemma ReachableNotStarting(s: System)
    requires Reachable(s)
    ensures s.agent.state != Starting
  {
    hide Linked;
    var t :| IsRun(t) && t.states[|t.states| - 1] == s;
    NeverStarting(t, |t.states| - 1);
  }

  /**
    * Taking a command: one that does not fit the agent's state is refused at once; another is taken in hand, and a stop
    * moves the agent to stopping and expects the exit of a live target.
    */
  lemma TakenMoves(s: System)
    requires Reachable(s) && Enabled(s, Taken)
    ensures var (command, t) := (s.toAgent[0], Step(s, Taken));
            && t.toAgent == s.toAgent[1..] && t.client == s.client && t.session == s.session
            && if !Fits(s.agent.state, command.kind)
               then t.agent == s.agent && t.toSession == s.toSession + [ReplyTo(command, false, false)]
               else
                 && t.toSession == s.toSession && t.agent.busy == Some(command) && t.agent.alive == s.agent.alive
                 && t.agent.state == (if command.kind.TargetStop? then Stopping else s.agent.state)
                 && t.agent.expectedExit == (s.agent.expectedExit || (command.kind.TargetStop? && s.agent.alive))
  {
    hide Reachable;
    ReachableNotStarting(s);
  }

  /** A command in hand that ends well moves the agent on and is answered well, unless the agent has left its state. */
  lemma FinishedMoves(s: System, isObject: bool)
    requires Reachable(s) && Enabled(s, Finished(isObject))
    ensures var (command, t) := (s.agent.busy.value, Step(s, Finished(isObject)));
            && t.toAgent == s.toAgent && t.client == s.client && t.session == s.session
            && var next := Carried(s.agent.state, command.kind);
               && t.agent == s.agent.(busy := None, state := if next.Some? then next.value else s.agent.state)
               && t.toSession == s.toSession + [ReplyTo(command, next.Some?, next.Some? && isObject)]
  {
    hide Reachable;
    ReachableNotStarting(s);
  }

  /** The other events of the agent: an error answer, the exit of the target and closing. */
  lemma OtherMoves(s: System, fatal: bool)
    requires Reachable(s)
    ensures Enabled(s, Refused) ==>
              (Step(s, Refused)
               == s.(agent := s.agent.(busy := None),
                     toSession := s.toSession + [ReplyTo(s.agent.busy.value, false, false)]))
    ensures Enabled(s, TargetExits) ==>
              var failing := !s.agent.expectedExit && s.agent.state != Stopped && s.agent.state != Failed;
              (Step(s, TargetExits)
               == s.(agent := s.agent.(alive := false, state := if failing then Failed else s.agent.state),
                     toSession := s.toSession + if failing then [CC.ErrorEvent] else []))
    ensures (Step(s, AgentCloses(fatal))
             == s.(agent := s.agent.(expectedExit := s.agent.expectedExit || s.agent.alive),
                   toSession := s.toSession + if fatal then [CC.ErrorEvent] else []))
  {
    hide Reachable;
    ReachableNotStarting(s);
    assert s.toSession + [] == s.toSession;
  }

  /** The session's calls put one command at the end of the channel, with the next id, or none. */
  lemma CallsMove(s: System, e: Event)
    requires Reachable(s) && (e.CallStartMetrics? || e.CallStopMetrics? || e.CallStop?)
    ensures var (accepted, t) := (e.writable && !s.client.failed && !s.client.closed, Step(s, e));
            && t.agent == s.agent && t.toSession == s.toSession && t.resumed == s.resumed && t.spoiled == s.spoiled
            && var kind := if e.CallStartMetrics? && s.session == Ready then Some(CC.MetricsStart)
                           else if e.CallStopMetrics? && s.session == Measuring then Some(CC.MetricsStop)
                           else if e.CallStop? && (s.session == Ready || s.session == Measuring)
                           then Some(CC.TargetStop)
                           else None;
               if accepted && kind.Some? then
                 && t.toAgent == s.toAgent + [Command(|s.client.issued| + 1, kind.value)]
                 && t.client.issued == s.client.issued + [kind.value]
               else t.toAgent == s.toAgent && t.client.issued == s.client.issued
  {
    hide Reachable;
    ReachableOk(s);
    ActiveStates(s);
    CounterIs(s);
    hide Inv;
  }

  lemma CounterIs(s: System)
    requires Inv(s)
    ensures |s.client.issued| == s.client.counter
  {
    hide Wired, Locked, CC.Times;
  }
}
