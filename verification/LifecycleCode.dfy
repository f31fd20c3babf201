/**
  * The session and the agent as the classes of the source. A method stands for the code between two awaits. Its ghost
  * parameter is the system it runs in, and its contract says that the object then shows the system after that step.
  */
module LifecycleCode {
  import opened Basics
  import opened TargetStates
  import opened Lifecycle
  import CC = ControlClient
  import opened ControlClientCode

  datatype SessionError = InvalidState(state: TargetState) | NotRequested(error: RequestError) | Rejected | NoSummary

  /** The call that awaits settlement k, a request of this kind, continues with this ending. */
  ghost predicate Awaits(s: System, k: nat, kind: RequestType, ending: CC.Ending) {
    && Enabled(s, Resumed(k))
    && s.client.issued[s.client.settled[k].id - 1] == kind
    && s.client.settled[k].ending == ending
  }

  class ManagedTargetSession {
    const machine: TargetStateMachine
    const client: ControlClient

    ghost predicate Shows(s: System)
      reads machine, client
    {
      machine.state == s.session && client.View() == s.client
    }

    /** Registers the failure listener; a client that has failed already calls it at once. */
    constructor (c: ControlClient)
      modifies c
      ensures client == c && fresh(machine)
      ensures c.View() == CC.OnFailure(old(c.View()), LISTENER)
      ensures machine.state == if c.failed then Failed else Ready
    {
      machine := new TargetStateMachine(Ready);
      client := c;
      new;
      c.OnFailure(LISTENER);
      if c.failed {
        OnClientFailure();
      }
    }

    /** The failure listener. */
    method OnClientFailure()
      modifies machine
      ensures machine.state == if old(machine.state) == Stopped then Stopped else Failed
    {
      if CanTransition(machine.state, Failed) {
        var _ := machine.Transition(Failed);
      }
    }

    /** startMetrics up to its await. */
    method StartMetrics(writable: bool, ghost s: System) returns (r: Result<nat, SessionError>)
      requires Shows(s)
      modifies client
      ensures Shows(Lifecycle.StartMetrics(s, writable))
      ensures r.Ok? <==> s.session == Ready && CC.Accepts(s.client, writable)
      ensures r.Ok? ==> Lifecycle.StartMetrics(s, writable).toAgent == s.toAgent + [Command(r.value, CC.MetricsStart)]
    {
      if !CanTransition(machine.state, Measuring) {
        return Err(InvalidState(machine.state));
      }
      var request := client.Request(CC.MetricsStart, writable);
      if request.Err? {
        return Err(NotRequested(request.error));
      }
      return Ok(request.value);
    }

    /** startMetrics after its await. */
    method MetricsStarted(ending: CC.Ending, ghost s: System, ghost k: nat) returns (r: Result<(), SessionError>)
      requires Shows(s) && Awaits(s, k, CC.MetricsStart, ending)
      modifies machine
      ensures Shows(Resume(s, k))
      ensures r.Ok? <==> ending.Succeeded? && s.session == Ready
      ensures machine.state == if r.Ok? then Measuring else old(machine.state)
    {
      if ending.Rejected? {
        return Err(Rejected);
      }
      var moved := machine.Transition(Measuring);
      if moved.Err? {
        return Err(InvalidState(moved.error));
      }
      return Ok(());
    }

    /** stopMetrics up to its await. */
    method StopMetrics(writable: bool, ghost s: System) returns (r: Result<nat, SessionError>)
      requires Shows(s)
      modifies client
      ensures Shows(Lifecycle.StopMetrics(s, writable))
      ensures r.Ok? <==> s.session in {Starting, Measuring} && CC.Accepts(s.client, writable)
      ensures r.Ok? ==> Lifecycle.StopMetrics(s, writable).toAgent == s.toAgent + [Command(r.value, CC.MetricsStop)]
    {
      if !CanTransition(machine.state, Ready) {
        return Err(InvalidState(machine.state));
      }
      var request := client.Request(CC.MetricsStop, writable);
      if request.Err? {
        return Err(NotRequested(request.error));
      }
      return Ok(request.value);
    }

    /** stopMetrics after its await: a summary that is no object leaves the session as it is. */
    method MetricsStopped(ending: CC.Ending, ghost s: System, ghost k: nat) returns (r: Result<(), SessionError>)
      requires Shows(s) && Awaits(s, k, CC.MetricsStop, ending)
      modifies machine
      ensures Shows(Resume(s, k))
      ensures r.Ok? <==> ending.Succeeded? && ending.response.isObject && s.session in {Starting, Measuring}
      ensures machine.state == if r.Ok? then Ready else old(machine.state)
    {
      if ending.Rejected? {
        return Err(Rejected);
      }
      if !ending.response.isObject {
        return Err(NoSummary);
      }
      var moved := machine.Transition(Ready);
      if moved.Err? {
        return Err(InvalidState(moved.error));
      }
      return Ok(());
    }

    /** stop up to its await; None when it returns without asking the agent. */
    method Stop(writable: bool, ghost s: System) returns (r: Result<Option<nat>, SessionError>)
      requires Shows(s)
      modifies machine, client
      ensures Shows(Lifecycle.Stop(s, writable))
      ensures (r.Ok? && r.value.Some?) <==> s.session in {Ready, Measuring} && CC.Accepts(s.client, writable)
      ensures machine.state == if r.Ok? && r.value.Some? then Stopping
                               else if old(machine.state) in {Ready, Measuring} then Failed else old(machine.state)
      ensures (r.Ok? && r.value.Some?) ==>
                Lifecycle.Stop(s, writable).toAgent == s.toAgent + [Command(r.value.value, CC.TargetStop)]
      ensures (r.Ok? && r.value.None?) <==> s.session == Stopped || s.session == Failed
    {
      if machine.state == Stopped {
        return Ok(None);
      }
      if machine.state == Failed {
        client.Close();
        return Ok(None);
      }
      var moved := machine.Transition(Stopping);
      if moved.Err? {
        return Err(InvalidState(moved.error));
      }
      var request := client.Request(CC.TargetStop, writable);
      if request.Err? {
        OnClientFailure();
        client.Close();
        return Err(NotRequested(request.error));
      }
      return Ok(Some(request.value));
    }

    /** stop after its await: whatever the ending, the client is closed. */
    method StopEnds(ending: CC.Ending, ghost s: System, ghost k: nat) returns (r: Result<(), SessionError>)
      requires Shows(s) && Awaits(s, k, CC.TargetStop, ending)
      modifies machine, client
      ensures Shows(Resume(s, k))
      ensures r.Ok? <==> ending.Succeeded? && s.session == Stopping
      ensures r.Ok? ==> machine.state == Stopped
      ensures r.Err? ==> machine.state == if old(machine.state) == Stopped then Stopped else Failed
      ensures client.closed
    {
      r := Ok(());
      if ending.Rejected? {
        r := Err(Rejected);
      } else {
        var moved := machine.Transition(Stopped);
        if moved.Err? {
          r := Err(InvalidState(moved.error));
        }
      }
      if r.Err? {
        OnClientFailure();
      }
      client.Close();
    }
  }

  /** The agent once target:start has completed. `busy` is the command whose handling awaits the target. */
  class BenchkitAgent {
    const machine: TargetStateMachine
    var alive: bool
    var targetExpectedExit: bool
    var busy: Option<Command>

    ghost function View(): Agent
      reads this, machine
    {
      Agent(machine.state, alive, targetExpectedExit, busy)
    }

    constructor ()
      ensures fresh(machine) && View() == Open().agent
    {
      machine := new TargetStateMachine(Ready);
      alive, targetExpectedExit, busy := true, false, None;
    }

    static function Response(command: Command, ok: bool, isObject: bool): CC.Incoming {
      CC.Reply(CC.Response(command.id, command.kind, ok, isObject))
    }

    /** Handles the next command up to its await on the target, or answers it at once. */
    method Dispatch(command: Command, ghost s: System) returns (written: seq<CC.Incoming>)
      requires View() == s.agent && busy.None? && s.toAgent != [] && s.toAgent[0] == command
      modifies this, machine
      ensures View() == Take(s).agent && Take(s).toSession == s.toSession + written
    {
      if command.kind == CC.TargetStart {
        return [Response(command, false, false)];
      }
      if command.kind == CC.MetricsStart {
        if !CanTransition(machine.state, Measuring) {
          return [Response(command, false, false)];
        }
      } else if command.kind == CC.MetricsStop {
        if !CanTransition(machine.state, Ready) {
          return [Response(command, false, false)];
        }
      } else {
        var moved := machine.Transition(Stopping);
        if moved.Err? {
          return [Response(command, false, false)];
        }
        TerminateTarget();
      }
      busy := Some(command);
      written := [];
    }

    /** Marks the exit of a running target as expected. */
    method TerminateTarget()
      modifies `targetExpectedExit
      ensures targetExpectedExit == (old(targetExpectedExit) || alive)
    {
      if !alive {
        return;
      }
      targetExpectedExit := true;
    }

    /** The command that awaited the target goes on: its transition is checked again before it is answered. */
    method Complete(isObject: bool, ghost s: System) returns (written: seq<CC.Incoming>)
      requires View() == s.agent && busy.Some?
      modifies this, machine
      ensures View() == Finish(s, isObject).agent && Finish(s, isObject).toSession == s.toSession + written
    {
      var command := busy.value;
      busy := None;
      var moved;
      if command.kind == CC.MetricsStart {
        moved := machine.Transition(Measuring);
      } else if command.kind == CC.MetricsStop {
        moved := machine.Transition(Ready);
      } else if command.kind == CC.TargetStop {
        moved := machine.Transition(Stopped);
      } else {
        moved := Err(machine.state);
      }
      if moved.Err? {
        return [Response(command, false, false)];
      }
      return [Response(command, true, isObject)];
    }

    /** The command that awaited the target fails. */
    method Reject(ghost s: System) returns (written: seq<CC.Incoming>)
      requires View() == s.agent && busy.Some?
      modifies this
      ensures View() == Refuse(s).agent && Refuse(s).toSession == s.toSession + written
    {
      written := [Response(busy.value, false, false)];
      busy := None;
    }

    /** The target's exit handler. */
    method OnTargetExit(ghost s: System) returns (written: seq<CC.Incoming>)
      requires View() == s.agent
      modifies this, machine
      ensures View() == Exit(s).agent && Exit(s).toSession == s.toSession + written
    {
      alive := false;
      written := [];
      if !targetExpectedExit && CanTransition(machine.state, Failed) {
        var _ := machine.Transition(Failed);
        written := [CC.ErrorEvent];
      }
    }

    /** Closes the agent, after reporting a fatal error. */
    method Close(fatal: bool, ghost s: System) returns (written: seq<CC.Incoming>)
      requires View() == s.agent
      modifies this
      ensures View() == AgentClose(s, fatal).agent && AgentClose(s, fatal).toSession == s.toSession + written
    {
      written := if fatal then [CC.ErrorEvent] else [];
      TerminateTarget();
    }
  }
}
