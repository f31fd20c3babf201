/** The invariant of session, client, channels and agent, and the theorems over every run. */
module LifecycleRuns {
  import opened Basics
  import opened TargetStates
  import opened Lifecycle
  import opened Lockstep
  import CC = ControlClient

  /** The agent has answered target:stop well, or the session has taken that answer in. */
  ghost predicate StopAnswered(s: System) {
    || s.session == Stopped
    || (exists i :: OkAt(s.toSession, i) && s.toSession[i].response.kind == CC.TargetStop)
    || (exists k :: 0 <= k < |s.client.settled| && StopSettled(s.client.settled[k]))
  }

  predicate StopSettled(settlement: CC.Settlement) {
    settlement.ending.Succeeded? && settlement.ending.response.kind == CC.TargetStop
  }

  /** The client: its own invariant, its only listener, and what its failure and target:stop mean for the session. */
  ghost predicate ClientOk(s: System) {
    && CC.Inv(s.client)
    && s.client.listeners == [LISTENER]
    && s.session != Starting
    && (s.client.failed ==> s.session == Failed || s.session == Stopped)
    && (CC.TargetStop in s.client.issued ==> !Active(s.session))
    && (forall k :: k in s.resumed ==> k < |s.client.settled|)
  }

  ghost predicate LockedOk(s: System) {
    Active(s.session) ==>
      Locked(s.session, s.agent.state, s.spoiled, s.client.settled, s.resumed, Unanswered(s), s.toSession)
  }

  ghost predicate StopOk(s: System) {
    StopAnswered(s) ==> s.agent.state == Stopped && !s.agent.alive
  }

  ghost predicate Inv(s: System) {
    ClientOk(s) && Wired(s.client, Unanswered(s), s.toSession) && LockedOk(s) && StopOk(s)
  }

  lemma StartedInv()
    ensures CC.Inv(Started())
  {
    var b := CC.Request(CC.START, CC.TargetStart);
    CC.StartOk();
    CC.RequestOk(CC.START, CC.TargetStart);
    hide CC.Inv, CC.Request, CC.Receive;
    CC.ReceiveOk(b, CC.Reply(CC.Response(1, CC.TargetStart, true, true)));
  }

  lemma StartedIs()
    ensures Started() == CC.Client([], {}, 1, false, false, [], [CC.TargetStart],
                                   [CC.Settlement(1, CC.Succeeded(CC.Response(1, CC.TargetStart, true, true)))], [])
  {
    hide CC.Position, CC.Remove;
    var b := CC.Client([CC.Pending(1, CC.TargetStart)], {1}, 1, false, false, [], [CC.TargetStart], [], []);
    var reply := CC.Response(1, CC.TargetStart, true, true);
    assert CC.Request(CC.START, CC.TargetStart) == b;
    OnlyPending(b.pending[0]);
    assert CC.Receive(b, CC.Reply(reply)) == CC.Settle(b, 0, CC.Succeeded(reply));
    assert {1} - {1} == {};
    hide CC.Receive;
  }

  lemma OnlyPending(p: CC.Pending)
    ensures CC.Position([p], p.id) == Some(0) && CC.Remove([p], 0) == []
  {
  }

  lemma StartedOk()
    ensures CC.Inv(Started())
    ensures Started() == CC.Client([], {}, 1, false, false, [], [CC.TargetStart],
                                   [CC.Settlement(1, CC.Succeeded(CC.Response(1, CC.TargetStart, true, true)))], [])
  {
    StartedInv();
    StartedIs();
    hide *;
  }

  /** The opened system in full. */
  lemma OpenIs()
    ensures Open() == System(
      Ready,
      CC.Client([], {}, 1, false, false, [LISTENER], [CC.TargetStart],
                [CC.Settlement(1, CC.Succeeded(CC.Response(1, CC.TargetStart, true, true)))], []),
      {0}, false, [], Agent(Ready, true, false, None), [])
    ensures CC.Inv(Open().client)
  {
    StartedOk();
    hide Started, CC.Inv;
    CC.SubscriptionsOk(Started(), LISTENER);
  }

  /** With nothing on the way and every call continued, the two sides only have to be in the same state. */
  lemma QuietOk(s: System)
    requires Unanswered(s) == [] && s.toSession == [] && s.agent.state == s.session == Ready && !s.spoiled
    requires forall k :: 0 <= k < |s.client.settled| ==> k in s.resumed && !StopSettled(s.client.settled[k])
    ensures Wired(s.client, Unanswered(s), s.toSession) && LockedOk(s) && StopOk(s)
  {
    assert forall k :: !WaitingAt(s.client.settled, s.resumed, k);
    assert forall i :: !OkAt(s.toSession, i);
  }

  lemma OpenOk()
    ensures Inv(Open())
  {
    OpenIs();
    hide CC.Inv, Open;
    QuietOk(Open());
    hide Wired, LockedOk, StopOk;
  }

  // ---------------------------------------------------------------- the session's steps

  lemma SendOk(s: System, kind: RequestType)
    requires Inv(s) && !s.client.failed
    requires Active(s.session) && kind == Current(s.session)
    ensures Inv(Send(s, kind))
  {
    hide CC.Inv, Wired, Locked;
    var t := Send(s, kind);
    CC.RequestOk(s.client, kind);
    WiredSend(s.client, Unanswered(s), s.toSession, kind);
    LockedSend(s.session, s.agent.state, s.spoiled, s.client.settled, s.resumed, Unanswered(s), s.toSession,
               s.client.counter + 1);
    assert Unanswered(t) == Unanswered(s) + [Command(s.client.counter + 1, kind)];
  }

  lemma CloseOk(s: System)
    requires Inv(s)
    ensures Inv(s.(client := CC.Close(s.client)))
  {
    hide CC.Inv, Locked, AllSound, InOrder;
    CC.SubscriptionsOk(s.client, 0);
    WiredClosed(s.client, Unanswered(s), s.toSession);
  }

  lemma StopCallOk(s: System, writable: bool)
    requires Inv(s)
    ensures Inv(Stop(s, writable))
  {
    hide CC.Inv, Wired, Locked;
    CloseOk(s);
    if Active(s.session) && CC.Accepts(s.client, writable) {
      var t := Stop(s, writable);
      CC.RequestOk(s.client, CC.TargetStop);
      WiredSend(s.client, Unanswered(s), s.toSession, CC.TargetStop);
      assert Unanswered(t) == Unanswered(s) + [Command(s.client.counter + 1, CC.TargetStop)];
    }
  }

  /** A settlement that has succeeded answers a request of the kind in its response. */
  lemma SettledKind(s: System, k: nat)
    requires CC.Inv(s.client) && k < |s.client.settled|
    ensures 1 <= s.client.settled[k].id <= |s.client.issued|
    ensures s.client.settled[k].ending.Succeeded? ==>
              s.client.settled[k].ending.response.kind == s.client.issued[s.client.settled[k].id - 1]
  {
    assert CC.SettledRight(s.client, s.client.settled[k]);
  }

  lemma ResumeStopOk(s: System, k: nat)
    requires Inv(s) && Enabled(s, Resumed(k))
    requires s.client.issued[s.client.settled[k].id - 1] == CC.TargetStop
    ensures Inv(Resume(s, k))
  {
    hide CC.Inv, Locked, OkAt, Wired, StopAnswered;
    SettledKind(s, k);
    CC.SubscriptionsOk(s.client, 0);
    assert CC.TargetStop in s.client.issued;
    assert Unanswered(Resume(s, k)) == Unanswered(s);
    WiredClosed(s.client, Unanswered(s), s.toSession);
    ResumeStopAnswered(s, k);
  }

  /** What ends the stopping call is an answer that the agent gave when it had stopped. */
  lemma ResumeStopAnswered(s: System, k: nat)
    requires Inv(s) && Enabled(s, Resumed(k))
    requires s.client.issued[s.client.settled[k].id - 1] == CC.TargetStop
    ensures StopAnswered(Resume(s, k)) ==> StopAnswered(s)
  {
    hide CC.Inv, Locked, OkAt, Wired;
    SettledKind(s, k);
    assert s.client.settled[k].ending.Succeeded? ==> StopSettled(s.client.settled[k]);
  }

  lemma WiredClosed(c: Client, q: seq<Command>, m: seq<CC.Incoming>)
    requires Wired(c, q, m)
    ensures Wired(CC.Close(c), q, m)
  {
  }

  lemma ResumeMetricsOk(s: System, k: nat)
    requires Inv(s) && Enabled(s, Resumed(k))
    requires s.client.issued[s.client.settled[k].id - 1] != CC.TargetStop
    ensures Inv(Resume(s, k))
  {
    hide CC.Inv, Locked, Wired, OkAt;
    SettledKind(s, k);
    ResumeLocked(s, k);
    hide LockedOk;
  }

  lemma ResumeLocked(s: System, k: nat)
    requires Inv(s) && Enabled(s, Resumed(k))
    requires s.client.issued[s.client.settled[k].id - 1] != CC.TargetStop
    ensures LockedOk(Resume(s, k))
  {
    hide CC.Inv, Locked, Wired, OkAt;
    SettledKind(s, k);
    if Active(s.session) {
      if s.client.settled[k].ending.Succeeded? {
        ResumedKind(s, k);
        LockedResumeOk(s.session, s.agent.state, s.spoiled, s.client.settled, s.resumed, Unanswered(s), s.toSession, k);
      } else {
        LockedResumeRejected(s.session, s.agent.state, s.spoiled, s.client.settled, s.resumed, Unanswered(s),
                             s.toSession, k);
      }
    }
  }

  lemma ResumeOk(s: System, k: nat)
    requires Inv(s) && Enabled(s, Resumed(k))
    ensures Inv(Resume(s, k))
  {
    hide Inv, Resume;
    if s.client.issued[s.client.settled[k].id - 1] == CC.TargetStop {
      ResumeStopOk(s, k);
    } else {
      ResumeMetricsOk(s, k);
    }
  }

  lemma ResumedKind(s: System, k: nat)
    requires Inv(s) && Active(s.session) && WaitingAt(s.client.settled, s.resumed, k)
    ensures s.client.settled[k].ending.response.kind == Current(s.session)
  {
    hide CC.Inv, Wired;
  }

  // ---------------------------------------------------------------- the client's steps

  lemma TransportOk(s: System)
    requires Inv(s)
    ensures Inv(WithClient(s, CC.Fail(s.client)))
  {
    CC.FailOk(s.client);
    var c := CC.Fail(s.client);
    WiredFailed(s.client, c, Unanswered(s), s.toSession);
    FailSettlesNoStop(s.client);
    hide CC.Inv, Wired, Locked;
    var t := WithClient(s, c);
    assert s.client.failed || c.notified == s.client.notified + s.client.listeners;
    assert Unanswered(t) == Unanswered(s);
  }

  lemma FailSettlesNoStop(c: Client)
    ensures forall k :: 0 <= k < |CC.Fail(c).settled| && StopSettled(CC.Fail(c).settled[k]) ==>
                          k < |c.settled| && CC.Fail(c).settled[k] == c.settled[k]
    ensures |CC.Fail(c).settled| >= |c.settled|
  {
  }

  lemma GiveUpOk(s: System, k: nat, ending: CC.Ending)
    requires Inv(s) && k < |s.client.pending|
    requires ending == CC.Rejected(CC.TimedOut) || ending == CC.Rejected(CC.WriteFailed)
    ensures Inv(WithClient(s, CC.Settle(s.client, k, ending)))
  {
    CC.SettleOk(s.client, k, ending);
    WiredGiveUp(s.client, Unanswered(s), s.toSession, k, ending);
    hide CC.Inv, Wired, Locked;
    var c := CC.Settle(s.client, k, ending);
    var settlement := CC.Settlement(s.client.pending[k].id, ending);
    var t := WithClient(s, c);
    assert c.settled == s.client.settled + [settlement];
    assert t.session == s.session && Unanswered(t) == Unanswered(s);
    if Active(s.session) {
      LockedRejected(s.session, s.agent.state, s.spoiled, s.client.settled, s.resumed, Unanswered(s), s.toSession,
                     settlement);
    }
    assert forall j :: 0 <= j < |c.settled| && StopSettled(c.settled[j]) ==> j < |s.client.settled|;
  }

  lemma WriteFailsOk(s: System, id: nat)
    requires Inv(s)
    ensures Inv(WithClient(s, CC.WriteFails(s.client, id)))
  {
    hide Inv, CC.Settle;
    if CC.Position(s.client.pending, id).Some? {
      GiveUpOk(s, CC.Position(s.client.pending, id).value, CC.Rejected(CC.WriteFailed));
    } else {
      assert WithClient(s, CC.WriteFails(s.client, id)) == s;
    }
  }

  lemma LostOk(s: System, k: nat)
    requires Inv(s) && k < |s.toAgent|
    ensures Inv(s.(toAgent := s.toAgent[..k] + s.toAgent[k + 1..]))
  {
    var t := s.(toAgent := s.toAgent[..k] + s.toAgent[k + 1..]);
    var q := Unanswered(s);
    var j := if s.agent.busy.Some? then k + 1 else k;
    assert Unanswered(t) == q[..j] + q[j + 1..];
    hide CC.Inv, Wired, Locked;
    WiredLost(s.client, q, s.toSession, j);
    if Active(s.session) {
      LockedLost(s.session, s.agent.state, s.spoiled, s.client.settled, s.resumed, q, s.toSession, j);
    }
  }

  /** The reply at the head of the channel settles its request as the agent ended it. */
  lemma DeliveredEnding(s: System)
    requires Inv(s) && s.toSession != [] && s.toSession[0].Reply?
    ensures var response := s.toSession[0].response;
            var k := CC.Position(s.client.pending, response.id);
            k.Some? ==> (s.client.pending[k.value].kind == response.kind
                         && CC.EndingFor(s.client.pending[k.value].kind, response)
                            == if response.ok then CC.Succeeded(response) else CC.Rejected(CC.RemoteError))
  {
    hide Locked;
  }

  /** A message that fails the client moves the session to failed. */
  lemma DeliverFailing(s: System)
    requires Inv(s) && s.toSession != [] && CC.Receive(s.client, s.toSession[0]) == CC.Fail(s.client)
    ensures Inv(Step(s, Delivered))
  {
    hide CC.Inv, Wired, Locked, CC.Receive;
    CC.FailOk(s.client);
    WiredDeliver(s.client, Unanswered(s), s.toSession);
    FailSettlesNoStop(s.client);
    assert forall i :: OkAt(s.toSession[1..], i) ==> OkAt(s.toSession, i + 1);
    var c := CC.Fail(s.client);
    assert s.client.failed || c.notified == s.client.notified + s.client.listeners;
    assert c.failed && c.issued == s.client.issued && c.listeners == s.client.listeners;
    hide CC.Fail;
    var t := Step(s, Delivered);
    assert Unanswered(t) == Unanswered(s) && t.client == c;
    assert ClientOk(t) && LockedOk(t);
    assert StopOk(t);
    hide ClientOk, LockedOk, StopOk, Step, WithClient;
  }

  lemma DeliverOther(s: System)
    requires Inv(s) && s.toSession != [] && s.toSession[0].OtherEvent?
    ensures Inv(Step(s, Delivered))
  {
    WiredDeliver(s.client, Unanswered(s), s.toSession);
    assert forall i :: OkAt(s.toSession[1..], i) ==> OkAt(s.toSession, i + 1);
    if Active(s.session) {
      LockedOther(s.session, s.agent.state, s.spoiled, s.client.settled, s.resumed, Unanswered(s), s.toSession);
    }
    hide CC.Inv, Wired, Locked;
    assert Unanswered(Step(s, Delivered)) == Unanswered(s);
  }

  lemma DeliverReply(s: System, k: nat)
    requires Inv(s) && s.toSession != [] && s.toSession[0].Reply?
    requires CC.Position(s.client.pending, s.toSession[0].response.id) == Some(k)
    ensures Inv(Step(s, Delivered))
  {
    var message := s.toSession[0];
    CC.ReceiveOk(s.client, message);
    WiredDeliver(s.client, Unanswered(s), s.toSession);
    DeliveredEnding(s);
    var settlement := CC.Settlement(message.response.id, CC.EndingFor(s.client.pending[k].kind, message.response));
    var c := CC.Receive(s.client, message);
    assert c == CC.Settle(s.client, k, settlement.ending);
    assert c.settled == s.client.settled + [settlement];
    assert c.listeners == s.client.listeners && c.issued == s.client.issued && c.failed == s.client.failed;
    if Active(s.session) {
      assert |s.client.settled| !in s.resumed;
      LockedDeliver(s.session, s.agent.state, s.spoiled, s.client.settled, s.resumed, Unanswered(s), s.toSession,
                    settlement);
    }
    DeliverStopOk(s, settlement);
    hide CC.Inv, Wired, Locked, CC.Receive, CC.Settle, StopAnswered, Sound;
    assert Step(s, Delivered) == s.(toSession := s.toSession[1..], client := c);
    assert Unanswered(Step(s, Delivered)) == Unanswered(s);
  }

  lemma DeliverStopOk(s: System, settlement: CC.Settlement)
    requires s.toSession != [] && StopOk(s)
    requires settlement.ending.Succeeded? ==>
               OkAt(s.toSession, 0) && settlement.ending.response == s.toSession[0].response
    ensures forall c: Client :: c.settled == s.client.settled + [settlement] ==>
                                  StopOk(s.(toSession := s.toSession[1..], client := c))
  {
    assert forall i :: OkAt(s.toSession[1..], i) ==> OkAt(s.toSession, i + 1);
    assert StopSettled(settlement) ==> OkAt(s.toSession, 0) && s.toSession[0].response.kind == CC.TargetStop;
  }

  lemma DeliverOk(s: System)
    requires Inv(s) && s.toSession != []
    ensures Inv(Step(s, Delivered))
  {
    hide Inv, Step;
    var message := s.toSession[0];
    if message.OtherEvent? {
      DeliverOther(s);
    } else if message.Reply? && CC.Position(s.client.pending, message.response.id).Some? {
      DeliverReply(s, CC.Position(s.client.pending, message.response.id).value);
    } else {
      DeliverFailing(s);
    }
  }

  // ---------------------------------------------------------------- the agent's steps

  /** The agent answers its oldest command without changing its state, or after a step the table allows. */
  lemma AnswerOk(s: System, t: System, state: TargetState, ok: bool, isObject: bool)
    requires Inv(s) && Unanswered(s) != []
    requires var command := Unanswered(s)[0];
             t == Answer(s.(toAgent := t.toAgent, agent := t.agent), command, ok, isObject)
             && (if ok then
                   CanTransition(s.agent.state, state)
                   && (if command.kind.TargetStop? then state == Stopped && !s.agent.alive
                       else state == Goal(command.kind))
                 else state == s.agent.state)
    requires t.agent.state == state && t.agent.alive == s.agent.alive && Unanswered(t) == Unanswered(s)[1..]
    ensures Inv(t)
  {
    hide CC.Inv, Locked, Wired, Sound;
    var command := Unanswered(s)[0];
    var message := t.toSession[|s.toSession|];
    assert t.toSession == s.toSession + [message] && AnswerTo(command, message);
    WiredAnswer(s.client, Unanswered(s), s.toSession, message);
    OksAppend(s.toSession, message);
    if Active(s.session) {
      HeadIssued(s);
      if ok {
        LockedFinish(s.session, s.agent.state, s.spoiled, s.client.settled, s.resumed, Unanswered(s), s.toSession,
                     message);
      } else {
        LockedError(s.session, s.agent.state, s.spoiled, s.client.settled, s.resumed, Unanswered(s), s.toSession,
                    message);
      }
    }
  }

  /** While the session is active no target:stop is on its way. */
  lemma HeadIssued(s: System)
    requires Inv(s) && Active(s.session) && Unanswered(s) != []
    ensures !Unanswered(s)[0].kind.TargetStop?
  {
    hide CC.Inv, Locked, InOrder;
    assert Sound(s.client, Unanswered(s)[0].id, Unanswered(s)[0].kind);
  }

  lemma TakeOk(s: System)
    requires Inv(s) && Enabled(s, Taken)
    ensures Inv(Take(s))
  {
    hide Inv;
    var command := s.toAgent[0];
    assert Unanswered(s) == s.toAgent == [command] + s.toAgent[1..];
    if Take(s).agent.busy.None? {
      AnswerOk(s, Take(s), s.agent.state, false, false);
    } else {
      TakeBusyOk(s);
    }
  }

  /** A command that is taken in hand stays the oldest unanswered one. */
  lemma TakeBusyOk(s: System)
    requires Inv(s) && Enabled(s, Taken) && Take(s).agent.busy.Some?
    ensures Inv(Take(s))
  {
    hide CC.Inv, Locked, Wired, OkAt, StopSettled;
    var t := Take(s);
    assert [s.toAgent[0]] + s.toAgent[1..] == s.toAgent;
    assert Unanswered(t) == Unanswered(s);
    if Active(s.session) {
      HeadIssued(s);
    }
    assert s.agent.state != Stopped && t.agent.state != Stopped;
    assert StopAnswered(t) == StopAnswered(s);
    hide StopAnswered;
  }

  lemma FinishOk(s: System, isObject: bool)
    requires Inv(s) && Enabled(s, Finished(isObject))
    ensures Inv(Finish(s, isObject))
  {
    hide Inv;
    var t := Finish(s, isObject);
    var ok := t.toSession[|s.toSession|].response.ok;
    assert Unanswered(s)[1..] == s.toAgent;
    AnswerOk(s, t, t.agent.state, ok, ok && isObject);
  }

  lemma RefuseOk(s: System)
    requires Inv(s) && s.agent.busy.Some?
    ensures Inv(Refuse(s))
  {
    hide Inv;
    assert Unanswered(s)[1..] == s.toAgent;
    AnswerOk(s, Refuse(s), s.agent.state, false, false);
  }

  /** The target's exit and the agent's closing add at most an error event, and end no stopped agent. */
  lemma AgentEventOk(s: System, t: System)
    requires Inv(s)
    requires t == s.(agent := t.agent, toSession := t.toSession) && t.agent.busy == s.agent.busy
    requires t.toSession == s.toSession || t.toSession == s.toSession + [CC.ErrorEvent]
    requires !t.agent.alive || s.agent.alive
    requires t.agent.state == s.agent.state
             || (t.agent.state == Failed && s.agent.state != Stopped && t.toSession != s.toSession)
    ensures Inv(t)
  {
    hide CC.Inv, Locked, Wired;
    assert Unanswered(t) == Unanswered(s);
    WiredEvent(s.client, Unanswered(s), s.toSession);
    OksAppend(s.toSession, CC.ErrorEvent);
    if Active(s.session) {
      LockedEvent(s.session, s.agent.state, s.spoiled, s.client.settled, s.resumed, Unanswered(s), s.toSession);
    }
  }

  /** Every event keeps the invariant. */
  lemma StepKeepsInv(s: System, e: Event)
    requires Inv(s) && Enabled(s, e)
    ensures Inv(Step(s, e))
  {
    hide Inv, Take, Finish, Refuse, Resume, Stop, Send, CC.Settle, CC.Receive, CC.Fail;
    match e
    case CallStartMetrics(writable) => StartMetricsOk(s, writable);
    case CallStopMetrics(writable) => StartMetricsOk(s, writable);
    case CallStop(writable) => StopCallOk(s, writable);
    case TimerFires(id) =>
      ClientInv(s);
      CC.ArmedIsPending(s.client, id);
      GiveUpOk(s, CC.Position(s.client.pending, id).value, CC.Rejected(CC.TimedOut));
    case WriteFails(id) => WriteFailsOk(s, id);
    case CommandLost(k) =>
      LostOk(s, k);
      WriteFailsOk(s.(toAgent := s.toAgent[..k] + s.toAgent[k + 1..]), s.toAgent[k].id);
    case TransportFails => TransportOk(s);
    case Delivered => DeliverOk(s);
    case Resumed(k) => ResumeOk(s, k);
    case Taken => TakeOk(s);
    case Finished(isObject) => FinishOk(s, isObject);
    case Refused => RefuseOk(s);
    case TargetExits => AgentEventOk(s, Exit(s));
    case AgentCloses(fatal) => AgentEventOk(s, AgentClose(s, fatal));
  }

  lemma ClientInv(s: System)
    requires Inv(s)
    ensures CC.Inv(s.client)
  {
    hide CC.Inv, Locked, Wired;
  }

  lemma StartMetricsOk(s: System, writable: bool)
    requires Inv(s)
    ensures Inv(StartMetrics(s, writable)) && Inv(StopMetrics(s, writable))
  {
    hide CC.Inv, Locked, Wired, Send;
    if CC.Accepts(s.client, writable) {
      if s.session == Ready {
        SendOk(s, CC.MetricsStart);
      } else if s.session == Measuring {
        SendOk(s, CC.MetricsStop);
      }
    }
  }

  lemma {:induction false} RunOk(t: Trace, i: nat)
    requires IsRun(t) && i < |t.states|
    ensures Inv(t.states[i])
  {
    hide Inv, Step, Enabled, Open;
    assert Linked(t, i);
    if i == 0 {
      OpenOk();
    } else {
      RunOk(t, i - 1);
      StepKeepsInv(t.states[i - 1], t.events[i - 1]);
    }
  }

  lemma ReachableOk(s: System)
    requires Reachable(s)
    ensures Inv(s)
  {
    hide Inv, Linked;
    var t :| IsRun(t) && t.states[|t.states| - 1] == s;
    RunOk(t, |t.states| - 1);
  }

  // ---------------------------------------------------------------- what settles a request

  /** A reply settles its request as the agent ended it, and a failing message rejects what is pending. */
  lemma DeliveredSettlements(s: System, k: nat)
    requires Inv(s) && s.toSession != [] && |s.client.settled| <= k < |Step(s, Delivered).client.settled|
    ensures var ending := Step(s, Delivered).client.settled[k].ending;
            ending != CC.Rejected(CC.WrongType)
            && (ending.Succeeded? ==> s.toSession[0] == CC.Reply(ending.response) && ending.response.ok)
  {
    if s.toSession[0].Reply? {
      DeliveredEnding(s);
    }
    hide Inv, CC.Remove;
  }

  /** A step keeps the settlements there were; a new one is no mismatch of kinds, and a good one is the head's reply. */
  lemma NewSettlements(s: System, e: Event, k: nat)
    requires Inv(s) && Enabled(s, e) && k < |Step(s, e).client.settled|
    ensures |s.client.settled| <= |Step(s, e).client.settled|
    ensures var settled := Step(s, e).client.settled;
            if k < |s.client.settled| then settled[k] == s.client.settled[k]
            else
              settled[k].ending != CC.Rejected(CC.WrongType)
              && (settled[k].ending.Succeeded? ==>
                    e == Delivered && s.toSession[0] == CC.Reply(settled[k].ending.response) && OkAt(s.toSession, 0))
  {
    hide Inv;
    if e == Delivered && k >= |s.client.settled| {
      DeliveredSettlements(s, k);
    }
  }

  predicate FromObjects(e: Event) {
    e.Finished? ==> e.isObject
  }

  ghost predicate AllObjects(s: System) {
    && !s.spoiled
    && (forall i :: OkAt(s.toSession, i) ==> s.toSession[i].response.isObject)
    && (forall k :: 0 <= k < |s.client.settled| && s.client.settled[k].ending.Succeeded? ==>
          s.client.settled[k].ending.response.isObject)
  }

  ghost predicate ChannelOfObjects(s: System) {
    !s.spoiled && forall i :: OkAt(s.toSession, i) ==> s.toSession[i].response.isObject
  }

  lemma ChannelKeepsObjects(s: System, e: Event)
    requires Enabled(s, e) && ChannelOfObjects(s) && FromObjects(e)
    ensures e.Resumed? || ChannelOfObjects(Step(s, e))
  {
    hide CC.Receive, CC.Fail, CC.Settle, CC.TimerFires, CC.WriteFails, CC.Request;
  }

  lemma StepKeepsObjects(s: System, e: Event)
    requires Inv(s) && Enabled(s, e) && AllObjects(s) && FromObjects(e)
    ensures AllObjects(Step(s, e))
  {
    var t := Step(s, e);
    forall k: nat | k < |t.client.settled| && t.client.settled[k].ending.Succeeded?
      ensures t.client.settled[k].ending.response.isObject
    {
      NewSettlements(s, e, k);
    }
    ChannelKeepsObjects(s, e);
    hide Inv, CC.Receive, CC.Fail, CC.Settle, CC.TimerFires, CC.WriteFails, Unanswered;
  }

  lemma OpenObjects()
    ensures AllObjects(Open())
  {
    OpenIs();
    hide Open;
  }

  /** Every metrics payload of the run is an object. */
  predicate ObjectPayloads(events: seq<Event>) {
    forall i :: 0 <= i < |events| ==> FromObjects(events[i])
  }

  lemma {:induction false} RunOfObjects(t: Trace, i: nat)
    requires IsRun(t) && ObjectPayloads(t.events) && i < |t.states|
    ensures AllObjects(t.states[i])
  {
    hide Inv, Step, Enabled, AllObjects, Open;
    assert Linked(t, i);
    if i == 0 {
      OpenObjects();
    } else {
      RunOfObjects(t, i - 1);
      RunOk(t, i - 1);
      StepKeepsObjects(t.states[i - 1], t.events[i - 1]);
    }
  }

  // ---------------------------------------------------------------- over every run

  /** The command of the request, or the reply to it, can still reach the other side. */
  predicate OnItsWay(s: System, id: nat) {
    || (exists i :: 0 <= i < |Unanswered(s)| && Unanswered(s)[i].id == id)
    || (exists i :: 0 <= i < |s.toSession| && s.toSession[i].Reply? && s.toSession[i].response.id == id)
  }

  /** No request is pending, every call went on, and nothing of a request that was given up is still on its way. */
  predicate Idle(s: System) {
    && s.client.pending == []
    && (forall k :: 0 <= k < |s.client.settled| ==>
          k in s.resumed
          && (GivesUp(s.client.settled[k], s.client.settled[k].id) ==> !OnItsWay(s, s.client.settled[k].id)))
  }

  /** Whatever is on its way belongs to a request that is pending or was given up, so nothing is while idle. */
  lemma NothingOnItsWay(s: System, id: nat)
    requires Inv(s) && Idle(s) && Active(s.session)
    ensures !OnItsWay(s, id)
  {
    hide CC.Inv, Locked, InOrder;
    assert OnItsWay(s, id) ==> Awaited(s.client, id);
    assert Awaited(s.client, id) ==> GaveUp(s.client, id);
  }

  /** An idle session has no command and no reply on the way. */
  lemma IdleIsQuiet(s: System)
    requires Inv(s) && Idle(s) && Active(s.session)
    ensures Unanswered(s) == [] && !AnyOk(s.client.settled, s.resumed, s.toSession)
  {
    hide Inv;
    var q, m := Unanswered(s), s.toSession;
    assert q != [] ==> OnItsWay(s, q[0].id);
    assert forall i :: 0 <= i < |m| && m[i].Reply? ==> OnItsWay(s, m[i].response.id);
    forall id: nat
      ensures !OnItsWay(s, id)
    {
      NothingOnItsWay(s, id);
    }
    hide OnItsWay;
  }

  /** A good answer is on its way to the session, or received by a call that has not continued. */
  ghost predicate AnswerComing(s: System) {
    AnyOk(s.client.settled, s.resumed, s.toSession)
  }

  /**
    * In every run, while the session is ready or measuring: session and agent are in the same state exactly when the
    * agent has not failed, no metrics:stop response came without a summary object, and no good answer is still coming,
    * whether its request is pending, was given up or waits to continue. The report of a failed agent is on its way.
    */
  lemma LockstepExactly(s: System)
    requires Reachable(s) && Active(s.session)
    ensures s.agent.state == s.session <==> s.agent.state != Failed && !s.spoiled && !AnswerComing(s)
    ensures s.agent.state == Failed ==> CC.ErrorEvent in s.toSession
    ensures AnswerComing(s) ==> !s.spoiled && s.agent.state in {Goal(Current(s.session)), Failed}
    ensures s.spoiled ==> s.session == Measuring && s.agent.state in {Ready, Failed}
  {
    hide Inv, Reachable;
    ReachableOk(s);
    LockstepByInv(s);
  }

  lemma LockstepByInv(s: System)
    requires Inv(s) && Active(s.session)
    ensures s.agent.state == Expected(s.session, AnswerComing(s), s.spoiled)
            || (s.agent.state == Failed && CC.ErrorEvent in s.toSession)
    ensures AnswerComing(s) ==> !s.spoiled
    ensures s.spoiled ==> s.session == Measuring
  {
    hide CC.Inv, Wired, OneOk, AnyOk;
  }

  /** Once every call has continued, only a good answer in the channel can still be coming. */
  lemma LockstepContinued(s: System)
    requires Reachable(s) && Active(s.session)
    requires forall k :: 0 <= k < |s.client.settled| ==> k in s.resumed
    ensures s.agent.state == s.session
       <==> s.agent.state != Failed && !s.spoiled && !exists i :: OkAt(s.toSession, i)
  {
    hide Reachable;
    LockstepExactly(s);
    assert forall k :: !WaitingAt(s.client.settled, s.resumed, k);
    hide OkAt, WaitingAt;
  }

  /**
    * In an idle session no good answer is coming, so only a metrics:stop response without a summary object, and a
    * failed agent whose report is still on its way, keep the two states apart.
    */
  lemma LockstepWhileIdle(s: System)
    requires Reachable(s) && Active(s.session) && Idle(s)
    ensures if CC.ErrorEvent in s.toSession then
              s.agent.state in {Failed, if s.spoiled then Ready else s.session}
            else
              (s.agent.state == s.session <==> !s.spoiled)
              && (s.spoiled ==> s.session == Measuring && s.agent.state == Ready)
  {
    hide Inv, Idle, Reachable, AnswerComing;
    ReachableOk(s);
    LockstepByInv(s);
    IdleAwaitsNoAnswer(s);
  }

  lemma IdleAwaitsNoAnswer(s: System)
    requires Inv(s) && Active(s.session) && Idle(s)
    ensures !AnswerComing(s)
  {
    hide Inv, Idle;
    IdleIsQuiet(s);
  }

  /** With object payloads only a good answer that is still coming and an undelivered failure keep the states apart. */
  lemma LockstepOfObjects(t: Trace, i: nat)
    requires IsRun(t) && ObjectPayloads(t.events) && i < |t.states|
    requires Active(t.states[i].session)
    ensures var s := t.states[i];
            && (s.agent.state == s.session <==> s.agent.state != Failed && !AnswerComing(s))
            && (s.agent.state == Failed ==> CC.ErrorEvent in s.toSession)
            && (Idle(s) ==> !AnswerComing(s))
  {
    hide Idle, Inv, Linked, OkAt, AnswerComing;
    RunOk(t, i);
    RunOfObjects(t, i);
    LockstepByInv(t.states[i]);
    if Idle(t.states[i]) {
      IdleAwaitsNoAnswer(t.states[i]);
    }
  }

  /** A session that has stopped leaves behind an agent that has stopped and a target process that has exited. */
  lemma StoppedMeansStopped(s: System)
    requires Reachable(s) && s.session == Stopped
    ensures s.agent.state == Stopped && !s.agent.alive
  {
    ReachableOk(s);
    hide CC.Inv, Wired, Locked;
  }

  /** A failed client leaves no session ready or measuring, and a failed agent none once its report has arrived. */
  lemma FailuresReachTheSession(s: System)
    requires Reachable(s)
    ensures s.client.failed ==> s.session == Failed || s.session == Stopped
    ensures s.agent.state == Failed && CC.ErrorEvent !in s.toSession ==> !Active(s.session)
  {
    ReachableOk(s);
    hide CC.Inv, Wired, OneOk, AnyOk;
  }

  /** The next reply answers the kind of request it was asked for; that request is pending unless it was given up. */
  lemma RepliesAreExpected(s: System)
    requires Reachable(s) && s.toSession != [] && s.toSession[0].Reply?
    ensures var response := s.toSession[0].response;
            && Issued(s.client, response.id, response.kind)
            && (s.client.failed || GaveUp(s.client, response.id)
                || CC.Position(s.client.pending, response.id).Some?)
  {
    ReachableOk(s);
    hide CC.Inv, Locked, InOrder;
    assert Sound(s.client, s.toSession[0].response.id, s.toSession[0].response.kind);
  }

  /** No run ever rejects a request because the kind of its response was wrong. */
  lemma {:induction false} KindsNeverMismatch(t: Trace, i: nat, k: nat)
    requires IsRun(t) && i < |t.states| && k < |t.states[i].client.settled|
    ensures t.states[i].client.settled[k].ending != CC.Rejected(CC.WrongType)
  {
    hide Inv, Step, Enabled, Open;
    assert Linked(t, i);
    if i == 0 {
      OpenIs();
    } else {
      RunOk(t, i - 1);
      NewSettlements(t.states[i - 1], t.events[i - 1], k);
      if k < |t.states[i - 1].client.settled| {
        KindsNeverMismatch(t, i - 1, k);
      }
    }
  }

  // ---------------------------------------------------------------- no way back

  /** The second state is one a machine can still be in after the first. */
  predicate Later(first: TargetState, second: TargetState) {
    match first
    case Starting => true
    case Ready => second != Starting
    case Measuring => second != Starting
    case Stopping => second in {Stopping, Stopped, Failed}
    case Stopped => second == Stopped
    case Failed => second == Failed
  }

  lemma SessionGoesOn(s: System, e: Event)
    requires Enabled(s, e)
    ensures Later(s.session, Step(s, e).session)
  {
  }

  lemma AgentGoesOn(s: System, e: Event)
    requires Enabled(s, e)
    ensures Later(s.agent.state, Step(s, e).agent.state)
  {
  }

  lemma LaterThen(a: System, b: System, c: System)
    ensures Later(a.session, b.session) && Later(b.session, c.session) ==> Later(a.session, c.session)
    ensures (Later(a.agent.state, b.agent.state) && Later(b.agent.state, c.agent.state)
             ==> Later(a.agent.state, c.agent.state))
  {
  }

  /** Whatever comes later in a run, neither side restarts, resumes after stopping or leaves stopped or failed. */
  lemma {:induction false} NoWayBack(t: Trace, i: nat, j: nat)
    requires IsRun(t) && i <= j < |t.states|
    ensures Later(t.states[i].session, t.states[j].session)
    ensures Later(t.states[i].agent.state, t.states[j].agent.state)
    decreases j - i
  {
    if i < j {
      hide Step, Enabled, Later;
      NoWayBack(t, i, j - 1);
      assert Linked(t, j);
      LaterThen(t.states[i], t.states[j - 1], t.states[j]);
      SessionGoesOn(t.states[j - 1], t.events[j - 1]);
      AgentGoesOn(t.states[j - 1], t.events[j - 1]);
    }
  }

  // ---------------------------------------------------------------- a metrics call from beginning to end

  lemma ReachNext(s: System, e: Event)
    requires Reachable(s) && Enabled(s, e)
    ensures Reachable(Step(s, e))
  {
    hide Enabled, Step, Open;
    var t :| IsRun(t) && t.states[|t.states| - 1] == s;
    var n := |t.states|;
    var r := Trace(t.states + [Step(s, e)], t.events + [e]);
    forall i | 0 <= i < |r.states|
      ensures Linked(r, i)
    {
      if i < n {
        assert Linked(t, i);
      }
    }
    assert r.states[|r.states| - 1] == Step(s, e);
  }

  /** Nothing is on the way, the target runs and both sides are in the same state. */
  predicate InStep(s: System) {
    && Active(s.session) && s.agent.state == s.session && s.agent.alive && s.agent.busy.None?
    && s.toAgent == [] && s.toSession == [] && Idle(s) && CC.Accepts(s.client, true) && CC.PendingOk(s.client)
    && (forall k :: k in s.resumed ==> k < |s.client.settled|)
  }

  function Call(session: TargetState): Event {
    if session == Ready then CallStartMetrics(true) else CallStopMetrics(true)
  }

  /** The call up to the agent's answer, which its client has not received yet. */
  lemma Asked(s: System, isObject: bool) returns (t: System)
    requires InStep(s)
    ensures t == Step(Step(Step(s, Call(s.session)), Taken), Finished(isObject))
    ensures Enabled(Step(s, Call(s.session)), Taken)
    ensures Enabled(Step(Step(s, Call(s.session)), Taken), Finished(isObject))
    ensures var id := s.client.counter + 1;
            var kind := Current(s.session);
            t == s.(client := CC.Request(s.client, kind), agent := s.agent.(state := Goal(kind)),
                    toSession := [CC.Reply(CC.Response(id, kind, true, isObject))])
  {
    hide Idle, CC.PendingOk;
    var a := Step(s, Call(s.session));
    assert a.toAgent == [Command(s.client.counter + 1, Current(s.session))];
    var b := Step(a, Taken);
    assert b.toAgent == [];
    t := Step(b, Finished(isObject));
  }

  /** The client after a request of this kind has been issued and answered well. */
  function Answered(c: Client, kind: RequestType, isObject: bool): Client {
    var id := c.counter + 1;
    c.(counter := id, issued := c.issued + [kind],
       settled := c.settled + [CC.Settlement(id, CC.Succeeded(CC.Response(id, kind, true, isObject)))])
  }

  lemma ReceiveAnswer(c: Client, kind: RequestType, isObject: bool)
    requires CC.PendingOk(c) && c.pending == []
    ensures (CC.Receive(CC.Request(c, kind), CC.Reply(CC.Response(c.counter + 1, kind, true, isObject)))
             == Answered(c, kind, isObject))
  {
    var r := CC.Request(c, kind);
    NoneArmed(c, c.counter + 1, kind);
    assert r.pending == [CC.Pending(c.counter + 1, kind)];
    assert CC.Position(r.pending, c.counter + 1) == Some(0) && CC.Remove(r.pending, 0) == [];
    hide CC.Ids;
  }

  /** The answer is received and the call goes on: it takes the session to where the agent is, unless it is spoiled. */
  lemma Continued(s: System, t: System, isObject: bool) returns (u: System)
    requires InStep(s)
    requires var id := s.client.counter + 1;
             var kind := Current(s.session);
             t == s.(client := CC.Request(s.client, kind), agent := s.agent.(state := Goal(kind)),
                     toSession := [CC.Reply(CC.Response(id, kind, true, isObject))])
    ensures Enabled(t, Delivered) && Enabled(Step(t, Delivered), Resumed(|s.client.settled|))
    ensures u == Step(Step(t, Delivered), Resumed(|s.client.settled|))
    ensures u.agent.state == Goal(Current(s.session)) && u.toSession == [] && u.toAgent == [] && Idle(u)
    ensures u.session == if isObject || s.session == Ready then Goal(Current(s.session)) else s.session
    ensures u.session == u.agent.state ==> InStep(u)
  {
    hide CC.Ids, CC.Receive;
    ReceiveAnswer(s.client, Current(s.session), isObject);
    var a := Step(t, Delivered);
    assert a == t.(client := Answered(s.client, Current(s.session), isObject), toSession := []);
    u := Step(a, Resumed(|s.client.settled|));
  }

  lemma NoneArmed(c: Client, id: nat, kind: RequestType)
    requires CC.PendingOk(c) && c.pending == []
    ensures c.armed + {id} - {id} == {} && c.armed == {} && CC.Ids([]) == {}
  {
  }

  /** From any reachable state in step a metrics call can be carried through; it takes both sides on unless spoiled. */
  lemma MetricsCall(s: System, isObject: bool) returns (u: System)
    requires Reachable(s) && InStep(s)
    ensures Reachable(u) && Idle(u) && u.toSession == []
    ensures u.agent.state == Goal(Current(s.session))
    ensures u.session == if isObject || s.session == Ready then Goal(Current(s.session)) else s.session
    ensures u.session == u.agent.state ==> InStep(u)
  {
    var t := Asked(s, isObject);
    u := Continued(s, t, isObject);
    hide InStep, Idle, Step, Enabled, Reachable, CC.Request;
    ReachNext(s, Call(s.session));
    ReachNext(Step(s, Call(s.session)), Taken);
    ReachNext(Step(Step(s, Call(s.session)), Taken), Finished(isObject));
    ReachNext(t, Delivered);
    ReachNext(Step(t, Delivered), Resumed(|s.client.settled|));
  }

  lemma OpenInStep()
    ensures Reachable(Open()) && InStep(Open()) && Open().session == Ready && !Open().client.failed
  {
    OpenIs();
    hide Open;
    assert CC.Ids([]) == {};
    var t := Trace([Open()], []);
    assert Linked(t, 0);
    assert IsRun(t) && t.states[|t.states| - 1] == Open();
  }

  /** A summary that is no object leaves the session measuring and the agent ready, with nothing outstanding. */
  lemma SpoiledRun()
    ensures exists s ::
              Reachable(s) && Idle(s) && s.toSession == [] && s.session == Measuring && s.agent.state == Ready
  {
    OpenInStep();
    hide Reachable, InStep, Idle, Open;
    var s := MetricsCall(Open(), true);
    var u := MetricsCall(s, false);
  }

  /** The client after a request of this kind could not be written. */
  function WriteRejected(c: Client, kind: RequestType): Client {
    var id := c.counter + 1;
    c.(counter := id, issued := c.issued + [kind],
       settled := c.settled + [CC.Settlement(id, CC.Rejected(CC.WriteFailed))])
  }

  lemma WriteFailure(c: Client, kind: RequestType)
    requires CC.PendingOk(c) && c.pending == []
    ensures CC.WriteFails(CC.Request(c, kind), c.counter + 1) == WriteRejected(c, kind)
  {
    var r := CC.Request(c, kind);
    NoneArmed(c, c.counter + 1, kind);
    assert r.pending == [CC.Pending(c.counter + 1, kind)];
    assert CC.Position(r.pending, c.counter + 1) == Some(0) && CC.Remove(r.pending, 0) == [];
    hide CC.Ids;
  }

  /** A call from a state in step sends its command. */
  lemma CallSends(s: System)
    requires Active(s.session) && s.toAgent == [] && CC.Accepts(s.client, true)
    ensures Step(s, Call(s.session))
         == s.(client := CC.Request(s.client, Current(s.session)),
               toAgent := [Command(s.client.counter + 1, Current(s.session))])
  {
    hide CC.Request;
  }

  /** A command that is lost fails to be written, which calls no listener. */
  lemma LosesOnly(s: System, command: Command)
    requires s.toAgent == [command]
    ensures Enabled(s, CommandLost(0))
    ensures Step(s, CommandLost(0)) == s.(client := CC.WriteFails(s.client, command.id), toAgent := [])
  {
    hide CC.Position, CC.Remove;
    assert s.toAgent[..0] + s.toAgent[1..] == [];
  }

  /** The command of a call is lost before the agent gets it. */
  lemma Lost(s: System) returns (t: System)
    requires InStep(s)
    ensures t == Step(Step(s, Call(s.session)), CommandLost(0)) && Enabled(Step(s, Call(s.session)), CommandLost(0))
    ensures t == s.(client := WriteRejected(s.client, Current(s.session)))
  {
    assert CC.PendingOk(s.client) && s.client.pending == [];
    hide Idle, CC.PendingOk, Step, CC.Request, CC.WriteFails, WriteRejected;
    var a := Step(s, Call(s.session));
    CallSends(s);
    WriteFailure(s.client, Current(s.session));
    LosesOnly(a, a.toAgent[0]);
    t := Step(a, CommandLost(0));
  }

  lemma LostGoesOn(s: System, t: System) returns (u: System)
    requires InStep(s) && t == s.(client := WriteRejected(s.client, Current(s.session)))
    ensures Enabled(t, Resumed(|s.client.settled|)) && u == Step(t, Resumed(|s.client.settled|))
    ensures InStep(u) && u.session == s.session && u.agent == s.agent && GaveUp(u.client, s.client.counter + 1)
  {
    hide CC.Ids;
    u := Step(t, Resumed(|s.client.settled|));
    assert GivesUp(u.client.settled[|s.client.settled|], s.client.counter + 1);
  }

  /** From a state in step, a call whose command is lost leaves both sides in step. */
  lemma LostCall(s: System) returns (u: System)
    requires Reachable(s) && InStep(s)
    ensures Reachable(u) && InStep(u) && u.session == s.session && GaveUp(u.client, s.client.counter + 1)
  {
    var t := Lost(s);
    u := LostGoesOn(s, t);
    hide InStep, Step, Enabled, Reachable, GaveUp;
    ReachNext(s, Call(s.session));
    ReachNext(Step(s, Call(s.session)), CommandLost(0));
    ReachNext(t, Resumed(|s.client.settled|));
  }

  /** The timer of a request fires while its answer is under way. */
  lemma Fires(s: System, kind: RequestType)
    requires CC.PendingOk(s.client) && s.client.pending == []
    ensures var id := s.client.counter + 1;
            var t := s.(client := CC.Request(s.client, kind));
            Enabled(t, TimerFires(id))
            && Step(t, TimerFires(id)).client.pending == [] && Step(t, TimerFires(id)).client.failed == s.client.failed
            && Step(t, TimerFires(id)).session == s.session && Step(t, TimerFires(id)).agent == s.agent
  {
    var r := CC.Request(s.client, kind);
    assert r.pending == [CC.Pending(s.client.counter + 1, kind)];
    assert CC.Position(r.pending, s.client.counter + 1) == Some(0) && CC.Remove(r.pending, 0) == [];
    hide CC.Ids;
  }

  /** From a state in step, a call given up while its answer is under way leaves the agent one step ahead. */
  lemma GivenUpCall(s: System) returns (u: System)
    requires Reachable(s) && InStep(s)
    ensures Reachable(u) && u.client.pending == [] && u.client.failed == s.client.failed
    ensures u.session == s.session && u.agent.state == Goal(Current(s.session))
  {
    var t := Asked(s, true);
    assert CC.PendingOk(s.client) && s.client.pending == [];
    hide InStep, Idle, Step, Enabled, Reachable, CC.Request, CC.PendingOk;
    Fires(t.(client := s.client), Current(s.session));
    var id := s.client.counter + 1;
    ReachNext(s, Call(s.session));
    ReachNext(Step(s, Call(s.session)), Taken);
    ReachNext(Step(Step(s, Call(s.session)), Taken), Finished(true));
    ReachNext(t, TimerFires(id));
    u := Step(t, TimerFires(id));
  }

  /** From a state in step, a call given up before the agent takes its command leaves the two states equal. */
  lemma GivenUpEarly(s: System) returns (u: System)
    requires Reachable(s) && InStep(s)
    ensures Reachable(u) && u.client.pending == [] && u.client.failed == s.client.failed
    ensures u.session == s.session == u.agent.state
    ensures u == Step(Step(s, Call(s.session)), TimerFires(s.client.counter + 1))
  {
    var id, kind := s.client.counter + 1, Current(s.session);
    var a := Step(s, Call(s.session));
    var queued := s.(toAgent := [Command(id, kind)]);
    assert a == queued.(client := CC.Request(s.client, kind));
    assert CC.PendingOk(s.client) && s.client.pending == [] && s.agent.state == s.session;
    hide InStep, Step, Enabled, Reachable, CC.Request, CC.PendingOk;
    Fires(queued, kind);
    ReachNext(s, Call(s.session));
    ReachNext(a, TimerFires(id));
    u := Step(a, TimerFires(id));
  }

  /** Such a run exists: nothing is pending, the client has not failed, and the two states differ. */
  lemma GivenUpRun()
    ensures exists s ::
              Reachable(s) && s.client.pending == [] && !s.client.failed
              && s.session == Ready && s.agent.state == Measuring
  {
    OpenInStep();
    hide Reachable, InStep, Open;
    var s := GivenUpCall(Open());
  }

  // ---------------------------------------------------------------- stopping

  /** From any reachable state in step, a stop can be carried through: both sides end stopped, the client is closed. */
  lemma StopCall(s: System, isObject: bool) returns (u: System)
    requires Reachable(s) && InStep(s)
    ensures Reachable(u) && u.session == Stopped && u.agent.state == Stopped && !u.agent.alive
    ensures u.client.closed && u.client.pending == [] && u.toAgent == [] && u.toSession == []
  {
    var t := StopAsked(s, isObject);
    var a := Step(Step(Step(s, CallStop(true)), Taken), TargetExits);
    u := StopGoesOn(s, t, isObject);
    hide InStep, Step, Enabled, Reachable, CC.Request;
    ReachNext(s, CallStop(true));
    ReachNext(Step(s, CallStop(true)), Taken);
    ReachNext(Step(Step(s, CallStop(true)), Taken), TargetExits);
    ReachNext(a, Finished(isObject));
    ReachNext(t, Delivered);
    ReachNext(Step(t, Delivered), Resumed(|s.client.settled|));
  }

  /** The stop up to the agent's answer, which comes after the exit of the target. */
  lemma StopAsked(s: System, isObject: bool) returns (t: System)
    requires InStep(s)
    ensures Enabled(s, CallStop(true)) && Enabled(Step(s, CallStop(true)), Taken)
    ensures var b := Step(Step(s, CallStop(true)), Taken);
            && Enabled(b, TargetExits) && Enabled(Step(b, TargetExits), Finished(isObject))
            && t == Step(Step(b, TargetExits), Finished(isObject))
    ensures t == s.(session := Stopping, client := CC.Request(s.client, CC.TargetStop),
                    agent := Agent(Stopped, false, true, None),
                    toSession := [CC.Reply(CC.Response(s.client.counter + 1, CC.TargetStop, true, isObject))])
  {
    var b := StopTaken(s);
    t := Step(Step(b, TargetExits), Finished(isObject));
    hide InStep, CC.Request;
  }

  lemma StopTaken(s: System) returns (b: System)
    requires InStep(s)
    ensures Enabled(s, CallStop(true)) && Enabled(Step(s, CallStop(true)), Taken)
    ensures b == Step(Step(s, CallStop(true)), Taken)
    ensures b == s.(session := Stopping, client := CC.Request(s.client, CC.TargetStop),
                    agent := Agent(Stopping, true, true, Some(Command(s.client.counter + 1, CC.TargetStop))))
  {
    hide Idle, CC.PendingOk;
    var a := Step(s, CallStop(true));
    assert a.toAgent == [Command(s.client.counter + 1, CC.TargetStop)];
    b := Step(a, Taken);
    assert b.toAgent == [];
    hide CC.Request;
  }

  lemma StopGoesOn(s: System, t: System, isObject: bool) returns (u: System)
    requires InStep(s)
    requires t == s.(session := Stopping, client := CC.Request(s.client, CC.TargetStop),
                     agent := Agent(Stopped, false, true, None),
                     toSession := [CC.Reply(CC.Response(s.client.counter + 1, CC.TargetStop, true, isObject))])
    ensures Enabled(t, Delivered) && Enabled(Step(t, Delivered), Resumed(|s.client.settled|))
    ensures u == Step(Step(t, Delivered), Resumed(|s.client.settled|))
    ensures u.session == Stopped && u.agent == t.agent && u.client.closed && u.client.pending == []
    ensures u.toAgent == [] && u.toSession == []
  {
    hide CC.Ids, CC.Receive;
    ReceiveAnswer(s.client, CC.TargetStop, isObject);
    var a := Step(t, Delivered);
    assert a == t.(client := Answered(s.client, CC.TargetStop, isObject), toSession := []);
    u := Step(a, Resumed(|s.client.settled|));
  }

  // ---------------------------------------------------------------- a stop continues once

  /** Settlement k is that of a stop. */
  predicate IsStop(c: Client, k: nat) {
    k < |c.settled| && 1 <= c.settled[k].id <= |c.issued| && c.issued[c.settled[k].id - 1] == CC.TargetStop
  }

  predicate OneStop(issued: seq<RequestType>) {
    forall i, j :: 0 <= i < j < |issued| ==> !(issued[i] == CC.TargetStop && issued[j] == CC.TargetStop)
  }

  /** At most one stop is ever asked for, and a session is only stopped once its call has continued. */
  ghost predicate StopOnce(s: System) {
    OneStop(s.client.issued) && (s.session == Stopped ==> exists k :: k in s.resumed && IsStop(s.client, k))
  }

  /** No request or one more is issued, a stop only when `may` says so. */
  predicate IssuedMore(a: seq<RequestType>, b: seq<RequestType>, may: bool) {
    b == a || (|b| == |a| + 1 && b[..|a|] == a && (b[|a|] == CC.TargetStop ==> may))
  }

  /** What a step issues, and how the session becomes stopped. */
  lemma IssuedGrows(s: System, e: Event)
    requires Enabled(s, e)
    ensures var t := Step(s, e);
            && s.resumed <= t.resumed && IssuedMore(s.client.issued, t.client.issued, Active(s.session))
            && (t.session == Stopped && s.session != Stopped ==>
                  e.Resumed? && IsStop(s.client, e.k) && t.resumed == s.resumed + {e.k})
  {
    hide CC.Position, CC.Remove, CC.RejectAll;
  }

  lemma OneStopStays(a: seq<RequestType>, b: seq<RequestType>)
    requires OneStop(a) && IssuedMore(a, b, CC.TargetStop !in a)
    ensures OneStop(b)
  {
    if b != a {
      assert forall i :: 0 <= i < |a| ==> b[i] == a[i];
    }
  }

  lemma IsStopStays(c: Client, d: Client, k: nat, may: bool)
    requires IsStop(c, k) && IssuedMore(c.issued, d.issued, may) && k < |d.settled| && d.settled[k] == c.settled[k]
    ensures IsStop(d, k)
  {
    if d.issued != c.issued {
      assert forall i :: 0 <= i < |c.issued| ==> d.issued[i] == c.issued[i];
    }
  }

  lemma NoStopYet(s: System)
    requires Inv(s)
    ensures Active(s.session) ==> CC.TargetStop !in s.client.issued
  {
  }

  lemma StepKeepsStopOnce(s: System, e: Event)
    requires Inv(s) && Enabled(s, e) && StopOnce(s)
    ensures StopOnce(Step(s, e))
  {
    hide Inv, Step, Enabled, IsStop, OneStop;
    var t := Step(s, e);
    IssuedGrows(s, e);
    NoStopYet(s);
    OneStopStays(s.client.issued, t.client.issued);
    if t.session == Stopped {
      var k: nat;
      if s.session == Stopped {
        k :| k in s.resumed && IsStop(s.client, k);
      } else {
        k := e.k;
      }
      IsStopSettled(s.client, k);
      SettlementStays(s, e, k);
      IsStopStays(s.client, t.client, k, Active(s.session));
      assert k in t.resumed && IsStop(t.client, k);
    }
    hide IssuedMore;
  }

  lemma IsStopSettled(c: Client, k: nat)
    requires IsStop(c, k)
    ensures k < |c.settled|
  {
  }

  lemma SettlementStays(s: System, e: Event, k: nat)
    requires Inv(s) && Enabled(s, e) && k < |s.client.settled|
    ensures k < |Step(s, e).client.settled| && Step(s, e).client.settled[k] == s.client.settled[k]
  {
    hide Inv, Step;
    SettledLonger(s, e);
    NewSettlements(s, e, k);
  }

  lemma SettledLonger(s: System, e: Event)
    requires Enabled(s, e)
    ensures |Step(s, e).client.settled| >= |s.client.settled|
  {
    hide CC.Position, CC.Remove;
  }

  lemma {:induction false} RunStopOnce(t: Trace, i: nat)
    requires IsRun(t) && i < |t.states|
    ensures StopOnce(t.states[i])
  {
    hide Inv, Step, Enabled, StopOnce, Open;
    assert Linked(t, i);
    if i == 0 {
      OpenStopOnce();
    } else {
      RunStopOnce(t, i - 1);
      RunOk(t, i - 1);
      StepKeepsStopOnce(t.states[i - 1], t.events[i - 1]);
    }
  }

  lemma OpenStopOnce()
    ensures StopOnce(Open())
  {
    OpenIs();
    hide Open;
  }

  /** A stop whose call has not continued yet leaves no stopped session. */
  lemma NotStoppedYet(s: System, k: nat)
    requires Inv(s) && StopOnce(s) && IsStop(s.client, k) && k !in s.resumed
    ensures s.session != Stopped
  {
    if s.session == Stopped {
      var l :| l in s.resumed && IsStop(s.client, l);
      assert s.client.settled[k].id == s.client.settled[l].id;
      CC.TwiceCounted(s.client.settled, if k < l then k else l, if k < l then l else k);
    }
  }

  lemma ReachableStopOnce(s: System)
    requires Reachable(s)
    ensures StopOnce(s)
  {
    hide StopOnce, Linked;
    var t :| IsRun(t) && t.states[|t.states| - 1] == s;
    RunStopOnce(t, |t.states| - 1);
  }

  /** A stop that succeeds while the session is stopping stops it, any other end fails it, and the client is closed. */
  lemma StopContinues(s: System, k: nat)
    requires Reachable(s) && Enabled(s, Resumed(k)) && s.client.issued[s.client.settled[k].id - 1] == CC.TargetStop
    ensures var t := Step(s, Resumed(k));
            && (s.session == Stopping ==>
                  t.session == if s.client.settled[k].ending.Succeeded? then Stopped else Failed)
            && (s.session == Failed ==> t.session == Failed)
            && s.session in {Stopping, Failed} && t.client.closed
  {
    ReachableOk(s);
    ReachableStopOnce(s);
    NotStoppedYet(s, k);
    assert s.client.issued[s.client.settled[k].id - 1] in s.client.issued;
    hide CC.Inv, Wired, Locked;
  }
}
