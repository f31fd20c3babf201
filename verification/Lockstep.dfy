/** What every step of session, channels and agent keeps, and what follows for the two states over whole runs. */
module Lockstep {
  import opened Basics
  import opened TargetStates
  import opened Lifecycle
  import CC = ControlClient

  // ---------------------------------------------------------------- commands and replies on the way

  /** The commands the agent has not answered, in their order. */
  function Unanswered(s: System): seq<Command> {
    (if s.agent.busy.Some? then [s.agent.busy.value] else []) + s.toAgent
  }

  /** The request was rejected by its timer or because it could not be written; its reply may still come. */
  predicate GivesUp(settlement: CC.Settlement, id: nat) {
    settlement.id == id
    && (settlement.ending == CC.Rejected(CC.TimedOut) || settlement.ending == CC.Rejected(CC.WriteFailed))
  }

  predicate GaveUp(c: Client, id: nat) {
    exists k :: 0 <= k < |c.settled| && GivesUp(c.settled[k], id)
  }

  predicate Issued(c: Client, id: nat, kind: RequestType) {
    1 <= id <= |c.issued| && c.issued[id - 1] == kind
  }

  predicate Awaited(c: Client, id: nat) {
    c.failed || id in CC.Ids(c.pending) || GaveUp(c, id)
  }

  predicate Sound(c: Client, id: nat, kind: RequestType) {
    Issued(c, id, kind) && Awaited(c, id)
  }

  /** Everything on the way belongs to a request of its kind that is pending or was given up. */
  predicate AllSound(c: Client, q: seq<Command>, m: seq<CC.Incoming>) {
    && (forall i :: 0 <= i < |q| ==> Sound(c, q[i].id, q[i].kind))
    && (forall i :: 0 <= i < |m| && m[i].Reply? ==> Sound(c, m[i].response.id, m[i].response.kind))
  }

  /** Replies and unanswered commands are in the order of their requests, none of them twice. */
  predicate InOrder(q: seq<Command>, m: seq<CC.Incoming>) {
    && (forall i, j :: 0 <= i < j < |q| ==> q[i].id < q[j].id)
    && (forall i, j :: 0 <= i < j < |m| && m[i].Reply? && m[j].Reply? ==> m[i].response.id < m[j].response.id)
    && (forall i, j :: 0 <= i < |m| && 0 <= j < |q| && m[i].Reply? ==> m[i].response.id < q[j].id)
  }

  predicate Wired(c: Client, q: seq<Command>, m: seq<CC.Incoming>) {
    AllSound(c, q, m) && InOrder(q, m)
  }

  predicate AnswerTo(command: Command, message: CC.Incoming) {
    message.Reply? && message.response.id == command.id && message.response.kind == command.kind
  }

  lemma WiredAnswer(c: Client, q: seq<Command>, m: seq<CC.Incoming>, message: CC.Incoming)
    requires Wired(c, q, m) && q != [] && AnswerTo(q[0], message)
    ensures Wired(c, q[1..], m + [message])
  {
    hide Sound;
  }

  lemma WiredEvent(c: Client, q: seq<Command>, m: seq<CC.Incoming>)
    requires Wired(c, q, m)
    ensures Wired(c, q, m + [CC.ErrorEvent])
  {
    hide Sound;
  }

  lemma WiredLost(c: Client, q: seq<Command>, m: seq<CC.Incoming>, k: nat)
    requires Wired(c, q, m) && k < |q|
    ensures Wired(c, q[..k] + q[k + 1..], m)
  {
    hide Sound;
  }

  lemma WiredSend(c: Client, q: seq<Command>, m: seq<CC.Incoming>, kind: RequestType)
    requires CC.Inv(c) && Wired(c, q, m)
    ensures Wired(CC.Request(c, kind), q + [Command(c.counter + 1, kind)], m)
  {
    var r := CC.Request(c, kind);
    CC.IdsAppend(c.pending, CC.Pending(c.counter + 1, kind));
    forall id: nat, k: RequestType | Sound(c, id, k)
      ensures Sound(r, id, k) && id <= c.counter
    {
    }
    hide Sound;
    assert Sound(r, c.counter + 1, kind) by {
      assert c.counter + 1 in CC.Ids(r.pending);
      SoundIs(r, c.counter + 1, kind);
    }
  }

  lemma SoundIs(c: Client, id: nat, kind: RequestType)
    ensures Sound(c, id, kind) <==> Issued(c, id, kind) && Awaited(c, id)
  {
  }

  /** Settling a request keeps every other one awaited, and the request itself if it is given up. */
  lemma AwaitedSettle(c: Client, k: nat, ending: CC.Ending, id: nat)
    requires CC.Inv(c) && k < |c.pending| && Awaited(c, id)
    requires id != c.pending[k].id || GivesUp(CC.Settlement(id, ending), id)
    ensures Awaited(CC.Settle(c, k, ending), id)
  {
    var r := CC.Settle(c, k, ending);
    if c.failed {
    } else if id == c.pending[k].id {
      assert GivesUp(r.settled[|c.settled|], id);
    } else if id in CC.Ids(c.pending) {
      CC.IdsRemove(c.pending, k);
    } else {
      var j :| 0 <= j < |c.settled| && GivesUp(c.settled[j], id);
      assert GivesUp(r.settled[j], id);
    }
  }

  lemma WiredGiveUp(c: Client, q: seq<Command>, m: seq<CC.Incoming>, k: nat, ending: CC.Ending)
    requires CC.Inv(c) && Wired(c, q, m) && k < |c.pending|
    requires ending == CC.Rejected(CC.TimedOut) || ending == CC.Rejected(CC.WriteFailed)
    ensures Wired(CC.Settle(c, k, ending), q, m)
  {
    var r := CC.Settle(c, k, ending);
    forall id: nat, kind: RequestType | Sound(c, id, kind)
      ensures Sound(r, id, kind)
    {
      AwaitedSettle(c, k, ending, id);
    }
    hide Sound, CC.Settle;
  }

  /** A failed client awaits nothing in particular any more. */
  lemma WiredFailed(c: Client, r: Client, q: seq<Command>, m: seq<CC.Incoming>)
    requires Wired(c, q, m) && r.failed && r.issued == c.issued
    ensures Wired(r, q, m)
  {
    forall id: nat, kind: RequestType | Sound(c, id, kind)
      ensures Sound(r, id, kind)
    {
    }
    hide Sound;
  }

  lemma WiredDeliver(c: Client, q: seq<Command>, m: seq<CC.Incoming>)
    requires CC.Inv(c) && Wired(c, q, m) && m != []
    ensures Wired(CC.Receive(c, m[0]), q, m[1..])
  {
    hide CC.Times;
    var r := CC.Receive(c, m[0]);
    assert Wired(c, q, m[1..]) by {
      hide Sound;
    }
    if r.failed {
      WiredFailed(c, r, q, m[1..]);
    } else if m[0].Reply? {
      var k := CC.Position(c.pending, m[0].response.id).value;
      var ending := CC.EndingFor(c.pending[k].kind, m[0].response);
      forall id: nat, kind: RequestType | Sound(c, id, kind) && id != m[0].response.id
        ensures Sound(r, id, kind)
      {
        AwaitedSettle(c, k, ending, id);
      }
      hide Sound, CC.Receive;
    }
  }

  // ---------------------------------------------------------------- the two states

  predicate OkAt(m: seq<CC.Incoming>, i: int) {
    0 <= i < |m| && m[i].Reply? && m[i].response.ok
  }

  /** A successful settlement whose call has not continued yet. */
  predicate WaitingAt(settled: seq<CC.Settlement>, resumed: set<nat>, k: int) {
    0 <= k < |settled| && k !in resumed && settled[k].ending.Succeeded?
  }

  /** The command a session in this state may issue, and the one it issued before it came here. */
  function Current(session: TargetState): RequestType {
    if session == Ready then CC.MetricsStart else CC.MetricsStop
  }

  function Previous(session: TargetState): RequestType {
    if session == Ready then CC.MetricsStop else CC.MetricsStart
  }

  predicate NoneOf(q: seq<Command>, kind: RequestType) {
    forall i :: 0 <= i < |q| ==> q[i].kind != kind
  }

  /** Leftovers of the previous state come before the commands of the current one. */
  predicate LeftoversFirst(q: seq<Command>, session: TargetState) {
    forall i, j :: 0 <= i < j < |q| && q[i].kind == Current(session) ==> q[j].kind != Previous(session)
  }

  /** A good answer is on its way back, or received by a call that has not continued. */
  ghost predicate AnyOk(settled: seq<CC.Settlement>, resumed: set<nat>, m: seq<CC.Incoming>) {
    (exists i :: OkAt(m, i)) || (exists k :: WaitingAt(settled, resumed, k))
  }

  /** There is at most one such answer, and it answers a command of the current state. */
  ghost predicate OneOk(settled: seq<CC.Settlement>, resumed: set<nat>, m: seq<CC.Incoming>, kind: RequestType) {
    && (forall i, j :: OkAt(m, i) && OkAt(m, j) ==> i == j)
    && (forall k, l :: WaitingAt(settled, resumed, k) && WaitingAt(settled, resumed, l) ==> k == l)
    && (forall i, k :: OkAt(m, i) ==> !WaitingAt(settled, resumed, k))
    && (forall i :: OkAt(m, i) ==> m[i].response.kind == kind)
    && (forall k :: WaitingAt(settled, resumed, k) ==> settled[k].ending.response.kind == kind)
  }

  /** The state of an agent whose target has not exited. */
  function Expected(session: TargetState, anyOk: bool, spoiled: bool): TargetState {
    if anyOk then Goal(Current(session)) else if spoiled then Ready else session
  }

  /**
    * While the session is ready or measuring, the agent is one step ahead when a good answer is on its way, stays ready
    * once an answer has been spoiled, and is otherwise in the same state, unless it has failed and its report is still
    * on its way.
    */
  ghost predicate Locked(session: TargetState, agent: TargetState, spoiled: bool, settled: seq<CC.Settlement>,
                         resumed: set<nat>, q: seq<Command>, m: seq<CC.Incoming>)
  {
    var anyOk := AnyOk(settled, resumed, m);
    && OneOk(settled, resumed, m, Current(session))
    && LeftoversFirst(q, session)
    && (anyOk ==> NoneOf(q, Previous(session)) && !spoiled)
    && (spoiled ==> session == Measuring && NoneOf(q, CC.MetricsStart))
    && (if agent == Failed then CC.ErrorEvent in m else agent == Expected(session, anyOk, spoiled))
  }

  predicate Active(session: TargetState) {
    session == Ready || session == Measuring
  }

  lemma LockedError(session: TargetState, agent: TargetState, spoiled: bool, settled: seq<CC.Settlement>,
                    resumed: set<nat>, q: seq<Command>, m: seq<CC.Incoming>, message: CC.Incoming)
    requires Active(session) && Locked(session, agent, spoiled, settled, resumed, q, m)
    requires q != [] && AnswerTo(q[0], message) && !message.response.ok
    ensures Locked(session, agent, spoiled, settled, resumed, q[1..], m + [message])
  {
    OksAppend(m, message);
    hide OkAt, WaitingAt;
  }

  lemma OksAppend(m: seq<CC.Incoming>, message: CC.Incoming)
    ensures forall i :: OkAt(m + [message], i) <==> OkAt(m, i) || (i == |m| && message.Reply? && message.response.ok)
    ensures forall i :: OkAt(m, i) ==> (m + [message])[i] == m[i]
    ensures (m + [message])[|m|] == message
  {
  }

  /** A command that ends well is one of the current state, and takes the agent one step ahead of the session. */
  lemma LockedFinish(session: TargetState, agent: TargetState, spoiled: bool, settled: seq<CC.Settlement>,
                     resumed: set<nat>, q: seq<Command>, m: seq<CC.Incoming>, message: CC.Incoming)
    requires Active(session) && Locked(session, agent, spoiled, settled, resumed, q, m)
    requires q != [] && AnswerTo(q[0], message) && message.response.ok
    requires q[0].kind.MetricsStart? || q[0].kind.MetricsStop?
    requires CanTransition(agent, Goal(q[0].kind))
    ensures Locked(session, Goal(q[0].kind), spoiled, settled, resumed, q[1..], m + [message])
  {
    OksAppend(m, message);
    assert !AnyOk(settled, resumed, m) && q[0].kind == Current(session) && !spoiled;
    assert OkAt(m + [message], |m|);
    hide OkAt, WaitingAt, CanTransition;
  }

  lemma LockedEvent(session: TargetState, agent: TargetState, spoiled: bool, settled: seq<CC.Settlement>,
                    resumed: set<nat>, q: seq<Command>, m: seq<CC.Incoming>)
    requires Active(session) && Locked(session, agent, spoiled, settled, resumed, q, m)
    ensures Locked(session, agent, spoiled, settled, resumed, q, m + [CC.ErrorEvent])
    ensures Locked(session, Failed, spoiled, settled, resumed, q, m + [CC.ErrorEvent])
  {
    OksAppend(m, CC.ErrorEvent);
    assert (m + [CC.ErrorEvent])[|m|] == CC.ErrorEvent;
    hide OkAt, WaitingAt;
  }

  lemma LockedSend(session: TargetState, agent: TargetState, spoiled: bool, settled: seq<CC.Settlement>,
                   resumed: set<nat>, q: seq<Command>, m: seq<CC.Incoming>, id: nat)
    requires Active(session) && Locked(session, agent, spoiled, settled, resumed, q, m)
    ensures Locked(session, agent, spoiled, settled, resumed, q + [Command(id, Current(session))], m)
  {
    hide OneOk, AnyOk;
  }

  lemma LockedLost(session: TargetState, agent: TargetState, spoiled: bool, settled: seq<CC.Settlement>,
                   resumed: set<nat>, q: seq<Command>, m: seq<CC.Incoming>, k: nat)
    requires Active(session) && Locked(session, agent, spoiled, settled, resumed, q, m) && k < |q|
    ensures Locked(session, agent, spoiled, settled, resumed, q[..k] + q[k + 1..], m)
  {
    hide OneOk, AnyOk;
  }

  lemma LockedRejected(session: TargetState, agent: TargetState, spoiled: bool, settled: seq<CC.Settlement>,
                       resumed: set<nat>, q: seq<Command>, m: seq<CC.Incoming>, settlement: CC.Settlement)
    requires Active(session) && Locked(session, agent, spoiled, settled, resumed, q, m)
    requires settlement.ending.Rejected?
    ensures Locked(session, agent, spoiled, settled + [settlement], resumed, q, m)
  {
    forall k
      ensures WaitingAt(settled + [settlement], resumed, k) <==> WaitingAt(settled, resumed, k)
    {
    }
    hide OkAt, WaitingAt;
  }

  /** A delivered reply leaves the channel; a good one waits for its call to continue. */
  lemma LockedDeliver(session: TargetState, agent: TargetState, spoiled: bool, settled: seq<CC.Settlement>,
                      resumed: set<nat>, q: seq<Command>, m: seq<CC.Incoming>, settlement: CC.Settlement)
    requires Active(session) && Locked(session, agent, spoiled, settled, resumed, q, m)
    requires m != [] && m[0].Reply? && |settled| !in resumed
    requires settlement.ending == if m[0].response.ok then CC.Succeeded(m[0].response) else CC.Rejected(CC.RemoteError)
    ensures Locked(session, agent, spoiled, settled + [settlement], resumed, q, m[1..])
  {
    var after := settled + [settlement];
    forall i
      ensures OkAt(m[1..], i) <==> i >= 0 && OkAt(m, i + 1)
    {
    }
    forall k
      ensures WaitingAt(after, resumed, k) <==> WaitingAt(settled, resumed, k) || (k == |settled| && OkAt(m, 0))
    {
    }
    assert AnyOk(after, resumed, m[1..]) == AnyOk(settled, resumed, m) by {
      if OkAt(m, 0) {
        assert WaitingAt(after, resumed, |settled|);
      }
      forall i | OkAt(m, i) && i > 0
        ensures OkAt(m[1..], i - 1)
      {
      }
    }
    assert forall k :: WaitingAt(settled, resumed, k) ==> after[k] == settled[k];
    assert forall i :: OkAt(m[1..], i) ==> m[1..][i] == m[i + 1];
    assert CC.ErrorEvent in m ==> CC.ErrorEvent in m[1..];
    hide WaitingAt;
  }

  lemma LockedOther(session: TargetState, agent: TargetState, spoiled: bool, settled: seq<CC.Settlement>,
                    resumed: set<nat>, q: seq<Command>, m: seq<CC.Incoming>)
    requires Active(session) && Locked(session, agent, spoiled, settled, resumed, q, m)
    requires m != [] && m[0].OtherEvent?
    ensures Locked(session, agent, spoiled, settled, resumed, q, m[1..])
  {
    forall i
      ensures OkAt(m[1..], i) <==> i >= 0 && OkAt(m, i + 1)
    {
    }
    forall i | OkAt(m, i)
      ensures OkAt(m[1..], i - 1)
    {
    }
    assert CC.ErrorEvent in m ==> CC.ErrorEvent in m[1..];
    hide WaitingAt;
  }

  /** A call that continues after a rejection changes nothing. */
  lemma LockedResumeRejected(session: TargetState, agent: TargetState, spoiled: bool, settled: seq<CC.Settlement>,
                             resumed: set<nat>, q: seq<Command>, m: seq<CC.Incoming>, k: nat)
    requires Active(session) && Locked(session, agent, spoiled, settled, resumed, q, m)
    requires k < |settled| && !WaitingAt(settled, resumed, k)
    ensures Locked(session, agent, spoiled, settled, resumed + {k}, q, m)
  {
    forall l
      ensures WaitingAt(settled, resumed + {k}, l) <==> WaitingAt(settled, resumed, l)
    {
    }
    hide OkAt, WaitingAt;
  }

  /** A call that continues after a good answer takes the session to where the agent is, or finds it spoiled. */
  lemma LockedResumeOk(session: TargetState, agent: TargetState, spoiled: bool, settled: seq<CC.Settlement>,
                       resumed: set<nat>, q: seq<Command>, m: seq<CC.Incoming>, k: nat)
    requires Active(session) && Locked(session, agent, spoiled, settled, resumed, q, m)
    requires WaitingAt(settled, resumed, k)
    ensures Locked(Goal(Current(session)), agent, spoiled, settled, resumed + {k}, q, m)
    ensures session == Measuring ==> Locked(session, agent, true, settled, resumed + {k}, q, m)
  {
    forall l
      ensures !WaitingAt(settled, resumed + {k}, l)
    {
      assert WaitingAt(settled, resumed + {k}, l) ==> WaitingAt(settled, resumed, l);
    }
    assert forall i :: !OkAt(m, i);
    assert AnyOk(settled, resumed, m);
    hide OkAt, WaitingAt;
  }
}
