/** The connection as the class of the source, on the ring buffer with both clocks. */
module WebSocketConnectionCode {
  import opened Basics
  import opened TimestampQueueCode
  import opened WS = WebSocketConnection

  /** The counters that a connection's callbacks update. */
  class Counters {
    var sent: nat
    var completed: nat
    var aborted: nat
    var connectionErrors: nat
    var timeouts: nat
    var protocolErrors: nat
    var scheduled: nat
    ghost var answered: seq<real>
    ghost var lost: nat
    ghost var slots: nat
    ghost var refused: nat

    ghost function View(): Counts
      reads this
    {
      Counts(sent, completed, aborted, connectionErrors, timeouts, protocolErrors, scheduled, answered, lost, slots,
             refused)
    }

    constructor ()
      ensures View() == NEW.n
    {
      sent, completed, aborted, connectionErrors, timeouts, protocolErrors, scheduled := 0, 0, 0, 0, 0, 0, 0;
      answered, lost, slots, refused := [], 0, 0, 0;
    }
  }

  class WebSocketConnection {
    const d: Setup
    const n: Counters
    const timestamps: TimestampQueue
    var attached: bool
    var ready: bool
    var connected: bool
    var stopped: bool
    var errorObserved: bool
    var backpressured: bool
    var poll: bool
    var reconnect: bool
    var timer: Option<real>

    ghost predicate Valid()
      reads this, timestamps
    {
      && timestamps.Valid() && timestamps.latencyStarts.Length == d.maxInFlight && timestamps.timeoutStarts != null
    }

    ghost function View(): State
      requires Valid()
      reads this, n, timestamps, timestamps.latencyStarts, timestamps.timeoutStarts
    {
      State(Conn(attached, ready, connected, stopped, errorObserved, backpressured, poll, reconnect, timer,
                 timestamps.Contents(), timestamps.Timeouts()),
            n.View())
    }

    constructor (d: Setup)
      ensures Valid() && this.d == d && View() == NEW
      ensures fresh(n) && fresh(timestamps) && fresh(timestamps.latencyStarts) && fresh(timestamps.timeoutStarts)
    {
      this.d := d;
      n := new Counters();
      timestamps := new TimestampQueue(d.maxInFlight, true);
      attached, ready, connected, stopped, errorObserved := true, false, false, false, false;
      backpressured, poll, reconnect, timer := false, false, false, None;
    }

    /** The part of discarding and closing that lets go of the socket. */
    method Detach()
      requires Valid()
      modifies `attached, `ready, `timer, `poll, `backpressured, `connected
      ensures !attached && !ready && timer == None && !poll && !backpressured && !connected
    {
      attached, ready := false, false;
      timer := None;
      poll := false;
      EndBackpressure();
      connected := false;
    }

    /** Everything in flight is aborted. */
    method AbortInFlight()
      requires Valid()
      modifies n`aborted, timestamps
      ensures Valid() && timestamps.Contents() == [] && timestamps.Timeouts() == []
      ensures n.aborted == old(n.aborted) + |old(timestamps.Contents())|
    {
      var aborted := timestamps.size;
      timestamps.Clear();
      if aborted > 0 {
        n.aborted := n.aborted + aborted;
      }
    }

    /** `#discard`. */
    method DiscardSocket()
      requires Valid()
      modifies this, n, timestamps
      ensures Valid() && View() == Discard(old(View()))
    {
      Detach();
      AbortInFlight();
      if !stopped {
        reconnect := true;
      }
    }

    method EndBackpressure()
      requires Valid()
      modifies `backpressured, `poll
      ensures backpressured == false && poll == (old(poll) && !old(backpressured))
    {
      if !backpressured {
        return;
      }
      poll := false;
      backpressured := false;
    }

    /** `#scheduleTimeout`: arms the timer for the oldest message in flight. */
    method ScheduleTimeout()
      requires Valid()
      modifies `timer
      ensures timer == Oldest(timestamps.Timeouts())
    {
      timer := timestamps.PeekTimeoutStart();
    }

    /** The counters and the backpressure after a send. */
    method RecordSent(a: Attempt, scheduled: bool)
      requires Valid()
      modifies n`sent, n`scheduled, `timer, `backpressured, `poll
      ensures n.sent == old(n.sent) + 1 && n.scheduled == old(n.scheduled) + if scheduled then 1 else 0
      ensures timer == Oldest(timestamps.Timeouts())
      ensures backpressured == (old(backpressured) || a.buffered > d.maxBuffered)
      ensures poll == (old(poll) || (backpressured && !old(backpressured)))
    {
      n.sent := n.sent + 1;
      if scheduled {
        n.scheduled := n.scheduled + 1;
      }
      ScheduleTimeout();
      if a.buffered > d.maxBuffered && !backpressured {
        backpressured := true;
        poll := true;
      }
    }

    /** What a send that does not throw leaves. */
    method PushTime(timestamp: real, a: Attempt, scheduled: bool)
      requires Valid() && timestamps.size < d.maxInFlight
      modifies this, n, timestamps, timestamps.latencyStarts, timestamps.timeoutStarts
      ensures Valid()
      ensures var c := old(View()).c;
              var blocked := c.backpressured || a.buffered > d.maxBuffered;
              var timeouts := c.timeoutStarts + [a.now];
              View().c == c.(latencyStarts := c.latencyStarts + [timestamp], timeoutStarts := timeouts,
                             timer := Oldest(timeouts), backpressured := blocked,
                             poll := c.poll || (blocked && !c.backpressured))
      ensures n.View() == old(n.View()).(sent := old(n.sent) + 1,
                                         scheduled := old(n.scheduled) + if scheduled then 1 else 0)
    {
      var overflow := timestamps.Push(timestamp, a.now);
      RecordSent(a, scheduled);
    }

    /** `#send`. */
    method SendMessage(a: Attempt, scheduledAt: Option<real>) returns (sent: bool)
      requires Valid()
      modifies this, n, timestamps, timestamps.latencyStarts, timestamps.timeoutStarts
      ensures Valid() && View() == Send(d, old(View()), a, scheduledAt)
      ensures sent == (CanSend(d, old(View()).c) && !a.throws)
    {
      if !attached || !ready || timestamps.size >= d.maxInFlight {
        return false;
      }
      var timestamp := if scheduledAt.Some? && d.correctOmission then scheduledAt.value else a.now;
      if a.throws {
        n.connectionErrors := n.connectionErrors + 1;
        DiscardSocket();
        return false;
      }
      PushTime(timestamp, a, scheduledAt.Some?);
      return true;
    }

    method FillClosedLoop(attempts: seq<Attempt>)
      requires Valid() && |attempts| >= d.maxInFlight
      modifies this, n, timestamps, timestamps.latencyStarts, timestamps.timeoutStarts
      ensures Valid() && View() == Fill(d, old(View()), attempts)
    {
      if d.fixedRate || !connected || stopped || backpressured || !attached {
        return;
      }
      ghost var start := View();
      var k := 0;
      while timestamps.size < d.maxInFlight && !backpressured
        invariant Valid() && k <= |attempts| && d.maxInFlight - timestamps.size <= |attempts| - k
        invariant FillLoop(d, View(), attempts[k..]) == FillLoop(d, start, attempts)
        decreases |attempts| - k
      {
        var sent := SendMessage(attempts[k], None);
        if !sent {
          return;
        }
        assert attempts[k..][1..] == attempts[k + 1..];
        k := k + 1;
      }
    }

    method OnOpened(attempts: seq<Attempt>)
      requires Valid() && |attempts| >= d.maxInFlight
      modifies this, n, timestamps, timestamps.latencyStarts, timestamps.timeoutStarts
      ensures Valid() && View() == OnOpen(d, old(View()), attempts)
    {
      if !attached || stopped {
        return;
      }
      ready, connected := true, true;
      FillClosedLoop(attempts);
    }

    /** A message that answers nothing is a protocol error, and the socket is discarded. */
    method RefuseMessage(ghost tookTime: bool)
      requires Valid()
      modifies this, n, timestamps
      ensures Valid()
      ensures var s := old(View());
              View() == Discard(State(s.c, s.n.(protocolErrors := s.n.protocolErrors + 1,
                                                lost := s.n.lost + if tookTime then 1 else 0)))
    {
      n.protocolErrors := n.protocolErrors + 1;
      n.lost := n.lost + if tookTime then 1 else 0;
      DiscardSocket();
    }

    /** The oldest send time answers a message; without one, or for an unsupported payload, the socket is discarded. */
    method TakeTime(supported: bool) returns (answered: bool)
      requires Valid()
      modifies this, n, timestamps
      ensures Valid()
      ensures answered == (supported && old(View()).c.latencyStarts != [])
      ensures var s := old(View());
              var rest := s.c.(latencyStarts := Rest(s.c.latencyStarts), timeoutStarts := Rest(s.c.timeoutStarts));
              View() == if answered then State(rest, Answer(s))
                        else
                          Discard(State(rest, s.n.(protocolErrors := s.n.protocolErrors + 1,
                                                   lost := s.n.lost + if s.c.latencyStarts == [] then 0 else 1)))
    {
      var sentAt := timestamps.Shift();
      if !supported || sentAt == None {
        RefuseMessage(sentAt.Some?);
        return false;
      }
      n.completed := n.completed + 1;
      n.answered := n.answered + [sentAt.value];
      return true;
    }

    /** The timer moves on to the next message, and a socket buffer that has room again ends backpressure. */
    method AfterAnswer(buffered: nat)
      requires Valid()
      modifies `timer, `poll, `backpressured
      ensures timer == Oldest(timestamps.Timeouts())
      ensures backpressured == (old(backpressured) && buffered > d.maxBuffered)
      ensures poll == (old(poll) && !(old(backpressured) && buffered <= d.maxBuffered))
    {
      ScheduleTimeout();
      if backpressured && buffered <= d.maxBuffered {
        EndBackpressure();
        poll := false;
      }
    }

    /** The message handler. */
    method OnMessageEvent(supported: bool, buffered: nat, attempts: seq<Attempt>)
      requires Valid() && |attempts| >= d.maxInFlight
      modifies this, n, timestamps, timestamps.latencyStarts, timestamps.timeoutStarts
      ensures Valid() && View() == OnMessage(d, old(View()), supported, buffered, attempts)
    {
      if !attached || stopped {
        return;
      }
      var answered := TakeTime(supported);
      if !answered {
        return;
      }
      AfterAnswer(buffered);
      FillClosedLoop(attempts);
    }

    method OnErrorEvent()
      requires Valid()
      modifies this, n
      ensures Valid() && View() == OnError(old(View()))
    {
      if attached && !stopped && !errorObserved {
        errorObserved := true;
        n.connectionErrors := n.connectionErrors + 1;
      }
    }

    method OnCloseEvent()
      requires Valid()
      modifies this, n, timestamps
      ensures Valid() && View() == OnClose(old(View()))
    {
      if !attached {
        return;
      }
      if !stopped && !errorObserved {
        n.connectionErrors := n.connectionErrors + 1;
      }
      DiscardSocket();
    }

    method OnTimerEvent()
      requires Valid()
      modifies this, n, timestamps
      ensures Valid() && View() == OnTimeout(old(View()))
    {
      timer := None;
      if timestamps.size == 0 || !attached {
        return;
      }
      n.timeouts := n.timeouts + 1;
      DiscardSocket();
    }

    /** The poll timer: backpressure ends when the socket buffer has room, and is polled again otherwise. */
    method OnPollEvent(buffered: nat, attempts: seq<Attempt>)
      requires Valid() && |attempts| >= d.maxInFlight
      modifies this, n, timestamps, timestamps.latencyStarts, timestamps.timeoutStarts
      ensures Valid() && View() == OnPoll(d, old(View()), buffered, attempts)
    {
      poll := false;
      if !attached || buffered <= d.maxBuffered {
        EndBackpressure();
        FillClosedLoop(attempts);
      } else if backpressured && !stopped {
        poll := true;
      }
    }

    method CanScheduleOperation(buffered: nat) returns (can: bool)
      requires Valid()
      ensures can == CanSchedule(d, View().c, buffered)
    {
      can := d.fixedRate && connected && !stopped && !backpressured && attached && ready && buffered <= d.maxBuffered
             && timestamps.size < d.maxInFlight;
    }

    /** Sends a scheduled operation, or throws when the connection has no room for it. */
    method ScheduleNext(scheduledAt: real, buffered: nat, a: Attempt) returns (thrown: bool)
      requires Valid()
      modifies this, n, timestamps, timestamps.latencyStarts, timestamps.timeoutStarts
      ensures Valid() && thrown == !CanSchedule(d, old(View()).c, buffered)
      ensures View() == if thrown then old(View()) else ScheduleOperation(d, old(View()), scheduledAt, a)
    {
      var can := CanScheduleOperation(buffered);
      if !can {
        return true;
      }
      n.slots := n.slots + 1;
      n.refused := n.refused + if a.throws then 1 else 0;
      var _ := SendMessage(a, Some(scheduledAt));
      return false;
    }

    /** `connect`, with the reconnection timer that led to it. */
    method OnReconnectEvent()
      requires Valid()
      modifies this
      ensures Valid() && View() == OnReconnect(old(View()))
    {
      reconnect := false;
      if stopped || attached {
        return;
      }
      attached := true;
      errorObserved := false;
    }

    method StopConnection()
      requires Valid()
      modifies this, timestamps
      ensures Valid() && View() == Stop(old(View()))
    {
      stopped := true;
      reconnect := false;
      Detach();
      timestamps.Clear();
    }
  }
}
