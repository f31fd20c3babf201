/** The client as the class of the source: every method updates its fields and is tied to the function of its name. */
module ControlClientCode {
  import opened Basics
  import opened CC = ControlClient

  datatype RequestError = AlreadyFailed | TransportClosed

  class ControlClient {
    var pending: seq<Pending>
    var armed: set<nat>
    var counter: nat
    var failed: bool
    var closed: bool
    var listeners: seq<nat>
    ghost var issued: seq<RequestType>
    ghost var settled: seq<Settlement>
    ghost var notified: seq<nat>

    ghost function View(): Client
      reads this
    {
      Client(pending, armed, counter, failed, closed, listeners, issued, settled, notified)
    }

    constructor ()
      ensures View() == START
    {
      pending, armed, counter := [], {}, 0;
      failed, closed, listeners := false, false, [];
      issued, settled, notified := [], [], [];
    }

    /** Issues a request, unless the client has failed, has been closed or cannot write. */
    method Request(kind: RequestType, writable: bool) returns (r: Result<nat, RequestError>)
      modifies this
      ensures r.Ok? <==> Accepts(old(View()), writable)
      ensures r.Err? ==> View() == old(View()) && r.error == if old(failed) then AlreadyFailed else TransportClosed
      ensures r.Ok? ==> View() == CC.Request(old(View()), kind) && r.value == old(counter) + 1
    {
      if failed {
        return Err(AlreadyFailed);
      }
      if closed || !writable {
        return Err(TransportClosed);
      }
      counter := counter + 1;
      armed := armed + {counter};
      pending := pending + [Pending(counter, kind)];
      issued := issued + [kind];
      return Ok(counter);
    }

    /** Deletes a pending request, whose promise the caller then settles. */
    method Delete(k: nat)
      requires k < |pending|
      modifies `pending, `armed
      ensures pending == Remove(old(pending), k) && armed == old(armed) - {old(pending)[k].id}
    {
      armed := armed - {pending[k].id};
      pending := pending[..k] + pending[k + 1..];
    }

    method OnTimer(id: nat)
      modifies this
      ensures View() == TimerFires(old(View()), id)
    {
      var k := Position(pending, id);
      if k.Some? {
        Delete(k.value);
      } else {
        armed := armed - {id};
      }
      settled := settled + [Settlement(id, Rejected(TimedOut))];
    }

    method OnWriteError(id: nat)
      modifies this
      ensures View() == WriteFails(old(View()), id)
    {
      var k := Position(pending, id);
      if k.Some? {
        Delete(k.value);
        settled := settled + [Settlement(id, Rejected(WriteFailed))];
      }
    }

    method OnMessage(message: Incoming)
      modifies this
      ensures View() == Receive(old(View()), message)
    {
      if message.OtherEvent? {
        return;
      }
      if message.ErrorEvent? {
        Fail();
        return;
      }
      var response := message.response;
      var k := Position(pending, response.id);
      if k.None? {
        Fail();
        return;
      }
      var kind := pending[k.value].kind;
      Delete(k.value);
      if kind != response.kind {
        settled := settled + [Settlement(response.id, Rejected(WrongType))];
        return;
      }
      if !response.ok {
        settled := settled + [Settlement(response.id, Rejected(RemoteError))];
      } else {
        settled := settled + [Settlement(response.id, Succeeded(response))];
      }
    }

    /** The first failure rejects every pending request, oldest first, and then calls every listener. */
    method Fail()
      modifies this
      ensures View() == CC.Fail(old(View()))
    {
      if failed {
        return;
      }
      failed := true;
      hide Position, RemoveListener, Receive;
      var i := 0;
      while i < |pending|
        modifies `armed, `settled
        invariant 0 <= i <= |pending|
        invariant armed == old(armed) - Ids(pending[..i])
        invariant settled == old(settled) + RejectAll(pending[..i])
      {
        var id := pending[i].id;
        armed := armed - {id};
        settled := settled + [Settlement(id, Rejected(ClientFailed))];
        RejectAllNext(pending, i);
        i := i + 1;
      }
      assert pending[..i] == pending;
      hide Ids, RejectAll;
      pending := [];
      var j := 0;
      while j < |listeners|
        modifies `notified
        invariant 0 <= j <= |listeners|
        invariant notified == old(notified) + listeners[..j]
      {
        notified := notified + [listeners[j]];
        j := j + 1;
      }
      assert listeners[..j] == listeners;
    }

    method OnFailure(listener: nat)
      modifies this
      ensures View() == CC.OnFailure(old(View()), listener)
    {
      if listener !in listeners {
        listeners := listeners + [listener];
      }
      if failed {
        notified := notified + [listener];
      }
    }

    method Unsubscribe(listener: nat)
      modifies `listeners
      ensures View() == CC.Unsubscribe(old(View()), listener)
    {
      listeners := RemoveListener(listeners, listener);
    }

    /** Closing again changes nothing. */
    method Close()
      modifies `closed
      ensures View() == CC.Close(old(View()))
    {
      if closed {
        return;
      }
      closed := true;
    }
  }
}
