/** The ring buffer of send times (src/load/shared/timestamp-queue.ts). */
module TimestampQueueCode {
  import opened Basics

  /** A position of the ring, which is at most one round past its start. */
  function Wrap(i: nat, n: nat): (r: nat)
    requires i < n + n
    ensures r < n
  {
    if i < n then i else i - n
  }

  lemma WrapIsRemainder(i: nat, n: nat)
    requires n > 0 && i < n + n
    ensures i % n == Wrap(i, n)
  {
    if i >= n {
      assert i == n * 1 + (i - n);
    }
  }

  predicate InRing(length: nat, head: nat, size: nat) {
    size <= length && (head < length || head == length == 0)
  }

  /** The entries of a ring from its head on. */
  function Ring(data: seq<real>, head: nat, size: nat): (s: seq<real>)
    requires InRing(|data|, head, size)
    ensures |s| == size && forall i :: 0 <= i < size ==> s[i] == data[Wrap(head + i, |data|)]
  {
    seq(size, i requires 0 <= i < size => data[Wrap(head + i, |data|)])
  }

  lemma RingPush(data: seq<real>, head: nat, size: nat, x: real)
    requires InRing(|data|, head, size) && size < |data|
    ensures Ring(data[Wrap(head + size, |data|) := x], head, size + 1) == Ring(data, head, size) + [x]
  {
  }

  lemma RingShift(data: seq<real>, head: nat, size: nat)
    requires InRing(|data|, head, size) && size > 0
    ensures Ring(data, head, size)[0] == data[head]
    ensures Ring(data, Wrap(head + 1, |data|), size - 1) == Ring(data, head, size)[1..]
  {
  }

  class TimestampQueue {
    const latencyStarts: array<real>
    const timeoutStarts: array?<real>
    var head: nat
    var size: nat

    predicate Valid()
      reads this
    {
      && InRing(latencyStarts.Length, head, size)
      && (timeoutStarts != null ==>
            timeoutStarts != latencyStarts && timeoutStarts.Length == latencyStarts.Length)
    }

    /** The queued latency starts, oldest first. */
    function Contents(): (s: seq<real>)
      requires Valid()
      reads this, latencyStarts
      ensures |s| == size
    {
      Ring(latencyStarts[..], head, size)
    }

    /** The timeout starts that go with them; without tracking they are the latency starts. */
    function Timeouts(): (s: seq<real>)
      requires Valid()
      reads this, latencyStarts, timeoutStarts
      ensures |s| == size
    {
      if timeoutStarts == null then Contents() else Ring(timeoutStarts[..], head, size)
    }

    constructor (capacity: nat, trackTimeouts: bool)
      ensures Valid() && Contents() == [] && Timeouts() == []
      ensures latencyStarts.Length == capacity && (timeoutStarts != null <==> trackTimeouts)
      ensures fresh(latencyStarts) && (timeoutStarts != null ==> fresh(timeoutStarts))
    {
      latencyStarts := new real[capacity](_ => 0.0);
      if trackTimeouts {
        timeoutStarts := new real[capacity](_ => 0.0);
      } else {
        timeoutStarts := null;
      }
      head, size := 0, 0;
    }

    /** Appends a pair of times; a full queue throws and stays as it is. */
    method Push(latencyStart: real, timeoutStart: real) returns (thrown: bool)
      requires Valid()
      modifies this, latencyStarts, timeoutStarts
      ensures Valid()
      ensures thrown <==> |old(Contents())| == latencyStarts.Length
      ensures Contents() == old(Contents()) + if thrown then [] else [latencyStart]
      ensures Timeouts() == old(Timeouts())
              + if thrown then [] else [if timeoutStarts == null then latencyStart else timeoutStart]
    {
      if size == latencyStarts.Length {
        return true;
      }
      WrapIsRemainder(head + size, latencyStarts.Length);
      var index := (head + size) % latencyStarts.Length;
      RingPush(latencyStarts[..], head, size, latencyStart);
      if timeoutStarts != null {
        RingPush(timeoutStarts[..], head, size, timeoutStart);
      }
      latencyStarts[index] := latencyStart;
      if timeoutStarts != null {
        timeoutStarts[index] := timeoutStart;
      }
      size := size + 1;
      return false;
    }

    /** Removes and returns the oldest latency start. */
    method Shift() returns (value: Option<real>)
      requires Valid()
      modifies this
      ensures Valid()
      ensures value == if old(Contents()) == [] then None else Some(old(Contents())[0])
      ensures Contents() == if old(Contents()) == [] then [] else old(Contents())[1..]
      ensures Timeouts() == if old(Timeouts()) == [] then [] else old(Timeouts())[1..]
    {
      if size == 0 {
        return None;
      }
      value := Some(latencyStarts[head]);
      RingShift(latencyStarts[..], head, size);
      if timeoutStarts != null {
        RingShift(timeoutStarts[..], head, size);
      }
      WrapIsRemainder(head + 1, latencyStarts.Length);
      head := (head + 1) % latencyStarts.Length;
      size := size - 1;
    }

    method PeekTimeoutStart() returns (value: Option<real>)
      requires Valid()
      ensures value == if Timeouts() == [] then None else Some(Timeouts()[0])
    {
      if size == 0 {
        return None;
      }
      RingShift(latencyStarts[..], head, size);
      if timeoutStarts != null {
        RingShift(timeoutStarts[..], head, size);
      }
      value := Some(if timeoutStarts != null then timeoutStarts[head] else latencyStarts[head]);
    }

    method Clear()
      requires Valid()
      modifies this
      ensures Valid() && Contents() == [] && Timeouts() == []
    {
      head, size := 0, 0;
    }
  }
}
