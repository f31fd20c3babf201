/** The decoder object: it loops over its own buffer and updates it in place. */
module NdjsonDecoderCode {
  import opened Basics
  import opened Ndjson

  function After<V>(messages: seq<V>, o: Outcome<V>): Outcome<V> {
    o.(messages := messages + o.messages)
  }

  lemma AfterNothing<V>(o: Outcome<V>)
    ensures After([], o) == o
  {
  }

  /** What draining the first frame adds to the messages so far. */
  lemma AfterFrame<V>(parse: string -> Option<V>, max: nat, buffered: string, messages: seq<V>)
    ensures var f := NextFrame(parse, max, buffered);
            var o := After(messages, Drain(parse, max, buffered));
            && (f.Incomplete? && Size(buffered) > max ==> o == Outcome(messages, FAILED, Some(FrameTooLong)))
            && (f.Incomplete? && Size(buffered) <= max ==> o == Outcome(messages, Decoder(buffered, false), None))
            && (f.TooLong? ==> o == Outcome(messages, FAILED, Some(FrameTooLong)))
            && (f.Invalid? ==> o == Outcome(messages, FAILED, Some(InvalidJson)))
            && (f.Blank? ==> o == After(messages, Drain(parse, max, f.rest)))
            && (f.Message? ==> o == After(messages + [f.value], Drain(parse, max, f.rest)))
  {
    hide NextFrame, Size;
    assert messages + [] == messages;
    var f := NextFrame(parse, max, buffered);
    if f.Message? {
      var o := Drain(parse, max, f.rest);
      assert messages + ([f.value] + o.messages) == messages + [f.value] + o.messages;
    }
  }

  class NdjsonDecoder<V> {
    const parse: string -> Option<V>
    const maxLineBytes: nat
    var buffered: string
    var failed: bool

    function View(): Decoder
      reads this
    {
      Decoder(buffered, failed)
    }

    /** A failed decoder has let go of its buffer. */
    predicate Valid()
      reads this
    {
      failed ==> buffered == ""
    }

    constructor (parse: string -> Option<V>, maxLineBytes: nat)
      ensures this.parse == parse && this.maxLineBytes == maxLineBytes && View() == START && Valid()
    {
      this.parse := parse;
      this.maxLineBytes := maxLineBytes;
      buffered := "";
      failed := false;
    }

    method Fail(error: DecodeError) returns (reported: Option<DecodeError>)
      modifies this
      ensures View() == if old(failed) then old(View()) else FAILED
      ensures reported == if old(failed) then None else Some(error)
    {
      reported := None;
      if !failed {
        failed := true;
        buffered := "";
        reported := Some(error);
      }
    }

    /** Takes the line before a newline off the buffer and hands it on. */
    method TakeLine(newline: nat) returns (messages: seq<V>, reported: Option<DecodeError>)
      requires !failed && newline == Newline(buffered)
      modifies this
      ensures var frame := NextFrame(parse, maxLineBytes, old(buffered));
              && !frame.Incomplete?
              && (frame.TooLong? ==> View() == FAILED && messages == [] && reported == Some(FrameTooLong))
              && (frame.Invalid? ==> View() == FAILED && messages == [] && reported == Some(InvalidJson))
              && (frame.Blank? ==> View() == Decoder(frame.rest, false) && messages == [] && reported == None)
              && (frame.Message? ==>
                    View() == Decoder(frame.rest, false) && messages == [frame.value] && reported == None)
    {
      hide NewlineFrom, Size, IsBlank, StripReturn;
      messages, reported := [], None;
      var line := StripReturn(buffered[..newline]);
      buffered := buffered[newline + 1..];
      if Size(line) > maxLineBytes {
        reported := Fail(FrameTooLong);
        return;
      }
      if IsBlank(line) {
        return;
      }
      match parse(line) {
        case Some(value) => messages := [value];
        case None => reported := Fail(InvalidJson);
      }
    }

    /** Returns the values handed to the message callback and the error handed to the error callback. */
    method Push(chunk: string) returns (messages: seq<V>, reported: Option<DecodeError>)
      requires Valid()
      modifies this
      ensures Valid()
      ensures Outcome(messages, View(), reported) == Ndjson.Push(parse, maxLineBytes, old(View()), chunk)
    {
      hide NextFrame, Newline, Size, Drain, After;
      messages, reported := [], None;
      if failed {
        return;
      }
      buffered := buffered + chunk;
      AfterNothing(Drain(parse, maxLineBytes, buffered));
      AfterFrame(parse, maxLineBytes, buffered, []);
      if Size(buffered) > maxLineBytes && Newline(buffered) == -1 {
        reported := Fail(FrameTooLong);
        return;
      }
      ghost var whole := Drain(parse, maxLineBytes, buffered);
      var newline := Newline(buffered);
      while newline != -1 && !failed
        invariant reported.Some? <==> failed
        invariant !failed ==> newline == Newline(buffered)
        invariant !failed ==> whole == After(messages, Drain(parse, maxLineBytes, buffered))
        invariant failed ==> View() == FAILED && whole == Outcome(messages, FAILED, reported)
        decreases !failed, |buffered|
      {
        AfterFrame(parse, maxLineBytes, buffered, messages);
        assert messages + [] == messages;
        var taken;
        taken, reported := TakeLine(newline);
        messages := messages + taken;
        newline := Newline(buffered);
      }
      ghost var left := buffered;
      if !failed && Size(buffered) > maxLineBytes {
        reported := Fail(FrameTooLong);
      }
      AfterFrame(parse, maxLineBytes, left, messages);
    }

    method End() returns (reported: Option<DecodeError>)
      requires Valid()
      modifies this
      ensures (View(), reported) == Ndjson.End(old(View())) && Valid()
    {
      reported := None;
      if !failed && !IsBlank(buffered) {
        reported := Fail(PartialFrame);
      }
      buffered := "";
    }
  }
}
