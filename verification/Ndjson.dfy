/**
  * The newline-delimited JSON decoder of the control channel (src/control/ndjson.ts). JSON itself stays abstract:
  * `parse` gives the value of a line, or None when parsing it or handling its value throws.
  */
module Ndjson {
  import opened Basics

  datatype DecodeError = FrameTooLong | InvalidJson | PartialFrame

  datatype Decoder = Decoder(buffered: string, failed: bool)

  const START := Decoder("", false)

  datatype Outcome<V> = Outcome(messages: seq<V>, decoder: Decoder, error: Option<DecodeError>)

  /** UTF-8 bytes of one scalar value. */
  function CharSize(c: char): nat {
    if c as int < 0x80 then 1 else if c as int < 0x800 then 2 else if c as int < 0x1_0000 then 3 else 4
  }

  /** `Buffer.byteLength`. */
  function Size(s: string): nat {
    if s == "" then 0 else CharSize(s[0]) + Size(s[1..])
  }

  lemma {:induction false} SizeConcat(a: string, b: string)
    ensures Size(a + b) == Size(a) + Size(b)
  {
    if a == "" {
      assert a + b == b;
    } else {
      assert (a + b)[1..] == a[1..] + b;
      SizeConcat(a[1..], b);
    }
  }

  /** The characters that `String.prototype.trim` removes. */
  predicate IsWhitespace(c: char) {
    var n := c as int;
    9 <= n <= 13 || n == 32 || n == 0xA0 || n == 0x1680 || 0x2000 <= n <= 0x200A
    || n == 0x2028 || n == 0x2029 || n == 0x202F || n == 0x205F || n == 0x3000 || n == 0xFEFF
  }

  predicate IsBlank(s: string) {
    forall i :: 0 <= i < |s| ==> IsWhitespace(s[i])
  }

  /** The first newline at or after an index, or -1. */
  function NewlineFrom(s: string, from: nat): (r: int)
    requires from <= |s|
    ensures -1 <= r < |s|
    ensures r == -1 ==> forall i :: from <= i < |s| ==> s[i] != '\n'
    ensures r != -1 ==> from <= r && s[r] == '\n' && forall i :: from <= i < r ==> s[i] != '\n'
    decreases |s| - from
  {
    if from == |s| then -1 else if s[from] == '\n' then from else NewlineFrom(s, from + 1)
  }

  function Newline(s: string): (r: int)
    ensures -1 <= r < |s|
    ensures r == -1 ==> forall i :: 0 <= i < |s| ==> s[i] != '\n'
    ensures r != -1 ==> s[r] == '\n' && forall i :: 0 <= i < r ==> s[i] != '\n'
  {
    NewlineFrom(s, 0)
  }

  function StripReturn(s: string): string {
    if s != "" && s[|s| - 1] == '\r' then s[..|s| - 1] else s
  }

  const FAILED := Decoder("", true)

  /** What the front of a buffer is; a complete line leaves the rest. */
  datatype Frame<V> =
    | Incomplete
    | TooLong
    | Invalid
    | Blank(rest: string)
    | Message(value: V, rest: string)

  function NextFrame<V>(parse: string -> Option<V>, max: nat, buffered: string): (f: Frame<V>)
    ensures f.Blank? || f.Message? ==> |f.rest| < |buffered|
    ensures f.Incomplete? <==> Newline(buffered) == -1
  {
    var newline := Newline(buffered);
    if newline == -1 then Incomplete
    else
      var line := StripReturn(buffered[..newline]);
      var rest := buffered[newline + 1..];
      if Size(line) > max then TooLong
      else if IsBlank(line) then Blank(rest)
      else match parse(line) case None => Invalid case Some(value) => Message(value, rest)
  }

  /** Emits every complete frame of the buffer; what is left must fit the limit. */
  function Drain<V>(parse: string -> Option<V>, max: nat, buffered: string): (o: Outcome<V>)
    ensures o.error.Some? <==> o.decoder == FAILED
    ensures o.error.None? ==> o.decoder == Decoder(o.decoder.buffered, false)
    decreases |buffered|
  {
    match NextFrame(parse, max, buffered)
    case Incomplete =>
      if Size(buffered) > max then Outcome([], FAILED, Some(FrameTooLong))
      else Outcome([], Decoder(buffered, false), None)
    case TooLong => Outcome([], FAILED, Some(FrameTooLong))
    case Invalid => Outcome([], FAILED, Some(InvalidJson))
    case Blank(rest) => Drain(parse, max, rest)
    case Message(value, rest) =>
      var o := Drain(parse, max, rest);
      o.(messages := [value] + o.messages)
  }

  function Push<V>(parse: string -> Option<V>, max: nat, d: Decoder, chunk: string): Outcome<V> {
    if d.failed then Outcome([], d, None) else Drain(parse, max, d.buffered + chunk)
  }

  function End(d: Decoder): (Decoder, Option<DecodeError>) {
    if !d.failed && !IsBlank(d.buffered) then (FAILED, Some(PartialFrame))
    else (d.(buffered := ""), None)
  }

  /** Pushes in order; a failed decoder ignores the rest. */
  function PushAll<V>(parse: string -> Option<V>, max: nat, d: Decoder, chunks: seq<string>): Outcome<V>
    decreases |chunks|
  {
    if chunks == [] then Outcome([], d, None)
    else
      var first := Push(parse, max, d, chunks[0]);
      if first.error.Some? then first
      else
        var o := PushAll(parse, max, first.decoder, chunks[1..]);
        o.(messages := first.messages + o.messages)
  }

  // ---------------------------------------------------------------- one push or many

  lemma NewlineIs(s: string, k: nat)
    requires k < |s| && s[k] == '\n'
    requires forall i :: 0 <= i < k ==> s[i] != '\n'
    ensures Newline(s) == k
  {
    hide NewlineFrom;
  }

  lemma NewlineAppend(a: string, b: string)
    requires Newline(a) != -1
    ensures Newline(a + b) == Newline(a)
    ensures (a + b)[..Newline(a)] == a[..Newline(a)]
    ensures (a + b)[Newline(a) + 1..] == a[Newline(a) + 1..] + b
  {
    hide NewlineFrom;
    NewlineIs(a + b, Newline(a));
  }

  /** More input does not change a frame that is complete. */
  lemma NextFrameAppend<V>(parse: string -> Option<V>, max: nat, a: string, b: string)
    requires !NextFrame(parse, max, a).Incomplete?
    ensures var f := NextFrame(parse, max, a);
            NextFrame(parse, max, a + b) == if f.Blank? || f.Message? then f.(rest := f.rest + b) else f
  {
    hide NewlineFrom, Size, IsBlank, StripReturn;
    NewlineAppend(a, b);
  }

  /** Draining a buffer and then more is draining both, and a failed drain has emitted a prefix. */
  lemma {:induction false} DrainAppend<V>(parse: string -> Option<V>, max: nat, a: string, b: string)
    ensures var first := Drain(parse, max, a);
            var whole := Drain(parse, max, a + b);
            if first.error.None? then
              var second := Drain(parse, max, first.decoder.buffered + b);
              whole == second.(messages := first.messages + second.messages)
            else first.messages <= whole.messages
    decreases |a|
  {
    hide NextFrame, Newline, Size;
    var f := NextFrame(parse, max, a);
    if !f.Incomplete? {
      NextFrameAppend(parse, max, a, b);
      if f.Blank? || f.Message? {
        DrainAppend(parse, max, f.rest, b);
      }
    }
  }

  /**
    * Any way of cutting a stream emits a prefix of what one push emits, and when it does not fail exactly that,
    * with the same buffer left.
    */
  lemma {:induction false} SplitInvariance<V>(parse: string -> Option<V>, max: nat, d: Decoder, chunks: seq<string>)
    requires !d.failed && chunks != []
    ensures var split := PushAll(parse, max, d, chunks);
            var whole := Push(parse, max, d, Concat(chunks));
            if split.error.None? then split == whole else split.messages <= whole.messages
    decreases |chunks|
  {
    hide Drain;
    var rest := Concat(chunks[1..]);
    DrainAppend(parse, max, d.buffered + chunks[0], rest);
    assert d.buffered + chunks[0] + rest == d.buffered + (chunks[0] + rest);
    if |chunks| == 1 {
      assert chunks[0] + rest == chunks[0];
    } else if Push(parse, max, d, chunks[0]).error.None? {
      SplitInvariance(parse, max, Push(parse, max, d, chunks[0]).decoder, chunks[1..]);
    }
  }

  /** What a push keeps: no newline and no more than the limit is ever buffered. */
  lemma {:induction false} BufferBounded<V>(parse: string -> Option<V>, max: nat, buffered: string)
    ensures var left := Drain(parse, max, buffered).decoder.buffered;
            '\n' !in left && Size(left) <= max
    decreases |buffered|
  {
    hide NewlineFrom, IsBlank, StripReturn;
    if Newline(buffered) != -1 {
      BufferBounded(parse, max, buffered[Newline(buffered) + 1..]);
    }
  }

  // ---------------------------------------------------------------- which streams every cut accepts

  /** Complete lines fit with the carriage return that a cut may leave at their end. */
  predicate RawLinesFit(max: nat, buffered: string)
    decreases |buffered|
  {
    var newline := Newline(buffered);
    newline == -1 || (Size(buffered[..newline]) <= max && RawLinesFit(max, buffered[newline + 1..]))
  }

  predicate PrefixDrains<V>(parse: string -> Option<V>, max: nat, stream: string, k: int)
    requires 0 <= k <= |stream|
  {
    Drain(parse, max, stream[..k]).error.None?
  }

  lemma NewlineTaken(stream: string, k: nat)
    requires k <= |stream|
    ensures var n := Newline(stream);
            if n != -1 && n < k then
              && Newline(stream[..k]) == n && stream[..k][..n] == stream[..n]
              && stream[..k][n + 1..] == stream[n + 1..][..k - n - 1]
            else Newline(stream[..k]) == -1
  {
    var n := Newline(stream);
    if n != -1 && n < k {
      assert stream == stream[..k] + stream[k..];
      assert stream[..k][n] == '\n';
      NewlineAppend(stream[..k], stream[k..]);
    }
  }

  lemma SizeTaken(s: string, k: nat)
    requires k <= |s|
    ensures Size(s[..k]) <= Size(s)
  {
    SizeConcat(s[..k], s[k..]);
    assert s == s[..k] + s[k..];
  }

  lemma {:induction false} PrefixAccepted<V>(parse: string -> Option<V>, max: nat, stream: string, k: nat)
    requires k <= |stream| && Drain(parse, max, stream).error.None? && RawLinesFit(max, stream)
    ensures PrefixDrains(parse, max, stream, k)
    decreases |stream|
  {
    hide NewlineFrom, Size, IsBlank, StripReturn;
    var n := Newline(stream);
    NewlineTaken(stream, k);
    if n != -1 && n < k {
      PrefixAccepted(parse, max, stream[n + 1..], k - n - 1);
    } else {
      SizeTaken(stream[..if n == -1 then |stream| else n], k);
      assert stream[..if n == -1 then |stream| else n][..k] == stream[..k];
      assert stream[..|stream|] == stream;
    }
  }

  lemma {:induction false} LongLineRefused<V>(parse: string -> Option<V>, max: nat, stream: string) returns (k: nat)
    requires Drain(parse, max, stream).error.None? && !RawLinesFit(max, stream)
    ensures k <= |stream| && !PrefixDrains(parse, max, stream, k)
    decreases |stream|
  {
    hide NewlineFrom, Size, IsBlank, StripReturn;
    var n := Newline(stream);
    if Size(stream[..n]) > max {
      k := n;
      NewlineTaken(stream, k);
    } else {
      var inner := LongLineRefused(parse, max, stream[n + 1..]);
      k := n + 1 + inner;
      NewlineTaken(stream, k);
    }
  }

  lemma {:induction false} CutsAccepted<V>(parse: string -> Option<V>, max: nat, d: Decoder, chunks: seq<string>)
    requires !d.failed && chunks != []
    requires forall k :: 0 <= k <= |Concat(chunks)| ==> Push(parse, max, d, Concat(chunks)[..k]).error.None?
    ensures PushAll(parse, max, d, chunks).error.None?
    decreases |chunks|
  {
    hide Drain;
    var stream := Concat(chunks);
    var n := |chunks[0]|;
    assert stream[..n] == chunks[0];
    var first := Push(parse, max, d, chunks[0]);
    if |chunks| > 1 {
      var rest := Concat(chunks[1..]);
      forall k | 0 <= k <= |rest|
        ensures Push(parse, max, first.decoder, rest[..k]).error.None?
      {
        assert stream[..n + k] == chunks[0] + rest[..k];
        assert d.buffered + (chunks[0] + rest[..k]) == (d.buffered + chunks[0]) + rest[..k];
        DrainAppend(parse, max, d.buffered + chunks[0], rest[..k]);
      }
      CutsAccepted(parse, max, first.decoder, chunks[1..]);
    }
  }

  ghost predicate EveryCutAccepted<V>(parse: string -> Option<V>, max: nat, stream: string) {
    forall chunks :: chunks != [] && Concat(chunks) == stream ==> PushAll(parse, max, START, chunks).error.None?
  }

  /**
    * Exactly when no way of cutting a stream fails: one push accepts it and every complete line fits the limit
    * together with its carriage return.
    */
  lemma EveryCutAcceptedExactly<V>(parse: string -> Option<V>, max: nat, stream: string)
    ensures EveryCutAccepted(parse, max, stream)
       <==> Push(parse, max, START, stream).error.None? && RawLinesFit(max, stream)
  {
    hide Drain, RawLinesFit;
    assert "" + stream == stream;
    if Push(parse, max, START, stream).error.None? && RawLinesFit(max, stream) {
      forall chunks | chunks != [] && Concat(chunks) == stream
        ensures PushAll(parse, max, START, chunks).error.None?
      {
        forall k | 0 <= k <= |stream|
          ensures Push(parse, max, START, stream[..k]).error.None?
        {
          PrefixAccepted(parse, max, stream, k);
          assert "" + stream[..k] == stream[..k];
        }
        CutsAccepted(parse, max, START, chunks);
      }
    }
    if EveryCutAccepted(parse, max, stream) {
      ConcatTwo(stream, |stream|);
      SplitInvariance(parse, max, START, [stream, ""]);
      if !RawLinesFit(max, stream) {
        LongStreamRefused(parse, max, stream);
      }
    }
  }

  lemma LongStreamRefused<V>(parse: string -> Option<V>, max: nat, stream: string)
    requires Push(parse, max, START, stream).error.None? && !RawLinesFit(max, stream)
    ensures !EveryCutAccepted(parse, max, stream)
  {
    hide Drain, RawLinesFit;
    assert "" + stream == stream;
    var k := LongLineRefused(parse, max, stream);
    assert "" + stream[..k] == stream[..k];
    ConcatTwo(stream, k);
    assert PushAll(parse, max, START, [stream[..k], stream[k..]]).error.Some?;
  }

  lemma TightFrame<V>(parse: string -> Option<V>)
    requires parse("1").Some?
    ensures Newline("1\r\n") == 2 && Size("1\r") == 2 && Size("") == 0
    ensures NextFrame(parse, 1, "1\r\n") == Message(parse("1").value, "")
  {
    hide NewlineFrom;
    var stream := "1\r\n";
    NewlineIs(stream, 2);
    assert stream[..2] == "1\r" && stream[3..] == "";
    SizeConcat("1", "\r");
    assert "1" + "\r" == "1\r" && Size("1") == 1 && Size("\r") == 1;
    assert StripReturn("1\r") == "1";
    assert !IsWhitespace("1"[0]);
  }

  /** A line that fills the limit is accepted with its carriage return, unless the newline comes in a later chunk. */
  lemma TightLine<V>(parse: string -> Option<V>)
    requires parse("1").Some?
    ensures Push(parse, 1, START, "1\r\n") == Outcome([parse("1").value], START, None)
    ensures !RawLinesFit(1, "1\r\n")
    ensures Push(parse, 1, START, "1\r") == Outcome([], FAILED, Some(FrameTooLong))
    ensures !EveryCutAccepted(parse, 1, "1\r\n")
  {
    hide NewlineFrom, Size, IsBlank, StripReturn;
    TightFrame(parse);
    var stream := "1\r\n";
    assert "" + stream == stream && "" + "1\r" == "1\r";
    assert stream[..2] == "1\r";
    assert Newline("") == -1;
    assert Drain(parse, 1, "") == Outcome([], START, None);
    LongStreamRefused(parse, 1, stream);
  }

  // ---------------------------------------------------------------- line by line

  /** The complete lines of a text, and what follows the last of them. */
  datatype Cutting = Cutting(lines: seq<string>, tail: string)

  function Cut(text: string): Cutting {
    if text == "" then Cutting([], "")
    else
      var before, last := Cut(text[..|text| - 1]), text[|text| - 1];
      if last == '\n' then Cutting(before.lines + [before.tail], "") else before.(tail := before.tail + [last])
  }

  lemma {:induction false} CutWithoutNewline(text: string)
    requires '\n' !in text
    ensures Cut(text) == Cutting([], text)
  {
    if text != "" {
      CutWithoutNewline(text[..|text| - 1]);
    }
  }

  lemma {:induction false} CutAtFirst(line: string, rest: string)
    requires '\n' !in line
    ensures Cut(line + "\n" + rest) == Cutting([line] + Cut(rest).lines, Cut(rest).tail)
  {
    var text := line + "\n" + rest;
    if rest == "" {
      assert text[..|text| - 1] == line;
      CutWithoutNewline(line);
    } else {
      assert text[..|text| - 1] == line + "\n" + rest[..|rest| - 1];
      CutAtFirst(line, rest[..|rest| - 1]);
    }
  }

  /** A line without the one return that may end it. */
  predicate LineTaken<V(==)>(parse: string -> Option<V>, max: nat, line: string) {
    Size(StripReturn(line)) <= max && (IsBlank(StripReturn(line)) || parse(StripReturn(line)).Some?)
  }

  /** The values of the lines that are not blank. */
  function Values<V>(parse: string -> Option<V>, lines: seq<string>): seq<V> {
    if lines == [] then []
    else
      var line := StripReturn(lines[0]);
      (if IsBlank(line) || parse(line).None? then [] else [parse(line).value]) + Values(parse, lines[1..])
  }

  /** The first line, if any, that is too long or does not parse. */
  function FirstBad<V(==)>(parse: string -> Option<V>, max: nat, lines: seq<string>): (k: nat)
    ensures k <= |lines| && (k < |lines| ==> !LineTaken(parse, max, lines[k]))
    ensures forall i :: 0 <= i < k ==> LineTaken(parse, max, lines[i])
  {
    if lines == [] || !LineTaken(parse, max, lines[0]) then 0 else 1 + FirstBad(parse, max, lines[1..])
  }

  /** What reading a text line by line comes to. */
  predicate ReadAs<V(==)>(parse: string -> Option<V>, max: nat, text: string, o: Outcome<V>) {
    var cutting := Cut(text);
    var k := FirstBad(parse, max, cutting.lines);
    && o.messages == Values(parse, cutting.lines[..k])
    && (if k < |cutting.lines| then
          o.error == Some(if Size(StripReturn(cutting.lines[k])) > max then FrameTooLong else InvalidJson)
        else if Size(cutting.tail) > max then o.error == Some(FrameTooLong)
        else o.error == None && o.decoder == Decoder(cutting.tail, false))
  }

  /**
    * A push emits the values of the complete lines in order, skipping blank ones, up to the first line that is too long
    * or does not parse, which it reports; otherwise it keeps what follows the last line, if that fits.
    */
  lemma {:induction false} DrainExactly<V>(parse: string -> Option<V>, max: nat, text: string)
    ensures ReadAs(parse, max, text, Drain(parse, max, text))
    decreases |text|
  {
    hide NewlineFrom, Size, IsBlank, StripReturn, Cut;
    var n := Newline(text);
    if n == -1 {
      CutWithoutNewline(text);
      assert Cut(text).lines[..0] == [];
    } else {
      var line, rest := text[..n], text[n + 1..];
      assert text == line + "\n" + rest;
      CutAtFirst(line, rest);
      DrainExactly(parse, max, rest);
      FrontRead(parse, max, line, rest);
    }
  }

  lemma FrontRead<V>(parse: string -> Option<V>, max: nat, line: string, rest: string)
    ensures var lines := [line] + Cut(rest).lines;
            var k := FirstBad(parse, max, Cut(rest).lines);
            && FirstBad(parse, max, lines) == (if LineTaken(parse, max, line) then k + 1 else 0)
            && lines[1..] == Cut(rest).lines && lines[..0] == []
            && (LineTaken(parse, max, line) ==>
                  Values(parse, lines[..k + 1])
                  == (if IsBlank(StripReturn(line)) then [] else [parse(StripReturn(line)).value])
                     + Values(parse, Cut(rest).lines[..k]))
  {
    hide Size, IsBlank, StripReturn, Cut;
    var lines := [line] + Cut(rest).lines;
    var k := FirstBad(parse, max, Cut(rest).lines);
    assert lines[1..] == Cut(rest).lines;
    assert lines[..k + 1][1..] == Cut(rest).lines[..k];
  }

  /** The end of a stream is reported exactly when it leaves a partial frame that is not blank. */
  lemma EndExactly<V>(parse: string -> Option<V>, max: nat, chunks: seq<string>)
    requires chunks != [] && PushAll(parse, max, START, chunks).error.None?
    ensures var (tail, end) := (Cut(Concat(chunks)).tail, End(PushAll(parse, max, START, chunks).decoder));
            if forall i :: 0 <= i < |tail| ==> IsWhitespace(tail[i]) then end == (START, None)
            else end == (FAILED, Some(PartialFrame))
  {
    hide Drain, IsWhitespace;
    SplitInvariance(parse, max, START, chunks);
    assert "" + Concat(chunks) == Concat(chunks);
    DrainExactly(parse, max, Concat(chunks));
    var tail := Cut(Concat(chunks)).tail;
    assert PushAll(parse, max, START, chunks).decoder == Decoder(tail, false);
    hide PushAll, Push, Cut;
    EndOf(tail);
  }

  lemma EndOf(tail: string)
    ensures End(Decoder(tail, false)) == if IsBlank(tail) then (START, None) else (FAILED, Some(PartialFrame))
  {
  }

  lemma StripReturnIs(line: string)
    ensures StripReturn(line + "\r") == line
    ensures (line == "" || line[|line| - 1] != '\r') ==> StripReturn(line) == line
  {
    assert (line + "\r")[..|line|] == line;
  }

  // ---------------------------------------------------------------- round trip

  /** One frame. */
  function Encode<V>(stringify: V -> string, value: V): string {
    stringify(value) + "\n"
  }

  function EncodeAll<V>(stringify: V -> string, values: seq<V>): string {
    if values == [] then "" else Encode(stringify, values[0]) + EncodeAll(stringify, values[1..])
  }

  /** What JSON text is: it parses back, is not blank, and has no raw newline and no return at its end. */
  predicate Encodes<V(==)>(stringify: V -> string, parse: string -> Option<V>, max: nat, value: V) {
    var text := stringify(value);
    parse(text) == Some(value) && '\n' !in text && !IsBlank(text) && text[|text| - 1] != '\r' && Size(text) <= max
  }

  lemma FrameNewline(text: string, rest: string)
    requires '\n' !in text
    ensures var stream := text + "\n" + rest;
            Newline(stream) == |text| && stream[..|text|] == text && stream[|text| + 1..] == rest
  {
    hide NewlineFrom;
    NewlineIs(text + "\n" + rest, |text|);
  }

  lemma {:induction false} FramesDecode<V>(stringify: V -> string, parse: string -> Option<V>, max: nat, values: seq<V>)
    requires forall i :: 0 <= i < |values| ==> Encodes(stringify, parse, max, values[i])
    ensures Drain(parse, max, EncodeAll(stringify, values)) == Outcome(values, START, None)
    ensures RawLinesFit(max, EncodeAll(stringify, values))
    decreases |values|
  {
    hide NewlineFrom, IsBlank;
    if values != [] {
      var text := stringify(values[0]);
      assert Encodes(stringify, parse, max, values[0]);
      var rest := EncodeAll(stringify, values[1..]);
      assert EncodeAll(stringify, values) == text + "\n" + rest;
      FrameNewline(text, rest);
      NotBlankNotEmpty(text);
      FramesDecode(stringify, parse, max, values[1..]);
      assert values == [values[0]] + values[1..];
    }
  }

  lemma NotBlankNotEmpty(text: string)
    requires !IsBlank(text)
    ensures text != ""
  {
  }

  /** Frames decode to the messages that were encoded, in order, however the stream is cut, and end cleanly. */
  lemma FramesRoundTrip<V>(
    stringify: V -> string, parse: string -> Option<V>, max: nat, values: seq<V>, chunks: seq<string>)
    requires forall i :: 0 <= i < |values| ==> Encodes(stringify, parse, max, values[i])
    requires chunks != [] && Concat(chunks) == EncodeAll(stringify, values)
    ensures PushAll(parse, max, START, chunks) == Outcome(values, START, None)
    ensures End(START) == (START, None)
  {
    hide Drain, RawLinesFit;
    var stream := EncodeAll(stringify, values);
    FramesDecode(stringify, parse, max, values);
    assert "" + stream == stream;
    EveryCutAcceptedExactly(parse, max, stream);
    SplitInvariance(parse, max, START, chunks);
  }

}
