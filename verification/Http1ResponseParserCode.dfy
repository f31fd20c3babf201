/**
  * The response parser as the repository writes it: index loops over one buffer and a class whose `Push` updates
  * its fields (src/load/http1/response-parser.ts). Every method is proved equal to the function that specifies it.
  */
module Http1ResponseParserCode {
  import opened Basics
  import opened Bytes
  import opened ResponseHeaders
  import opened ResponseStream

  /** Moves both ends of a range inwards past optional whitespace. */
  method TrimRange(buffer: Bytes, start: nat, end: nat) returns (first: nat, last: nat)
    requires start <= end <= |buffer|
    ensures start <= first <= last <= end
    ensures buffer[first..last] == Trim(buffer[start..end])
  {
    hide Trim, TrimLeft, TrimRight;
    first, last := start, end;
    while first < last && IsOptionalWhitespace(buffer[first])
      invariant start <= first <= last
      invariant forall i :: start <= i < first ==> IsOptionalWhitespace(buffer[i])
    {
      first := first + 1;
    }
    while last > first && IsOptionalWhitespace(buffer[last - 1])
      invariant first <= last <= end
      invariant forall i :: last <= i < end ==> IsOptionalWhitespace(buffer[i])
    {
      last := last - 1;
    }
    TrimPadded(buffer[start..first], buffer[first..last], buffer[last..end]);
    assert buffer[start..end] == buffer[start..first] + buffer[first..last] + buffer[last..end];
  }

  method AsciiEqualsIgnoreCase(buffer: Bytes, start: nat, end: nat, expected: Bytes) returns (equal: bool)
    requires start <= end <= |buffer|
    ensures equal == EqualsIgnoreCase(buffer[start..end], expected)
  {
    if end - start != |expected| {
      return false;
    }
    ghost var text := buffer[start..end];
    for index := 0 to |expected|
      invariant forall i :: 0 <= i < index ==> ToLower(text[i]) == expected[i]
    {
      assert buffer[start + index] == text[index];
      if ToLower(buffer[start + index]) != expected[index] {
        return false;
      }
    }
    return true;
  }

  /** A single byte found in a longer buffer is found in the part before its end, or is not in that part. */
  lemma FindWithin(buffer: Bytes, b: Byte, start: nat, end: nat)
    requires start <= end <= |buffer|
    ensures var whole := IndexOf(buffer, [b], start);
            var part := Find(buffer[start..end], [b]);
            part == if whole == -1 || whole >= end then -1 else whole - start
  {
    IndexOfShift(buffer, [b], start);
    var a := buffer[start..end];
    assert buffer[start..] == a + buffer[end..];
    FindAppend(a, buffer[end..], [b]);
  }

  method ReadDigits(buffer: Bytes, start: nat, end: nat) returns (r: Option<nat>)
    requires start <= end <= |buffer|
    ensures r == ReadDecimal(buffer[start..end], 0)
  {
    var parsed: nat := 0;
    var index := start;
    while index < end
      invariant start <= index <= end
      invariant ReadDecimal(buffer[index..end], parsed) == ReadDecimal(buffer[start..end], 0)
    {
      var byte := buffer[index];
      assert buffer[index..end][1..] == buffer[index + 1..end];
      if !IsDigit(byte) || parsed * 10 > MAX_SAFE_INTEGER - (byte - 48) {
        return None;
      }
      parsed := parsed * 10 + (byte - 48);
      index := index + 1;
    }
    return Some(parsed);
  }

  method ParseContentLengthRange(buffer: Bytes, start: nat, end: nat, previous: Option<nat>)
    returns (r: Result<nat, ParseError>)
    requires start <= end <= |buffer|
    ensures r == ParseContentLength(buffer[start..end], previous)
  {
    hide IndexOf, ReadLength, Trim;
    var value := previous;
    var offset := start;
    while true
      invariant start <= offset <= end
      invariant CombineLengths(Split(buffer[offset..end], COMMA), value)
             == CombineLengths(Split(buffer[start..end], COMMA), previous)
      decreases end - offset
    {
      var comma := IndexOf(buffer, [COMMA], offset);
      var rawEnd := if comma == -1 || comma > end then end else comma;
      FindWithin(buffer, COMMA, offset, end);
      ghost var rest := buffer[offset..end];
      assert rest[..rawEnd - offset] == buffer[offset..rawEnd];
      assert Split(rest, COMMA)[0] == buffer[offset..rawEnd];
      assert rawEnd < end ==> Split(rest, COMMA)[1..] == Split(rest[rawEnd - offset + 1..], COMMA);
      assert rawEnd < end ==> rest[rawEnd - offset + 1..] == buffer[rawEnd + 1..end];
      var partStart, partEnd := TrimRange(buffer, offset, rawEnd);
      var parsed := ReadPart(buffer, partStart, partEnd);
      if parsed == None || (value.Some? && value != parsed) {
        return Err(InvalidContentLength);
      }
      value := parsed;
      if comma == -1 || comma >= end {
        assert Split(rest, COMMA)[1..] == [];
        return Ok(value.value);
      }
      offset := comma + 1;
    }
  }

  method ReadPart(buffer: Bytes, start: nat, end: nat) returns (r: Option<nat>)
    requires start <= end <= |buffer|
    ensures r == ReadLength(buffer[start..end])
  {
    if start == end || (end - start > 1 && buffer[start] == 48) {
      return None;
    }
    r := ReadDigits(buffer, start, end);
  }

  /** `Buffer.lastIndexOf` for one byte: the last occurrence at or before a position, or -1. */
  function LastIndexOf(s: Bytes, b: Byte, upTo: int): (r: int)
    requires upTo < |s|
    ensures r == -1 || (0 <= r <= upTo && s[r] == b)
    ensures forall i :: 0 <= i && r < i <= upTo ==> s[i] != b
    decreases upTo + 1
  {
    if upTo < 0 then -1 else if s[upTo] == b then upTo else LastIndexOf(s, b, upTo - 1)
  }

  method LastTokenEquals(buffer: Bytes, start: nat, end: nat, expected: Bytes) returns (equal: bool)
    requires 0 < end && start <= end <= |buffer|
    ensures equal == EqualsIgnoreCase(LastToken(buffer[start..end]), expected)
  {
    hide Trim, Split;
    var comma := LastIndexOf(buffer, COMMA, end - 1);
    var tokenStart := if comma >= start then comma + 1 else start;
    ghost var value := buffer[start..end];
    ghost var tail := buffer[tokenStart..end];
    assert COMMA !in tail;
    if comma >= start {
      assert value == buffer[start..comma] + [COMMA] + tail;
      SplitLast(buffer[start..comma], COMMA, tail);
    } else {
      JoinSplit([value], COMMA);
      assert Join([value], COMMA) == value;
    }
    var first, last := TrimRange(buffer, tokenStart, end);
    equal := AsciiEqualsIgnoreCase(buffer, first, last, expected);
  }

  method ParseChunkSizeRange(buffer: Bytes, start: nat, end: nat) returns (r: Result<nat, ParseError>)
    requires start <= end <= |buffer|
    ensures r == ParseChunkSize(buffer[start..end])
  {
    hide IndexOf, Find, Trim;
    var extension := IndexOf(buffer, [SEMICOLON], start);
    FindWithin(buffer, SEMICOLON, start, end);
    var sizeEnd := if extension == -1 || extension > end then end else extension;
    ghost var line := buffer[start..end];
    assert line[..sizeEnd - start] == buffer[start..sizeEnd];
    var first, last := TrimRange(buffer, start, sizeEnd);
    assert ChunkSizeText(line) == buffer[first..last];
    if first == last {
      return Err(InvalidChunkSize);
    }
    var size: nat := 0;
    var index := first;
    while index < last
      invariant first <= index <= last
      invariant ReadHex(buffer[index..last], size) == ReadHex(buffer[first..last], 0)
    {
      var digit := HexDigit(buffer[index]);
      assert buffer[index..last][1..] == buffer[index + 1..last];
      if digit == -1 {
        return Err(InvalidChunkSize);
      }
      if size * 16 > MAX_SAFE_INTEGER - digit {
        return Err(UnsafeChunkSize);
      }
      size := size * 16 + digit;
      index := index + 1;
    }
    return Ok(size);
  }

  /** One field line, from its start to its line end. */
  method ReadFieldRange(buffer: Bytes, start: nat, lineEnd: nat, fields: Fields) returns (r: Result<Fields, ParseError>)
    requires start <= lineEnd <= |buffer|
    ensures r == ReadField(buffer[start..lineEnd], fields)
  {
    hide IndexOf, Find, Trim, Split, EqualsIgnoreCase, ParseContentLength, LastToken;
    var separator := IndexOf(buffer, [COLON], start);
    FindWithin(buffer, COLON, start, lineEnd);
    if separator <= start || separator >= lineEnd {
      return Err(InvalidHeader);
    }
    ghost var line := buffer[start..lineEnd];
    assert line[..separator - start] == buffer[start..separator];
    assert line[separator - start + 1..] == buffer[separator + 1..lineEnd];
    var nameStart, nameEnd := TrimRange(buffer, start, separator);
    var valueStart, valueEnd := TrimRange(buffer, separator + 1, lineEnd);
    var isLength := AsciiEqualsIgnoreCase(buffer, nameStart, nameEnd, CONTENT_LENGTH);
    if isLength {
      var n := ParseContentLengthRange(buffer, valueStart, valueEnd, fields.contentLength);
      return match n case Err(e) => Err(e) case Ok(v) => Ok(fields.(contentLength := Some(v)));
    }
    var isCoding := AsciiEqualsIgnoreCase(buffer, nameStart, nameEnd, TRANSFER_ENCODING);
    if isCoding {
      var chunked := LastTokenEquals(buffer, valueStart, valueEnd, CHUNKED);
      return Ok(fields.(transferEncoding := true, chunked := chunked));
    }
    return Ok(fields);
  }

  lemma LinesStep(rest: Bytes)
    requires rest != []
    ensures var k := Find(rest, CRLF);
            if k == -1 then Lines(rest) == [rest]
            else k + 2 <= |rest| && Lines(rest) == [rest[..k]] + Lines(rest[k + 2..])
  {
    hide IndexOf;
  }

  lemma EmptyLines()
    ensures Lines([]) == []
  {
  }

  lemma ReadFieldsStep(line: Bytes, others: seq<Bytes>, fields: Fields)
    ensures var first := ReadField(line, fields);
            ReadFields([line] + others, fields) == if first.Err? then first else ReadFields(others, first.value)
  {
    hide ReadField;
    assert ([line] + others)[1..] == others;
  }

  /** The field lines from an offset to the end of the block. */
  method ReadFieldLines(buffer: Bytes, start: nat) returns (r: Result<Fields, ParseError>)
    ensures r == ReadFields(Lines(RestFrom(buffer, start)), NO_FIELDS)
  {
    hide IndexOf, Find, MatchAt, ReadField, ReadFields, Lines;
    var fields := NO_FIELDS;
    var offset := start;
    ghost var rest := RestFrom(buffer, start);
    while offset < |buffer|
      invariant rest == RestFrom(buffer, offset)
      invariant ReadFields(Lines(rest), fields) == ReadFields(Lines(RestFrom(buffer, start)), NO_FIELDS)
      decreases |buffer| - offset
    {
      var foundLineEnd := IndexOf(buffer, CRLF, offset);
      var lineEnd := if foundLineEnd == -1 then |buffer| else foundLineEnd;
      ghost var line;
      line, rest := NextLine(buffer, offset, rest);
      ReadFieldsStep(line, Lines(rest), fields);
      var field := ReadFieldRange(buffer, offset, lineEnd, fields);
      if field.Err? {
        return Err(field.error);
      }
      fields := field.value;
      offset := lineEnd + 2;
    }
    EmptyLines();
    ReadNone(fields);
    r := Ok(fields);
  }

  /** The line that starts at an offset, and what is left after it. */
  lemma NextLine(buffer: Bytes, offset: nat, rest: Bytes) returns (line: Bytes, others: Bytes)
    requires offset < |buffer| && rest == buffer[offset..]
    ensures var found := IndexOf(buffer, CRLF, offset);
            var lineEnd := if found == -1 then |buffer| else found;
            && offset <= lineEnd <= |buffer| && line == buffer[offset..lineEnd]
            && others == RestFrom(buffer, lineEnd + 2) && Lines(rest) == [line] + Lines(others)
  {
    hide IndexOf, Find, MatchAt, Lines;
    IndexOfShift(buffer, CRLF, offset);
    LinesStep(rest);
    var k := Find(rest, CRLF);
    if k == -1 {
      EmptyLines();
      line, others := rest, [];
    } else {
      line, others := rest[..k], rest[k + 2..];
      assert others == buffer[offset + k + 2..];
    }
  }

  function RestFrom(buffer: Bytes, offset: nat): Bytes {
    if offset <= |buffer| then buffer[offset..] else []
  }

  method ParseHeadersRange(buffer: Bytes, requestMethod: string) returns (r: Result<Framing, ParseError>)
    ensures r == ParseHeaders(buffer, requestMethod)
  {
    hide IndexOf, Find, MatchAt, ReadFields, Decide, IsStatusLine, StatusOf, Lines;
    if buffer == [] {
      EmptyLines();
      return Err(InvalidStatusLine);
    }
    var foundStatusLineEnd := IndexOf(buffer, CRLF, 0);
    var statusLineEnd := if foundStatusLineEnd == -1 then |buffer| else foundStatusLineEnd;
    ghost var line, others := NextLine(buffer, 0, buffer);
    assert ([line] + Lines(others))[1..] == Lines(others);
    var statusLine := buffer[..statusLineEnd];
    if !IsStatusLine(statusLine) {
      return Err(InvalidStatusLine);
    }
    var fields := ReadFieldLines(buffer, statusLineEnd + 2);
    if fields.Err? {
      return Err(fields.error);
    }
    r := Decide(StatusOf(statusLine), fields.value, requestMethod);
  }

  lemma ReadNone(fields: Fields)
    ensures ReadFields([], fields) == Ok(fields)
  {
  }

  class Http1ResponseParser {
    const config: Config
    var mode: Mode
    var pending: Bytes
    var bodyRemaining: nat
    var chunkRemaining: nat
    var statusCode: nat
    var trailerBytes: nat

    /** The fields as one value. */
    function View(): Parser
      reads this
    {
      Parser(mode, pending, bodyRemaining, chunkRemaining, statusCode, trailerBytes)
    }

    constructor (config: Config)
      ensures this.config == config && View() == INITIAL
    {
      this.config := config;
      mode := Headers;
      pending := [];
      bodyRemaining, chunkRemaining, statusCode, trailerBytes := 0, 0, 0, 0;
    }

    method Reset()
      modifies this
      ensures View() == INITIAL
    {
      mode := Headers;
      pending := [];
      bodyRemaining, chunkRemaining, statusCode, trailerBytes := 0, 0, 0, 0;
    }

    method Complete() returns (reported: nat)
      modifies this
      ensures View() == ResponseStream.Complete(old(View())) && reported == old(statusCode)
    {
      reported := statusCode;
      mode := Headers;
      bodyRemaining, chunkRemaining, statusCode, trailerBytes := 0, 0, 0, 0;
    }

    method Retain(value: Bytes, error: ParseError) returns (thrown: Option<ParseError>)
      modifies this
      ensures thrown == if |value| > config.maxHeaderBytes then Some(error) else None
      ensures View() == old(View()).(pending := if thrown == None then value else old(pending))
    {
      if |value| > config.maxHeaderBytes {
        return Some(error);
      }
      pending := value;
      return None;
    }

    /**
      * Feeds one chunk; `statuses` lists the callback's arguments and `thrown` the error, if any. It is exactly
      * the specified run over the retained bytes followed by the chunk.
      */
    method Push(chunk: Bytes) returns (statuses: seq<nat>, thrown: Option<ParseError>)
      requires Valid(View())
      modifies this
      ensures Valid(View())
      ensures Outcome(statuses, View(), thrown) == ResponseStream.Push(config, old(View()), chunk)
    {
      hide StepOf;
      var input := pending + chunk;
      var offset := 0;
      ghost var before := View();
      pending := [];
      assert View() == before.(pending := []);
      statuses := [];
      thrown := None;
      ghost var whole := Run(config, View(), input);
      assert input[0..] == input;
      while offset < |input|
        invariant offset <= |input| && pending == [] && Valid(View()) && thrown == None
        invariant var rest := Run(config, View(), input[offset..]);
                  whole == rest.(statuses := statuses + rest.statuses)
        decreases |input| - offset
      {
        ghost var rest := input[offset..];
        ghost var now := View();
        ghost var step := StepOf(config, now, rest);
        ghost var o := Run(config, now, rest);
        assert whole == o.(statuses := statuses + o.statuses);
        var reported;
        var consumed;
        var waiting;
        consumed, reported, waiting, thrown := Iterate(input, offset);
        if waiting || thrown.Some? {
          assert o == Outcome([], View(), thrown);
          assert statuses + [] == statuses;
          return;
        }
        assert input[offset + consumed..] == rest[consumed..];
        offset := offset + consumed;
        statuses := statuses + reported;
      }
      assert input[offset..] == [];
      assert Run(config, View(), []) == Outcome([], View(), None);
      assert statuses + [] == statuses;
    }

    /** One iteration of the loop: a unit consumed, the rest retained, or an error. */
    method Iterate(input: Bytes, offset: nat)
      returns (consumed: nat, reported: seq<nat>, waiting: bool, thrown: Option<ParseError>)
      requires offset < |input| && Valid(View()) && pending == []
      modifies this
      ensures var step := StepOf(config, old(View()), input[offset..]);
              && View() == step.parser
              && (step.Advance? ==>
                    thrown == None && !waiting && consumed == step.consumed && reported == step.reported)
              && (step.Keep? ==> thrown == None && waiting)
              && (step.Fail? ==> thrown == Some(step.error))
    {
      hide IndexOf, Find, ParseHeaders, ParseChunkSize;
      consumed, reported, waiting, thrown := 0, [], false, None;
      ghost var rest := input[offset..];
      match mode {
        case Headers =>
          consumed, reported, waiting, thrown := IterateHeaders(input, offset);
        case FixedBody =>
          consumed := Min(bodyRemaining, |input| - offset);
          bodyRemaining := bodyRemaining - consumed;
          if bodyRemaining == 0 {
            var status := Complete();
            reported := [status];
          }
        case ChunkSize =>
          var lineEnd := IndexOf(input, CRLF, offset);
          IndexOfShift(input, CRLF, offset);
          if lineEnd == -1 {
            thrown := Retain(input[offset..], ChunkSizeExceed);
            waiting := true;
            return;
          }
          assert rest[..lineEnd - offset] == input[offset..lineEnd];
          assert MatchAt(input, CRLF, lineEnd);
          var size := ParseChunkSizeRange(input, offset, lineEnd);
          if size.Err? {
            thrown := Some(size.error);
            return;
          }
          chunkRemaining := size.value;
          consumed := lineEnd + 2 - offset;
          if chunkRemaining == 0 {
            trailerBytes := 0;
            mode := Trailers;
          } else {
            mode := ChunkData;
          }
        case ChunkData =>
          consumed := Min(chunkRemaining, |input| - offset);
          chunkRemaining := chunkRemaining - consumed;
          if chunkRemaining == 0 {
            mode := ChunkDataEnd;
          }
        case ChunkDataEnd =>
          if |input| - offset < 2 {
            pending := input[offset..];
            waiting := true;
            return;
          }
          assert rest[..2] == [input[offset], input[offset + 1]];
          if input[offset] != 13 || input[offset + 1] != 10 {
            thrown := Some(MissingChunkEnd);
            return;
          }
          consumed := 2;
          mode := ChunkSize;
        case Trailers =>
          var trailerEnd := IndexOf(input, CRLF, offset);
          IndexOfShift(input, CRLF, offset);
          if trailerEnd == -1 {
            thrown := Retain(input[offset..], TrailersExceed);
            waiting := true;
            return;
          }
          if trailerEnd == offset {
            consumed := 2;
            var status := Complete();
            reported := [status];
            return;
          }
          trailerBytes := trailerBytes + trailerEnd - offset + 2;
          if trailerBytes > config.maxHeaderBytes {
            thrown := Some(TrailersExceed);
            return;
          }
          consumed := trailerEnd + 2 - offset;
      }
    }

    method IterateHeaders(input: Bytes, offset: nat)
      returns (consumed: nat, reported: seq<nat>, waiting: bool, thrown: Option<ParseError>)
      requires offset < |input| && Valid(View()) && pending == [] && mode == Headers
      modifies this
      ensures var step := StepOf(config, old(View()), input[offset..]);
              && View() == step.parser
              && (step.Advance? ==>
                    thrown == None && !waiting && consumed == step.consumed && reported == step.reported)
              && (step.Keep? ==> thrown == None && waiting)
              && (step.Fail? ==> thrown == Some(step.error))
    {
      hide IndexOf, Find, ParseHeaders, ParseChunkSize;
      consumed, reported, waiting, thrown := 0, [], false, None;
      ghost var rest := input[offset..];
      var headerEnd := IndexOf(input, HEADER_END, offset);
      IndexOfShift(input, HEADER_END, offset);
      if headerEnd == -1 {
        thrown := Retain(input[offset..], HeadersExceed);
        waiting := true;
        return;
      }
      assert rest[..headerEnd - offset] == input[offset..headerEnd];
      if headerEnd - offset > config.maxHeaderBytes {
        thrown := Some(HeadersExceed);
        return;
      }
      var parsed := ParseHeadersRange(input[offset..headerEnd], config.requestMethod);
      if parsed.Err? {
        thrown := Some(parsed.error);
        return;
      }
      var framing := parsed.value;
      consumed := headerEnd + 4 - offset;
      statusCode := framing.statusCode;
      if framing.informational {
        if framing.statusCode == 101 {
          thrown := Some(UpgradeNotSupported);
        }
        return;
      }
      if framing.bodyLength == Some(0) {
        var status := Complete();
        reported := [status];
        return;
      }
      if framing.chunked {
        mode := ChunkSize;
        return;
      }
      if framing.bodyLength == None {
        thrown := Some(CloseDelimited);
        return;
      }
      bodyRemaining := framing.bodyLength.value;
      mode := FixedBody;
    }
  }
}
