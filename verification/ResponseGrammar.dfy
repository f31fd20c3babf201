/**
  * Message framing as a grammar (section 6.3 and section 7.1 of RFC 9112): the byte streams that the parser
  * reads to a message boundary are exactly the serialisations of well-formed message lists.
  */
module ResponseGrammar {
  import opened Basics
  import opened Bytes
  import opened ResponseHeaders
  import opened ResponseStream
  import Fragmentation

  /** A chunk: its size line without the line end, and its data. */
  datatype Chunk = Chunk(sizeLine: Bytes, data: Bytes)

  datatype Body =
    | Empty
    | Fixed(data: Bytes)
    | Chunked(chunks: seq<Chunk>, lastLine: Bytes, trailers: seq<Bytes>)

  datatype Message = Interim(block: Bytes) | Final(block: Bytes, body: Body)

  // ---------------------------------------------------------------- serialisation

  function WriteChunks(chunks: seq<Chunk>): Bytes {
    if chunks == [] then []
    else chunks[0].sizeLine + CRLF + chunks[0].data + CRLF + WriteChunks(chunks[1..])
  }

  function WriteLines(lines: seq<Bytes>): Bytes {
    if lines == [] then [] else lines[0] + CRLF + WriteLines(lines[1..])
  }

  function WriteBody(body: Body): Bytes {
    match body
    case Empty => []
    case Fixed(data) => data
    case Chunked(chunks, lastLine, trailers) =>
      WriteChunks(chunks) + (lastLine + CRLF + (WriteLines(trailers) + CRLF))
  }

  function Write(m: Message): Bytes {
    m.block + HEADER_END + if m.Final? then WriteBody(m.body) else []
  }

  function WriteAll(ms: seq<Message>): Bytes {
    if ms == [] then [] else Write(ms[0]) + WriteAll(ms[1..])
  }

  // ---------------------------------------------------------------- well-formedness

  /** A text followed by the mark contains the mark only there. */
  predicate EndsAt(text: Bytes, mark: Bytes)
    requires |mark| > 0
  {
    Find(text + mark, mark) == |text|
  }

  predicate ChunkOk(chunk: Chunk) {
    EndsAt(chunk.sizeLine, CRLF) && chunk.data != [] && ParseChunkSize(chunk.sizeLine) == Ok(|chunk.data|)
  }

  predicate TrailersOk(c: Config, trailers: seq<Bytes>, used: nat)
  {
    trailers == [] ||
    (EndsAt(trailers[0], CRLF) && trailers[0] != []
     && used + |trailers[0]| + 2 <= c.maxHeaderBytes
     && TrailersOk(c, trailers[1..], used + |trailers[0]| + 2))
  }

  predicate ChunkedOk(c: Config, body: Body)
    requires body.Chunked?
  {
    && (forall i :: 0 <= i < |body.chunks| ==> ChunkOk(body.chunks[i]))
    && EndsAt(body.lastLine, CRLF) && ParseChunkSize(body.lastLine) == Ok(0)
    && TrailersOk(c, body.trailers, 0)
  }

  predicate BodyOk(c: Config, framing: Framing, body: Body) {
    match body
    case Empty => framing.bodyLength == Some(0)
    case Fixed(data) => !framing.chunked && framing.bodyLength == Some(|data|) && data != []
    case Chunked(chunks, lastLine, trailers) =>
      framing.chunked && framing.bodyLength != Some(0) && ChunkedOk(c, body)
  }

  predicate MessageOk(c: Config, m: Message) {
    && EndsAt(m.block, HEADER_END)
    && |m.block| <= c.maxHeaderBytes
    && match ParseHeaders(m.block, c.requestMethod)
       case Err(_) => false
       case Ok(framing) =>
         match m
         case Interim(_) => framing.informational && framing.statusCode != 101
         case Final(_, body) => !framing.informational && BodyOk(c, framing, body)
  }

  predicate AllOk(c: Config, ms: seq<Message>) {
    forall i :: 0 <= i < |ms| ==> MessageOk(c, ms[i])
  }

  /** Final responses are reported, interim ones are not. */
  function Reported(c: Config, m: Message): seq<nat>
    requires MessageOk(c, m)
  {
    if m.Interim? then [] else [ParseHeaders(m.block, c.requestMethod).value.statusCode]
  }

  function AllReported(c: Config, ms: seq<Message>): seq<nat>
    requires AllOk(c, ms)
  {
    if ms == [] then [] else Reported(c, ms[0]) + AllReported(c, ms[1..])
  }

  // ---------------------------------------------------------------- room for cuts

  predicate SizeLineFits(c: Config, line: Bytes) {
    |line| + 1 <= c.maxHeaderBytes
  }

  predicate SizeLinesFit(c: Config, chunks: seq<Chunk>) {
    forall i :: 0 <= i < |chunks| ==> SizeLineFits(c, chunks[i].sizeLine)
  }

  predicate BodyFits(c: Config, body: Body) {
    body.Chunked? ==> SizeLinesFit(c, body.chunks) && SizeLineFits(c, body.lastLine)
  }

  /** The header block and the chunk-size lines leave room for the line ends that a cut may retain with them. */
  predicate MessageFits(c: Config, m: Message) {
    |m.block| + 3 <= c.maxHeaderBytes && (m.Final? ==> BodyFits(c, m.body))
  }

  predicate AllFit(c: Config, ms: seq<Message>) {
    forall i :: 0 <= i < |ms| ==> MessageFits(c, ms[i])
  }

  // ---------------------------------------------------------------- reading what was written

  predicate AtHeaders(p: Parser) {
    Valid(p) && p.pending == [] && p.mode == Headers
  }

  function After(reported: seq<nat>, o: Outcome): Outcome {
    o.(statuses := reported + o.statuses)
  }

  /** The mark is found at the end of a text that ends there, whatever follows. */
  lemma FindMark(text: Bytes, mark: Bytes, rest: Bytes)
    requires |mark| > 0 && EndsAt(text, mark)
    ensures Find(text + mark + rest, mark) == |text|
    ensures (text + mark + rest)[..|text|] == text
    ensures (text + mark + rest)[|text| + |mark|..] == rest
  {
    FindAppend(text + mark, rest, mark);
  }

  lemma {:induction false} ReadTrailers(c: Config, p: Parser, trailers: seq<Bytes>, rest: Bytes) returns (q: Parser)
    requires Valid(p) && p.pending == [] && p.mode == Trailers
    requires TrailersOk(c, trailers, p.trailerBytes)
    ensures AtHeaders(q)
    ensures Run(c, p, WriteLines(trailers) + CRLF + rest) == After([p.statusCode], Run(c, q, rest))
    ensures Fragmentation.UnitsFit(c, p, WriteLines(trailers) + CRLF + rest) == Fragmentation.UnitsFit(c, q, rest)
    decreases |trailers|
  {
    hide Find, IndexOf;
    var input := WriteLines(trailers) + CRLF + rest;
    if trailers == [] {
      q := Complete(p);
      EmptyEnds();
      FindMark([], CRLF, rest);
      assert input == [] + CRLF + rest;
      assert StepOf(c, p, input) == Advance(2, q, [p.statusCode]);
    } else {
      var t := trailers[0];
      var more := WriteLines(trailers[1..]) + CRLF + rest;
      assert input == t + CRLF + more;
      FindMark(t, CRLF, more);
      var next := p.(trailerBytes := p.trailerBytes + |t| + 2);
      assert StepOf(c, p, input) == Advance(|t| + 2, next, []);
      q := ReadTrailers(c, next, trailers[1..], rest);
    }
  }

  lemma EmptyEnds()
    ensures EndsAt([], CRLF)
  {
    assert [] + CRLF == CRLF;
    assert MatchAt(CRLF, CRLF, 0);
  }

  /** A chunk-size line is one step, whatever follows. */
  lemma ReadSizeLine(c: Config, p: Parser, line: Bytes, n: nat, rest: Bytes)
    requires Valid(p) && p.pending == [] && p.mode == ChunkSize
    requires EndsAt(line, CRLF) && ParseChunkSize(line) == Ok(n)
    ensures StepOf(c, p, line + CRLF + rest)
         == Advance(|line| + 2,
                    if n == 0 then p.(mode := Trailers, chunkRemaining := 0, trailerBytes := 0)
                    else p.(mode := ChunkData, chunkRemaining := n), [])
    ensures (line + CRLF + rest)[|line| + 2..] == rest
    ensures Fragmentation.UnitFits(c, p, line + CRLF + rest) == SizeLineFits(c, line)
  {
    hide Find, IndexOf, ParseChunkSize;
    FindMark(line, CRLF, rest);
  }

  /** The data of a chunk and its line end are two steps. */
  lemma ReadChunkData(c: Config, p: Parser, data: Bytes, rest: Bytes)
    requires Valid(p) && p.pending == [] && p.mode == ChunkData && p.chunkRemaining == |data|
    ensures Run(c, p, data + CRLF + rest) == Run(c, p.(mode := ChunkSize, chunkRemaining := 0), rest)
    ensures Fragmentation.UnitsFit(c, p, data + CRLF + rest)
         == Fragmentation.UnitsFit(c, p.(mode := ChunkSize, chunkRemaining := 0), rest)
  {
    hide HeadersStep, ChunkSizeStep, TrailersStep, FixedBodyStep;
    var end := p.(mode := ChunkDataEnd, chunkRemaining := 0);
    var input := data + CRLF + rest;
    assert StepOf(c, p, input) == Advance(|data|, end, []);
    var tail := input[|data|..];
    assert tail == CRLF + rest;
    assert tail[..2] == CRLF;
    assert StepOf(c, end, tail) == Advance(2, end.(mode := ChunkSize), []);
    assert tail[2..] == rest;
    assert Run(c, end, tail) == Run(c, end.(mode := ChunkSize), rest);
  }

  lemma ReadChunk(c: Config, p: Parser, chunk: Chunk, more: Bytes)
    requires Valid(p) && p.pending == [] && p.mode == ChunkSize && ChunkOk(chunk)
    ensures var input := chunk.sizeLine + CRLF + (chunk.data + CRLF + more);
            && Run(c, p, input) == Run(c, p, more)
            && (Fragmentation.UnitsFit(c, p, input)
                <==> SizeLineFits(c, chunk.sizeLine) && Fragmentation.UnitsFit(c, p, more))
  {
    hide StepOf, ParseChunkSize, EndsAt, Fragmentation.UnitFits, SizeLineFits;
    ReadSizeLine(c, p, chunk.sizeLine, |chunk.data|, chunk.data + CRLF + more);
    var inData := p.(mode := ChunkData, chunkRemaining := |chunk.data|);
    ReadChunkData(c, inData, chunk.data, more);
    assert inData.(mode := ChunkSize, chunkRemaining := 0) == p;
  }

  lemma {:induction false} ReadChunks(c: Config, p: Parser, chunks: seq<Chunk>, rest: Bytes)
    requires Valid(p) && p.pending == [] && p.mode == ChunkSize
    requires forall i :: 0 <= i < |chunks| ==> ChunkOk(chunks[i])
    ensures Run(c, p, WriteChunks(chunks) + rest) == Run(c, p, rest)
    ensures Fragmentation.UnitsFit(c, p, WriteChunks(chunks) + rest)
       <==> SizeLinesFit(c, chunks) && Fragmentation.UnitsFit(c, p, rest)
    decreases |chunks|
  {
    hide Run, Fragmentation.UnitsFit, ChunkOk, SizeLineFits;
    if chunks == [] {
      assert WriteChunks(chunks) + rest == rest;
    } else {
      var chunk := chunks[0];
      var more := WriteChunks(chunks[1..]) + rest;
      assert WriteChunks(chunks) + rest == chunk.sizeLine + CRLF + (chunk.data + CRLF + more);
      ReadChunk(c, p, chunk, more);
      ReadChunks(c, p, chunks[1..], rest);
      assert chunks == [chunk] + chunks[1..];
    }
  }

  lemma ReadChunkedBody(c: Config, p: Parser, framing: Framing, body: Body, rest: Bytes) returns (q: Parser)
    requires Valid(p) && p.pending == [] && p.mode == ChunkSize
    requires body.Chunked? && BodyOk(c, framing, body)
    ensures AtHeaders(q)
    ensures Run(c, p, WriteBody(body) + rest) == After([p.statusCode], Run(c, q, rest))
    ensures Fragmentation.UnitsFit(c, p, WriteBody(body) + rest)
       <==> BodyFits(c, body) && Fragmentation.UnitsFit(c, q, rest)
  {
    hide StepOf, ParseChunkSize, EndsAt, WriteLines, WriteChunks;
    var tail := WriteLines(body.trailers) + CRLF + rest;
    var last := body.lastLine + CRLF + tail;
    assert WriteBody(body) + rest == WriteChunks(body.chunks) + last;
    ReadChunks(c, p, body.chunks, last);
    ReadSizeLine(c, p, body.lastLine, 0, tail);
    var inTrailers := p.(mode := Trailers, chunkRemaining := 0, trailerBytes := 0);
    assert Run(c, p, last) == Run(c, inTrailers, tail);
    q := ReadTrailers(c, inTrailers, body.trailers, rest);
  }

  lemma ReadFixedBody(c: Config, p: Parser, data: Bytes, rest: Bytes)
    requires Valid(p) && p.pending == [] && p.mode == FixedBody && p.bodyRemaining == |data|
    ensures Run(c, p, data + rest) == After([p.statusCode], Run(c, Complete(p), rest))
    ensures Fragmentation.UnitsFit(c, p, data + rest) == Fragmentation.UnitsFit(c, Complete(p), rest)
  {
    hide HeadersStep, ChunkSizeStep, TrailersStep, ChunkDataStep, ChunkDataEndStep;
    var input := data + rest;
    assert StepOf(c, p, input) == Advance(|data|, Complete(p), [p.statusCode]);
    assert input[|data|..] == rest;
  }

  /** The parser state that the header block of a message leads to. */
  function AfterHeaders(p: Parser, framing: Framing): Parser {
    var q := p.(statusCode := framing.statusCode);
    if framing.informational then q
    else if framing.bodyLength == Some(0) then Complete(q)
    else if framing.chunked then q.(mode := ChunkSize)
    else q.(mode := FixedBody, bodyRemaining := if framing.bodyLength.Some? then framing.bodyLength.value else 0)
  }

  lemma ReadHeaderBlock(c: Config, p: Parser, m: Message, rest: Bytes)
    requires AtHeaders(p) && MessageOk(c, m)
    ensures var framing := ParseHeaders(m.block, c.requestMethod).value;
            var input := m.block + HEADER_END + rest;
            && StepOf(c, p, input)
            == Advance(|m.block| + 4, AfterHeaders(p, framing),
                       if m.Final? && m.body.Empty? then Reported(c, m) else [])
            && input[|m.block| + 4..] == rest
            && (Fragmentation.UnitFits(c, p, input) <==> |m.block| + 3 <= c.maxHeaderBytes)
  {
    hide Find, IndexOf, ParseHeaders, ParseChunkSize, TrailersOk;
    FindMark(m.block, HEADER_END, rest);
  }

  /** Between responses the two length counters are zero. */
  predicate Between(p: Parser) {
    AtHeaders(p) && p.bodyRemaining == 0
  }

  lemma ReadMessage(c: Config, p: Parser, m: Message, rest: Bytes) returns (q: Parser)
    requires AtHeaders(p) && MessageOk(c, m)
    ensures AtHeaders(q)
    ensures Run(c, p, Write(m) + rest) == After(Reported(c, m), Run(c, q, rest))
    ensures Fragmentation.UnitsFit(c, p, Write(m) + rest) <==> MessageFits(c, m) && Fragmentation.UnitsFit(c, q, rest)
  {
    hide StepOf, ParseHeaders, ParseChunkSize, EndsAt, TrailersOk, WriteChunks, WriteLines;
    var framing := ParseHeaders(m.block, c.requestMethod).value;
    var body := if m.Final? then WriteBody(m.body) else [];
    var input := Write(m) + rest;
    assert input == m.block + HEADER_END + (body + rest);
    ReadHeaderBlock(c, p, m, body + rest);
    var next := AfterHeaders(p, framing);
    if m.Interim? || m.body.Empty? {
      q := next;
      assert body + rest == rest;
    } else if m.body.Fixed? {
      q := Complete(next);
      ReadFixedBody(c, next, m.body.data, rest);
    } else {
      q := ReadChunkedBody(c, next, framing, m.body, rest);
    }
  }

  lemma {:induction false} ReadMessages(c: Config, p: Parser, ms: seq<Message>)
    requires AtHeaders(p) && AllOk(c, ms)
    ensures var o := Run(c, p, WriteAll(ms)); AtBoundary(o) && o.statuses == AllReported(c, ms)
    ensures Fragmentation.UnitsFit(c, p, WriteAll(ms)) <==> AllFit(c, ms)
    decreases |ms|
  {
    hide StepOf, MessageOk, Write;
    if ms != [] {
      var q := ReadMessage(c, p, ms[0], WriteAll(ms[1..]));
      ReadMessages(c, q, ms[1..]);
    }
  }

  // ---------------------------------------------------------------- what a run has read

  /** The run ended without error between two responses, with nothing retained. */
  predicate AtBoundary(o: Outcome) {
    o.error.None? && o.parser.mode == Headers && o.parser.pending == []
  }

  /** The first mark cuts a buffer into a text that ends there and the rest. */
  lemma CutAtMark(input: Bytes, mark: Bytes)
    requires |mark| > 0 && Find(input, mark) != -1
    ensures var k := Find(input, mark);
            && k + |mark| <= |input|
            && input == input[..k] + mark + input[k + |mark|..]
            && EndsAt(input[..k], mark)
  {
    var k := Find(input, mark);
    var a := input[..k + |mark|];
    assert a == input[..k] + mark;
    assert a + input[k + |mark|..] == input;
    Fragmentation.FoundInPrefix(a, input[k + |mark|..], mark);
  }

  /** A run that ends at a boundary found a complete line first. */
  lemma LineRead(c: Config, p: Parser, input: Bytes) returns (line: Bytes, tail: Bytes, next: Parser)
    requires Valid(p) && p.pending == [] && (p.mode == Trailers || p.mode == ChunkSize)
    requires AtBoundary(Run(c, p, input))
    ensures EndsAt(line, CRLF) && input == line + CRLF + tail
    ensures Valid(next) && next.pending == []
    ensures p.mode == Trailers && line == [] ==>
              AtHeaders(next) && Run(c, p, input) == After([p.statusCode], Run(c, next, tail))
    ensures p.mode == Trailers && line != [] ==>
              && next == p.(trailerBytes := p.trailerBytes + |line| + 2) && next.trailerBytes <= c.maxHeaderBytes
              && Run(c, p, input) == Run(c, next, tail)
    ensures p.mode == ChunkSize ==>
              && ParseChunkSize(line).Ok?
              && var n := ParseChunkSize(line).value;
                 && next == (if n == 0 then p.(mode := Trailers, trailerBytes := 0)
                             else p.(mode := ChunkData, chunkRemaining := n))
                 && Run(c, p, input) == Run(c, next, tail)
  {
    hide Find, IndexOf, ParseChunkSize, EndsAt, HeadersStep, FixedBodyStep, ChunkDataStep, ChunkDataEndStep;
    var end := Find(input, CRLF);
    CutAtMark(input, CRLF);
    line, tail := input[..end], input[end + 2..];
    next := StepOf(c, p, input).parser;
  }

  lemma {:induction false} ParseTrailers(c: Config, p: Parser, input: Bytes)
    returns (trailers: seq<Bytes>, rest: Bytes, q: Parser)
    requires Valid(p) && p.pending == [] && p.mode == Trailers
    requires AtBoundary(Run(c, p, input))
    ensures TrailersOk(c, trailers, p.trailerBytes)
    ensures input == WriteLines(trailers) + CRLF + rest
    ensures AtHeaders(q) && Run(c, p, input) == After([p.statusCode], Run(c, q, rest))
    decreases |input|
  {
    hide EndsAt, Run;
    var line, tail, next := LineRead(c, p, input);
    if line == [] {
      trailers, rest, q := [], tail, next;
      assert input == WriteLines([]) + CRLF + rest;
    } else {
      var others;
      others, rest, q := ParseTrailers(c, next, tail);
      trailers := [line] + others;
      assert trailers[1..] == others;
      assert input == line + CRLF + (WriteLines(others) + CRLF + rest);
      assert input == WriteLines(trailers) + CRLF + rest;
    }
  }

  lemma ParseChunkData(c: Config, p: Parser, input: Bytes) returns (data: Bytes, rest: Bytes)
    requires Valid(p) && p.pending == [] && p.mode == ChunkData
    requires AtBoundary(Run(c, p, input))
    ensures |data| == p.chunkRemaining && input == data + CRLF + rest
    ensures Run(c, p, input) == Run(c, p.(mode := ChunkSize, chunkRemaining := 0), rest)
  {
    hide HeadersStep, ChunkSizeStep, TrailersStep, FixedBodyStep;
    var s := StepOf(c, p, input);
    data := input[..s.consumed];
    var tail := input[s.consumed..];
    var next := StepOf(c, s.parser, tail);
    rest := tail[2..];
    assert input == data + tail && tail == CRLF + rest;
    assert Run(c, s.parser, tail) == Run(c, next.parser, rest);
  }

  lemma {:induction false} ParseChunks(c: Config, p: Parser, input: Bytes)
    returns (body: Body, rest: Bytes, q: Parser)
    requires Valid(p) && p.pending == [] && p.mode == ChunkSize
    requires AtBoundary(Run(c, p, input))
    ensures body.Chunked? && ChunkedOk(c, body)
    ensures input == WriteBody(body) + rest
    ensures AtHeaders(q) && Run(c, p, input) == After([p.statusCode], Run(c, q, rest))
    decreases |input|
  {
    hide EndsAt, Run, ParseChunkSize, WriteLines, WriteBody;
    var line, tail, next := LineRead(c, p, input);
    if next.mode == Trailers {
      var trailers;
      trailers, rest, q := ParseTrailers(c, next, tail);
      body := Chunked([], line, trailers);
      LastLineInFront(line, trailers);
      assert input == WriteBody(body) + rest;
    } else {
      var data, more := ParseChunkData(c, next, tail);
      assert next.(mode := ChunkSize, chunkRemaining := 0) == p;
      var inner;
      inner, rest, q := ParseChunks(c, p, more);
      body := inner.(chunks := [Chunk(line, data)] + inner.chunks);
      ChunkInFront(Chunk(line, data), inner);
      assert input == WriteBody(body) + rest;
    }
  }

  lemma LastLineInFront(line: Bytes, trailers: seq<Bytes>)
    ensures WriteBody(Chunked([], line, trailers)) == line + CRLF + (WriteLines(trailers) + CRLF)
  {
    hide WriteLines;
  }

  lemma ChunkInFront(chunk: Chunk, body: Body)
    requires body.Chunked?
    ensures WriteBody(body.(chunks := [chunk] + body.chunks))
         == chunk.sizeLine + CRLF + chunk.data + CRLF + WriteBody(body)
  {
    hide WriteLines;
    assert ([chunk] + body.chunks)[1..] == body.chunks;
  }

  lemma ParseFixedBody(c: Config, p: Parser, input: Bytes) returns (data: Bytes, rest: Bytes)
    requires Valid(p) && p.pending == [] && p.mode == FixedBody
    requires AtBoundary(Run(c, p, input))
    ensures |data| == p.bodyRemaining && input == data + rest
    ensures Run(c, p, input) == After([p.statusCode], Run(c, Complete(p), rest))
  {
    hide HeadersStep, ChunkSizeStep, TrailersStep, ChunkDataStep, ChunkDataEndStep;
    var s := StepOf(c, p, input);
    data, rest := input[..s.consumed], input[s.consumed..];
  }

  lemma HeadersRead(c: Config, p: Parser, input: Bytes)
    returns (block: Bytes, tail: Bytes, framing: Framing, next: Parser)
    requires AtHeaders(p) && input != [] && AtBoundary(Run(c, p, input))
    ensures EndsAt(block, HEADER_END) && |block| <= c.maxHeaderBytes && input == block + HEADER_END + tail
    ensures ParseHeaders(block, c.requestMethod) == Ok(framing)
    ensures framing.informational ==> framing.statusCode != 101
    ensures Valid(next) && next.pending == [] && next == AfterHeaders(p, framing)
    ensures Run(c, p, input)
         == After(if !framing.informational && framing.bodyLength == Some(0) then [framing.statusCode] else [],
                  Run(c, next, tail))
    ensures !framing.informational && !framing.chunked ==> framing.bodyLength.Some?
  {
    hide Find, IndexOf, ParseHeaders, EndsAt, ChunkSizeStep, TrailersStep, FixedBodyStep, ChunkDataStep,
      ChunkDataEndStep;
    var s := StepOf(c, p, input);
    var end := Find(input, HEADER_END);
    CutAtMark(input, HEADER_END);
    block, tail := input[..end], input[end + 4..];
    framing := ParseHeaders(block, c.requestMethod).value;
    next := s.parser;
  }

  lemma ParseMessage(c: Config, p: Parser, input: Bytes) returns (m: Message, rest: Bytes, q: Parser)
    requires AtHeaders(p) && input != [] && AtBoundary(Run(c, p, input))
    ensures MessageOk(c, m) && input == Write(m) + rest && |rest| < |input|
    ensures AtHeaders(q) && Run(c, p, input) == After(Reported(c, m), Run(c, q, rest))
  {
    hide ParseHeaders, EndsAt, Run, WriteBody, ChunkedOk;
    var block, tail, framing, next := HeadersRead(c, p, input);
    var body := Empty;
    rest, q := tail, next;
    if !framing.informational && framing.bodyLength != Some(0) {
      if framing.chunked {
        body, rest, q := ParseChunks(c, next, tail);
      } else {
        var data;
        data, rest := ParseFixedBody(c, next, tail);
        body, q := Fixed(data), Complete(next);
        WriteFixed(data);
      }
    } else {
      WriteEmpty();
    }
    m := if framing.informational then Interim(block) else Final(block, body);
    assert input == Write(m) + rest;
  }

  lemma WriteEmpty()
    ensures WriteBody(Empty) == []
  {
  }

  lemma WriteFixed(data: Bytes)
    ensures WriteBody(Fixed(data)) == data
  {
  }

  lemma {:induction false} ParseMessages(c: Config, p: Parser, input: Bytes) returns (ms: seq<Message>)
    requires AtHeaders(p) && AtBoundary(Run(c, p, input))
    ensures AllOk(c, ms) && WriteAll(ms) == input && AllReported(c, ms) == Run(c, p, input).statuses
    decreases |input|
  {
    hide StepOf, MessageOk, Write;
    if input == [] {
      ms := [];
    } else {
      var m, rest, q := ParseMessage(c, p, input);
      var tail := ParseMessages(c, q, rest);
      ms := [m] + tail;
      assert ms[1..] == tail;
    }
  }

  /** A well-formed message list that writes the stream and reports these statuses. */
  ghost predicate Describes(c: Config, ms: seq<Message>, input: Bytes, statuses: seq<nat>) {
    AllOk(c, ms) && WriteAll(ms) == input && AllReported(c, ms) == statuses
  }

  /**
    * The parser, given a stream from its initial state, ends between responses having reported some statuses
    * exactly when the stream is the serialisation of a well-formed message list with those statuses.
    */
  lemma BoundaryExactly(c: Config, input: Bytes, statuses: seq<nat>)
    ensures AtBoundary(Push(c, INITIAL, input)) && Push(c, INITIAL, input).statuses == statuses
       <==> exists ms :: Describes(c, ms, input, statuses)
  {
    hide Run, AllOk, WriteAll;
    assert INITIAL.pending + input == input;
    if AtBoundary(Push(c, INITIAL, input)) && Push(c, INITIAL, input).statuses == statuses {
      var ms := ParseMessages(c, INITIAL, input);
      assert Describes(c, ms, input, statuses);
    }
    forall ms | Describes(c, ms, input, statuses)
      ensures AtBoundary(Push(c, INITIAL, input)) && Push(c, INITIAL, input).statuses == statuses
    {
      ReadMessages(c, INITIAL, ms);
    }
  }

  /** No way of cutting the serialisation of well-formed messages throws exactly when each message leaves room. */
  lemma MessagesCutExactly(c: Config, ms: seq<Message>)
    requires AllOk(c, ms)
    ensures Fragmentation.EveryCutAccepted(c, WriteAll(ms)) <==> AllFit(c, ms)
  {
    hide Run, AllOk, AllFit, WriteAll;
    var input := WriteAll(ms);
    assert INITIAL.pending + input == input;
    ReadMessages(c, INITIAL, ms);
    Fragmentation.EveryCutAcceptedExactly(c, input);
  }
}
