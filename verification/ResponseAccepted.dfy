/** Exactly which byte streams a parser takes without an error: complete messages and a beginning of another one. */
module ResponseAccepted {
  import opened Basics
  import opened Bytes
  import opened ResponseHeaders
  import opened ResponseStream
  import opened ResponseGrammar
  import Fragmentation

  // ---------------------------------------------------------------- beginnings

  /** A line, or a header block, whose end has not come and that still fits. */
  predicate OpenUnit(c: Config, part: Bytes, mark: Bytes)
    requires |mark| > 0
  {
    Find(part, mark) == -1 && |part| <= c.maxHeaderBytes
  }

  /** A chunk whose size line has come, but not all of its data and its line end, of which one byte is not checked. */
  predicate OpenChunk(part: Bytes, line: Bytes, n: nat) {
    && EndsAt(line, CRLF) && ParseChunkSize(line) == Ok(n) && n > 0
    && |line| + 2 <= |part| < |line| + 2 + n + 2 && part[..|line| + 2] == line + CRLF
  }

  /** The last chunk, complete trailer lines, and an open one. */
  predicate OpenTrailers(c: Config, part: Bytes, line: Bytes, trailers: seq<Bytes>, last: Bytes) {
    && EndsAt(line, CRLF) && ParseChunkSize(line) == Ok(0) && TrailersOk(c, trailers, 0)
    && OpenUnit(c, last, CRLF) && part == line + CRLF + (WriteLines(trailers) + last)
  }

  /** What may follow the complete chunks of a body that has not ended. */
  ghost predicate OpenEnd(c: Config, part: Bytes) {
    || OpenUnit(c, part, CRLF)
    || (exists line, n :: OpenChunk(part, line, n))
    || (exists line, trailers, last :: OpenTrailers(c, part, line, trailers, last))
  }

  predicate OpenChunksAt(chunks: seq<Chunk>, end: Bytes, part: Bytes) {
    (forall i :: 0 <= i < |chunks| ==> ChunkOk(chunks[i])) && part == WriteChunks(chunks) + end
  }

  ghost predicate OpenChunked(c: Config, part: Bytes) {
    exists chunks, end :: OpenChunksAt(chunks, end, part) && OpenEnd(c, end)
  }

  /** A head that calls for a body, and a part of the body that does not end it. */
  ghost predicate OpenBody(c: Config, part: Bytes, block: Bytes, framing: Framing) {
    && EndsAt(block, HEADER_END) && |block| <= c.maxHeaderBytes
    && ParseHeaders(block, c.requestMethod) == Ok(framing) && !framing.informational && framing.bodyLength != Some(0)
    && |block| + 4 <= |part| && part[..|block| + 4] == block + HEADER_END
    && var rest := part[|block| + 4..];
       if framing.chunked then OpenChunked(c, rest)
       else framing.bodyLength.Some? && |rest| < framing.bodyLength.value
  }

  /** A beginning of a message. */
  ghost predicate Open(c: Config, part: Bytes) {
    OpenUnit(c, part, HEADER_END) || exists block, framing :: OpenBody(c, part, block, framing)
  }

  // ---------------------------------------------------------------- beginnings are taken

  predicate Taken(o: Outcome) {
    o.error.None? && o.statuses == []
  }

  lemma UnitTaken(c: Config, p: Parser, part: Bytes)
    requires Valid(p) && p.pending == []
    requires (p.mode == Headers && OpenUnit(c, part, HEADER_END))
             || ((p.mode == ChunkSize || p.mode == Trailers) && OpenUnit(c, part, CRLF))
    ensures Taken(Run(c, p, part))
  {
    hide IndexOf, ParseHeaders, ParseChunkSize, Find;
  }

  lemma {:induction false} TrailersTaken(c: Config, p: Parser, trailers: seq<Bytes>, last: Bytes)
    requires Valid(p) && p.pending == [] && p.mode == Trailers && TrailersOk(c, trailers, p.trailerBytes)
    requires OpenUnit(c, last, CRLF)
    ensures Taken(Run(c, p, WriteLines(trailers) + last))
    decreases |trailers|
  {
    hide Find, IndexOf;
    var input := WriteLines(trailers) + last;
    if trailers == [] {
      assert input == last;
      UnitTaken(c, p, last);
    } else {
      var t := trailers[0];
      var more := WriteLines(trailers[1..]) + last;
      assert input == t + CRLF + more;
      FindMark(t, CRLF, more);
      var next := p.(trailerBytes := p.trailerBytes + |t| + 2);
      assert StepOf(c, p, input) == Advance(|t| + 2, next, []);
      TrailersTaken(c, next, trailers[1..], last);
    }
  }

  lemma DataTaken(c: Config, p: Parser, data: Bytes)
    requires Valid(p) && p.mode == ChunkData && |data| < p.chunkRemaining + 2
    ensures Taken(Run(c, p, data))
  {
    hide HeadersStep, ChunkSizeStep, TrailersStep, FixedBodyStep;
    if data != [] {
      var s := StepOf(c, p, data);
      var rest := data[s.consumed..];
      assert rest != [] ==> |rest| < 2;
      assert Taken(Run(c, s.parser, rest));
    }
  }

  lemma EndTaken(c: Config, p: Parser, part: Bytes)
    requires Valid(p) && p.pending == [] && p.mode == ChunkSize && OpenEnd(c, part)
    ensures Taken(Run(c, p, part))
  {
    hide ParseChunkSize, EndsAt, StepOf, TrailersOk, WriteLines;
    if OpenUnit(c, part, CRLF) {
      UnitTaken(c, p, part);
    } else if exists line, n :: OpenChunk(part, line, n) {
      var line, n :| OpenChunk(part, line, n);
      var data := part[|line| + 2..];
      assert part == line + CRLF + data;
      ReadSizeLine(c, p, line, n, data);
      DataTaken(c, p.(mode := ChunkData, chunkRemaining := n), data);
    } else {
      var line, trailers, last :| OpenTrailers(c, part, line, trailers, last);
      ReadSizeLine(c, p, line, 0, WriteLines(trailers) + last);
      TrailersTaken(c, p.(mode := Trailers, chunkRemaining := 0, trailerBytes := 0), trailers, last);
    }
  }

  lemma ChunkedTaken(c: Config, p: Parser, part: Bytes)
    requires Valid(p) && p.pending == [] && p.mode == ChunkSize && OpenChunked(c, part)
    ensures Taken(Run(c, p, part))
  {
    hide Run, ChunkOk, WriteChunks, OpenEnd;
    var chunks, end :| OpenChunksAt(chunks, end, part) && OpenEnd(c, end);
    ReadChunks(c, p, chunks, end);
    EndTaken(c, p, end);
  }

  lemma FixedTaken(c: Config, p: Parser, data: Bytes)
    requires Valid(p) && p.mode == FixedBody && |data| < p.bodyRemaining
    ensures Taken(Run(c, p, data))
  {
    hide HeadersStep, ChunkSizeStep, TrailersStep, ChunkDataStep, ChunkDataEndStep;
    if data != [] {
      assert data[|data|..] == [];
    }
  }

  /** The step on a head that calls for a body. */
  lemma HeadTaken(c: Config, p: Parser, block: Bytes, framing: Framing, rest: Bytes)
    requires AtHeaders(p) && EndsAt(block, HEADER_END) && |block| <= c.maxHeaderBytes
    requires ParseHeaders(block, c.requestMethod) == Ok(framing) && !framing.informational
    requires framing.bodyLength != Some(0) && (framing.chunked || framing.bodyLength.Some?)
    ensures var input := block + HEADER_END + rest;
            && StepOf(c, p, input) == Advance(|block| + 4, AfterHeaders(p, framing), [])
            && input[|block| + 4..] == rest
  {
    hide Find, IndexOf, ParseHeaders;
    FindMark(block, HEADER_END, rest);
  }

  lemma OpenTaken(c: Config, p: Parser, part: Bytes)
    requires AtHeaders(p) && Open(c, part)
    ensures Taken(Run(c, p, part))
  {
    hide ParseHeaders, EndsAt, OpenChunked, StepOf;
    if OpenUnit(c, part, HEADER_END) {
      UnitTaken(c, p, part);
    } else {
      var block, framing :| OpenBody(c, part, block, framing);
      var rest := part[|block| + 4..];
      assert part == block + HEADER_END + rest;
      HeadTaken(c, p, block, framing, rest);
      var next := AfterHeaders(p, framing);
      if framing.chunked {
        ChunkedTaken(c, next, rest);
      } else {
        FixedTaken(c, next, rest);
      }
    }
  }

  lemma {:induction false} MessagesTaken(c: Config, p: Parser, ms: seq<Message>, part: Bytes)
    requires AtHeaders(p) && AllOk(c, ms) && (part == [] || Open(c, part))
    ensures var o := Run(c, p, WriteAll(ms) + part); o.error.None? && o.statuses == AllReported(c, ms)
    decreases |ms|
  {
    hide StepOf, MessageOk, Write, Open;
    if ms == [] {
      assert WriteAll(ms) + part == part;
      if part != [] {
        OpenTaken(c, p, part);
      }
    } else {
      var more := WriteAll(ms[1..]) + part;
      assert WriteAll(ms) + part == Write(ms[0]) + more;
      var q := ReadMessage(c, p, ms[0], more);
      MessagesTaken(c, q, ms[1..], part);
    }
  }

  // ---------------------------------------------------------------- nothing else is

  /** A line that has ended, and what follows it. */
  lemma LineTaken(c: Config, p: Parser, input: Bytes) returns (line: Bytes, tail: Bytes)
    requires Valid(p) && p.pending == [] && (p.mode == Trailers || p.mode == ChunkSize)
    requires input != [] && Run(c, p, input).error.None? && Find(input, CRLF) != -1
    ensures EndsAt(line, CRLF) && input == line + CRLF + tail
    ensures p.mode == Trailers && line == [] ==>
              Run(c, p, input) == After([p.statusCode], Run(c, Complete(p), tail))
    ensures p.mode == Trailers && line != [] ==>
              && p.trailerBytes + |line| + 2 <= c.maxHeaderBytes
              && Run(c, p, input) == Run(c, p.(trailerBytes := p.trailerBytes + |line| + 2), tail)
    ensures p.mode == ChunkSize ==>
              && ParseChunkSize(line).Ok?
              && var n := ParseChunkSize(line).value;
                 Run(c, p, input)
                 == Run(c, if n == 0 then p.(mode := Trailers, chunkRemaining := 0, trailerBytes := 0)
                           else p.(mode := ChunkData, chunkRemaining := n), tail)
  {
    hide IndexOf, ParseChunkSize, EndsAt, HeadersStep, FixedBodyStep, ChunkDataStep, ChunkDataEndStep;
    var end := Find(input, CRLF);
    CutAtMark(input, CRLF);
    line, tail := input[..end], input[end + 2..];
  }

  lemma {:induction false} TrailersFate(c: Config, p: Parser, input: Bytes)
    returns (done: bool, trailers: seq<Bytes>, rest: Bytes, q: Parser)
    requires Valid(p) && p.pending == [] && p.mode == Trailers && Run(c, p, input).error.None?
    requires p.trailerBytes <= c.maxHeaderBytes
    ensures TrailersOk(c, trailers, p.trailerBytes)
    ensures done ==> input == WriteLines(trailers) + (CRLF + rest)
    ensures done ==> AtHeaders(q) && Run(c, p, input) == After([p.statusCode], Run(c, q, rest))
    ensures !done ==> input == WriteLines(trailers) + rest && OpenUnit(c, rest, CRLF) && Run(c, p, input).statuses == []
    decreases |input|
  {
    hide EndsAt, IndexOf, Find, Run, WriteLines;
    NoLines(input);
    if Find(input, CRLF) == -1 {
      done, trailers, rest, q := false, [], input, p;
      OpenFits(c, p, input, CRLF);
    } else {
      NotEmpty(input, CRLF);
      var line, tail := LineTaken(c, p, input);
      if line == [] {
        done, trailers, rest, q := true, [], tail, Complete(p);
        NoLines(CRLF + rest);
        assert input == CRLF + rest == WriteLines([]) + (CRLF + rest);
      } else {
        var others;
        done, others, rest, q := TrailersFate(c, p.(trailerBytes := p.trailerBytes + |line| + 2), tail);
        trailers := [line] + others;
        assert trailers[1..] == others;
        if done {
          LineBefore(line, others, CRLF + rest);
          assert tail == WriteLines(others) + (CRLF + rest);
        } else {
          LineBefore(line, others, rest);
        }
      }
    }
  }

  lemma NoLines(rest: Bytes)
    ensures WriteLines([]) + rest == rest
  {
    assert WriteLines([]) == [];
  }

  lemma LineBefore(line: Bytes, others: seq<Bytes>, rest: Bytes)
    ensures WriteLines([line] + others) + rest == line + CRLF + (WriteLines(others) + rest)
  {
    assert ([line] + others)[1..] == others;
  }

  lemma NotEmpty(input: Bytes, mark: Bytes)
    requires |mark| > 0 && Find(input, mark) != -1
    ensures input != []
  {
  }

  /** What is retained fits. */
  lemma OpenFits(c: Config, p: Parser, input: Bytes, mark: Bytes)
    requires Valid(p) && p.pending == [] && Run(c, p, input).error.None?
    requires (p.mode == Headers && mark == HEADER_END) || ((p.mode == ChunkSize || p.mode == Trailers) && mark == CRLF)
    requires Find(input, mark) == -1
    ensures OpenUnit(c, input, mark) && Run(c, p, input).statuses == []
  {
    hide IndexOf;
  }

  /** What a chunked body has come to. */
  datatype Fate = Done(body: Body, rest: Bytes, next: Parser) | Unfinished

  lemma {:induction false} ChunkedFate(c: Config, p: Parser, input: Bytes) returns (f: Fate)
    requires Valid(p) && p.pending == [] && p.mode == ChunkSize && Run(c, p, input).error.None?
    ensures f.Done? ==> f.body.Chunked? && ChunkedOk(c, f.body) && input == WriteBody(f.body) + f.rest
    ensures f.Done? ==> AtHeaders(f.next) && Run(c, p, input) == After([p.statusCode], Run(c, f.next, f.rest))
    ensures f.Unfinished? ==> OpenChunked(c, input) && Run(c, p, input).statuses == []
    decreases |input|
  {
    hide EndsAt, ParseChunkSize, IndexOf;
    if Find(input, CRLF) == -1 {
      f := Unfinished;
      OpenFits(c, p, input, CRLF);
      OpenAtOnce(c, input);
    } else {
      NotEmpty(input, CRLF);
      var line, tail := LineTaken(c, p, input);
      hide Find;
      var n := ParseChunkSize(line).value;
      if n == 0 {
        f := LastChunkFate(c, p, line, tail);
      } else if |tail| < n + 2 {
        f := Unfinished;
        OpenInData(c, p, line, tail, n);
      } else {
        f := NextChunkFate(c, p, line, tail, n);
      }
    }
  }

  lemma OpenAtOnce(c: Config, input: Bytes)
    requires OpenEnd(c, input)
    ensures OpenChunked(c, input)
  {
    hide OpenEnd;
    assert OpenChunksAt([], input, input);
  }

  lemma OpenInData(c: Config, p: Parser, line: Bytes, tail: Bytes, n: nat)
    requires Valid(p) && p.pending == [] && p.mode == ChunkSize && n > 0
    requires EndsAt(line, CRLF) && ParseChunkSize(line) == Ok(n) && |tail| < n + 2
    ensures OpenChunked(c, line + CRLF + tail)
    ensures Run(c, p.(mode := ChunkData, chunkRemaining := n), tail).statuses == []
  {
    hide EndsAt, ParseChunkSize, OpenChunked, Run;
    DataTaken(c, p.(mode := ChunkData, chunkRemaining := n), tail);
    assert OpenChunk(line + CRLF + tail, line, n);
    OpenAtOnce(c, line + CRLF + tail);
  }

  lemma LastChunkFate(c: Config, p: Parser, line: Bytes, tail: Bytes) returns (f: Fate)
    requires Valid(p) && p.pending == [] && p.mode == ChunkSize
    requires EndsAt(line, CRLF) && ParseChunkSize(line) == Ok(0)
    requires var next := p.(mode := Trailers, chunkRemaining := 0, trailerBytes := 0);
             Run(c, next, tail).error.None?
    ensures var next := p.(mode := Trailers, chunkRemaining := 0, trailerBytes := 0);
            var input := line + CRLF + tail;
            && (f.Done? ==> f.body.Chunked? && ChunkedOk(c, f.body) && input == WriteBody(f.body) + f.rest)
            && (f.Done? ==> AtHeaders(f.next) && Run(c, next, tail) == After([p.statusCode], Run(c, f.next, f.rest)))
            && (f.Unfinished? ==> OpenChunked(c, input) && Run(c, next, tail).statuses == [])
  {
    hide EndsAt, ParseChunkSize, Run, OpenChunked, WriteLines, WriteBody, TrailersOk;
    var next := p.(mode := Trailers, chunkRemaining := 0, trailerBytes := 0);
    var done, trailers, rest, q := TrailersFate(c, next, tail);
    var input := line + CRLF + tail;
    if done {
      var body := Chunked([], line, trailers);
      LastLineInFront(line, trailers);
      assert WriteLines(trailers) + (CRLF + rest) == WriteLines(trailers) + CRLF + rest;
      assert input == WriteBody(body) + rest;
      f := Done(body, rest, q);
    } else {
      f := Unfinished;
      assert OpenTrailers(c, input, line, trailers, rest);
      OpenAtOnce(c, input);
    }
  }

  lemma NextChunkFate(c: Config, p: Parser, line: Bytes, tail: Bytes, n: nat) returns (f: Fate)
    requires Valid(p) && p.pending == [] && p.mode == ChunkSize && n > 0 && |tail| >= n + 2
    requires EndsAt(line, CRLF) && ParseChunkSize(line) == Ok(n)
    requires Run(c, p.(mode := ChunkData, chunkRemaining := n), tail).error.None?
    ensures var next := p.(mode := ChunkData, chunkRemaining := n);
            var input := line + CRLF + tail;
            && (f.Done? ==> f.body.Chunked? && ChunkedOk(c, f.body) && input == WriteBody(f.body) + f.rest)
            && (f.Done? ==> AtHeaders(f.next) && Run(c, next, tail) == After([p.statusCode], Run(c, f.next, f.rest)))
            && (f.Unfinished? ==> OpenChunked(c, input) && Run(c, next, tail).statuses == [])
    decreases |tail|
  {
    hide EndsAt, ParseChunkSize, Run, OpenChunked, WriteBody, TrailersOk;
    var data, more := tail[..n], tail[n + 2..];
    LineEndTaken(c, p, tail, n);
    assert tail == data + CRLF + more;
    ReadChunkData(c, p.(mode := ChunkData, chunkRemaining := n), data, more);
    assert p.(mode := ChunkData, chunkRemaining := n).(mode := ChunkSize, chunkRemaining := 0) == p;
    var inner := ChunkedFate(c, p, more);
    var chunk := Chunk(line, data);
    assert line + CRLF + tail == line + CRLF + data + CRLF + more;
    if inner.Done? {
      f := Done(inner.body.(chunks := [chunk] + inner.body.chunks), inner.rest, inner.next);
      ChunkBeforeDone(c, chunk, inner.body, inner.rest);
    } else {
      f := Unfinished;
      ChunkBeforeOpen(c, chunk, more);
    }
  }

  lemma ChunkBeforeDone(c: Config, chunk: Chunk, body: Body, rest: Bytes)
    requires ChunkOk(chunk) && body.Chunked? && ChunkedOk(c, body)
    ensures var whole := body.(chunks := [chunk] + body.chunks);
            && ChunkedOk(c, whole)
            && chunk.sizeLine + CRLF + chunk.data + CRLF + (WriteBody(body) + rest) == WriteBody(whole) + rest
  {
    hide ChunkOk, WriteBody, EndsAt, ParseChunkSize, TrailersOk;
    ChunkInFront(chunk, body);
  }

  lemma LineEndTaken(c: Config, p: Parser, tail: Bytes, n: nat)
    requires Valid(p) && p.pending == [] && p.mode == ChunkSize && n > 0 && |tail| >= n + 2
    requires Run(c, p.(mode := ChunkData, chunkRemaining := n), tail).error.None?
    ensures tail[n..n + 2] == CRLF
  {
    hide HeadersStep, ChunkSizeStep, TrailersStep, FixedBodyStep;
    var next := p.(mode := ChunkData, chunkRemaining := n);
    var s := StepOf(c, next, tail);
    assert s.consumed == n;
    assert !StepOf(c, s.parser, tail[n..]).Fail?;
    assert tail[n..][..2] == tail[n..n + 2];
  }

  lemma ChunkBeforeOpen(c: Config, chunk: Chunk, more: Bytes)
    requires ChunkOk(chunk) && OpenChunked(c, more)
    ensures OpenChunked(c, chunk.sizeLine + CRLF + chunk.data + CRLF + more)
  {
    hide ChunkOk, OpenEnd;
    var chunks, end :| OpenChunksAt(chunks, end, more) && OpenEnd(c, end);
    var all := [chunk] + chunks;
    assert all[1..] == chunks;
    var part := chunk.sizeLine + CRLF + chunk.data + CRLF + more;
    assert part == WriteChunks(all) + end;
    assert OpenChunksAt(all, end, part);
  }

  /** What a message has come to: complete with the rest, or open. */
  lemma MessageFate(c: Config, p: Parser, input: Bytes) returns (done: bool, m: Message, rest: Bytes, q: Parser)
    requires AtHeaders(p) && input != [] && Run(c, p, input).error.None?
    ensures done ==> MessageOk(c, m) && input == Write(m) + rest && |rest| < |input|
    ensures done ==> AtHeaders(q) && Run(c, p, input) == After(Reported(c, m), Run(c, q, rest))
    ensures !done ==> Open(c, input) && Run(c, p, input).statuses == []
  {
    hide IndexOf, EndsAt, ParseHeaders, OpenChunked, WriteBody, ChunkedOk, Run, Find;
    done, m, rest, q := false, Interim([]), [], p;
    if Find(input, HEADER_END) == -1 {
      OpenFits(c, p, input, HEADER_END);
    } else {
      var block, tail, framing := HeadFate(c, p, input);
      var next := AfterHeaders(p, framing);
      if framing.informational || framing.bodyLength == Some(0) {
        WriteEmpty();
        done, rest, q := true, tail, next;
        m := if framing.informational then Interim(block) else Final(block, Empty);
      } else {
        var f := BodyFate(c, next, framing, tail);
        if f.Done? {
          done, m, rest, q := true, Final(block, f.body), f.rest, f.next;
        } else {
          assert input[|block| + 4..] == tail;
          assert OpenBody(c, input, block, framing);
        }
      }
    }
  }

  lemma BodyFate(c: Config, p: Parser, framing: Framing, input: Bytes) returns (f: Fate)
    requires !framing.informational && framing.bodyLength != Some(0) && (framing.chunked || framing.bodyLength.Some?)
    requires Valid(p) && p.pending == [] && Run(c, p, input).error.None? && p.statusCode == framing.statusCode
    requires p.mode == if framing.chunked then ChunkSize else FixedBody
    requires !framing.chunked ==> p.bodyRemaining == framing.bodyLength.value
    ensures f.Done? ==> BodyOk(c, framing, f.body) && input == WriteBody(f.body) + f.rest
    ensures f.Done? ==> AtHeaders(f.next) && Run(c, p, input) == After([p.statusCode], Run(c, f.next, f.rest))
    ensures f.Unfinished? ==> Run(c, p, input).statuses == []
    ensures f.Unfinished? ==> if framing.chunked then OpenChunked(c, input) else |input| < framing.bodyLength.value
  {
    hide ParseHeaders, OpenChunked, WriteBody, ChunkedOk, Run;
    if framing.chunked {
      f := ChunkedFate(c, p, input);
    } else if |input| < framing.bodyLength.value {
      FixedTaken(c, p, input);
      f := Unfinished;
    } else {
      var data := input[..framing.bodyLength.value];
      var rest := input[|data|..];
      assert input == data + rest;
      ReadFixedBody(c, p, data, rest);
      WriteFixed(data);
      f := Done(Fixed(data), rest, Complete(p));
    }
  }

  lemma HeadFate(c: Config, p: Parser, input: Bytes) returns (block: Bytes, tail: Bytes, framing: Framing)
    requires AtHeaders(p) && Run(c, p, input).error.None? && Find(input, HEADER_END) != -1
    ensures EndsAt(block, HEADER_END) && |block| <= c.maxHeaderBytes && input == block + HEADER_END + tail
    ensures ParseHeaders(block, c.requestMethod) == Ok(framing)
    ensures framing.informational ==> framing.statusCode != 101
    ensures !framing.informational && !framing.chunked ==> framing.bodyLength.Some?
    ensures Valid(AfterHeaders(p, framing)) && AfterHeaders(p, framing).pending == []
    ensures Run(c, p, input)
         == After(if !framing.informational && framing.bodyLength == Some(0) then [framing.statusCode] else [],
                  Run(c, AfterHeaders(p, framing), tail))
  {
    hide IndexOf, ParseHeaders, EndsAt, ChunkSizeStep, TrailersStep, FixedBodyStep, ChunkDataStep, ChunkDataEndStep;
    NotEmpty(input, HEADER_END);
    var end := Find(input, HEADER_END);
    CutAtMark(input, HEADER_END);
    block, tail := input[..end], input[end + 4..];
    framing := ParseHeaders(block, c.requestMethod).value;
    assert StepOf(c, p, input).parser == AfterHeaders(p, framing);
  }

  lemma OneMore(c: Config, m: Message, others: seq<Message>)
    requires MessageOk(c, m) && AllOk(c, others)
    ensures AllOk(c, [m] + others) && WriteAll([m] + others) == Write(m) + WriteAll(others)
    ensures AllReported(c, [m] + others) == Reported(c, m) + AllReported(c, others)
  {
    hide MessageOk, Write, Reported;
    assert ([m] + others)[1..] == others;
  }

  lemma NoMessages(c: Config, p: Parser)
    requires Valid(p) && p.pending == []
    ensures AllOk(c, []) && WriteAll([]) == [] && AllReported(c, []) == [] && Run(c, p, []).statuses == []
  {
  }

  lemma {:induction false} MessagesFate(c: Config, p: Parser, input: Bytes) returns (ms: seq<Message>, part: Bytes)
    requires AtHeaders(p) && Run(c, p, input).error.None?
    ensures AllOk(c, ms) && input == WriteAll(ms) + part && (part == [] || Open(c, part))
    ensures AllReported(c, ms) == Run(c, p, input).statuses
    decreases |input|
  {
    hide Run, MessageOk, Write, Open, AllOk, WriteAll, AllReported, Reported;
    NoMessages(c, p);
    if input == [] {
      ms, part := [], [];
    } else {
      var done, m, rest, q := MessageFate(c, p, input);
      if done {
        var others;
        others, part := MessagesFate(c, q, rest);
        ms := [m] + others;
        OneMore(c, m, others);
        assert input == WriteAll(ms) + part;
      } else {
        ms, part := [], input;
        assert input == WriteAll(ms) + part;
      }
    }
  }

  ghost predicate TakenAs(c: Config, ms: seq<Message>, part: Bytes, input: Bytes, statuses: seq<nat>) {
    AllOk(c, ms) && input == WriteAll(ms) + part && (part == [] || Open(c, part)) && AllReported(c, ms) == statuses
  }

  /**
    * The parser takes a stream without an error, reporting some statuses, exactly when the stream is well-formed
    * messages with those final statuses and, behind them, at most the beginning of another one.
    */
  lemma AcceptedExactly(c: Config, input: Bytes, statuses: seq<nat>)
    ensures Push(c, INITIAL, input).error.None? && Push(c, INITIAL, input).statuses == statuses
       <==> exists ms, part :: TakenAs(c, ms, part, input, statuses)
  {
    hide Run, AllOk, WriteAll, Open;
    assert INITIAL.pending + input == input;
    if Push(c, INITIAL, input).error.None? && Push(c, INITIAL, input).statuses == statuses {
      var ms, part := MessagesFate(c, INITIAL, input);
      assert TakenAs(c, ms, part, input, statuses);
    }
    forall ms, part | TakenAs(c, ms, part, input, statuses)
      ensures Push(c, INITIAL, input).error.None? && Push(c, INITIAL, input).statuses == statuses
    {
      MessagesTaken(c, INITIAL, ms, part);
    }
  }
}
