/**
  * Where a message ends (section 6.3 of RFC 9112), in the words of its printed head: what the parser reports after the
  * head alone, after part of the body and after all of it.
  */
module ResponseFraming {
  import opened Basics
  import opened Bytes
  import opened ResponseHeaders
  import opened ResponseStream
  import opened ResponsePrinter
  import Fragmentation
  import Grammar = ResponseGrammar

  // ---------------------------------------------------------------- texts

  /** The bytes of a text of ASCII characters. */
  function Ascii(text: string): (s: Bytes)
    requires forall i :: 0 <= i < |text| ==> text[i] as int < 128
    ensures |s| == |text|
  {
    seq(|text|, i requires 0 <= i < |text| => text[i] as int)
  }

  /** The bytes are the word in any case. */
  predicate Spells(s: Bytes, word: string) {
    |s| == |word| && forall i :: 0 <= i < |s| ==>
      s[i] == word[i] as int || ('a' <= word[i] <= 'z' && s[i] == word[i] as int - 32)
  }

  lemma LineEnds()
    ensures CRLF == Ascii("\r\n") && HEADER_END == Ascii("\r\n\r\n")
    ensures [COMMA] == Ascii(",") && [COLON] == Ascii(":") && [SEMICOLON] == Ascii(";")
  {
  }

  /** The names and the coding that the parser looks for. */
  lemma NamesSpelled(s: Bytes)
    ensures EqualsIgnoreCase(s, CONTENT_LENGTH) <==> Spells(s, "content-length")
    ensures EqualsIgnoreCase(s, TRANSFER_ENCODING) <==> Spells(s, "transfer-encoding")
    ensures EqualsIgnoreCase(s, CHUNKED) <==> Spells(s, "chunked")
  {
    SpellsIs(s, CONTENT_LENGTH, "content-length");
    SpellsIs(s, TRANSFER_ENCODING, "transfer-encoding");
    SpellsIs(s, CHUNKED, "chunked");
  }

  lemma SpellsIs(s: Bytes, expected: Bytes, word: string)
    requires |expected| == |word|
    requires forall i :: 0 <= i < |word| ==>
               ('a' <= word[i] <= 'z' || word[i] == '-') && expected[i] == word[i] as int
    ensures EqualsIgnoreCase(s, expected) <==> Spells(s, word)
  {
    if |s| == |word| {
      forall i | 0 <= i < |s|
        ensures (ToLower(s[i]) == expected[i]
                 <==> s[i] == word[i] as int || ('a' <= word[i] <= 'z' && s[i] == word[i] as int - 32))
      {
      }
    }
  }

  // ---------------------------------------------------------------- what a head declares

  predicate DeclaresLength(fields: seq<Field>, n: nat) {
    exists i :: 0 <= i < |fields| && fields[i].Length? && fields[i].n == n
  }

  predicate DeclaresNoLength(fields: seq<Field>) {
    forall i :: 0 <= i < |fields| ==> !fields[i].Length?
  }

  predicate DeclaresNoCoding(fields: seq<Field>) {
    forall i :: 0 <= i < |fields| ==> !fields[i].Coding?
  }

  /** The last member of the last Transfer-Encoding field is `chunked`. */
  predicate DeclaresChunked(fields: seq<Field>) {
    exists i :: 0 <= i < |fields| && fields[i].Coding? && Spells(fields[i].token, "chunked")
                && DeclaresNoCoding(fields[i + 1..])
  }

  lemma {:induction false} LengthDeclared(fields: seq<Field>, before: Fields, n: nat)
    requires Declared(fields, before).Some?
    ensures var declared := Declared(fields, before).value.contentLength;
            && (declared == None <==> before.contentLength == None && DeclaresNoLength(fields))
            && (before.contentLength.Some? ==> declared == before.contentLength)
            && (DeclaresLength(fields, n) ==> declared == Some(n))
            && (declared == Some(n) ==> before.contentLength == Some(n) || DeclaresLength(fields, n))
  {
    if fields != [] {
      LengthDeclared(fields[1..], DeclaredBy(fields[0], before).value, n);
      LengthInFront(fields, n);
      assert fields == [fields[0]] + fields[1..];
      hide DeclaresLength;
    }
  }

  lemma LengthInFront(fields: seq<Field>, k: nat)
    requires fields != []
    ensures DeclaresLength(fields, k) <==> (fields[0].Length? && fields[0].n == k) || DeclaresLength(fields[1..], k)
  {
    forall i | 0 <= i < |fields| - 1
      ensures fields[1..][i] == fields[i + 1]
    {
    }
    if DeclaresLength(fields[1..], k) {
      var i :| 0 <= i < |fields| - 1 && fields[1..][i].Length? && fields[1..][i].n == k;
      assert fields[i + 1].n == k;
    }
    if DeclaresLength(fields, k) {
      var i :| 0 <= i < |fields| && fields[i].Length? && fields[i].n == k;
      assert i > 0 ==> fields[1..][i - 1] == fields[i];
    }
  }

  lemma {:induction false} CodingDeclared(fields: seq<Field>, before: Fields)
    requires Declared(fields, before).Some?
    ensures var d := Declared(fields, before).value;
            && (d.transferEncoding <==> before.transferEncoding || !DeclaresNoCoding(fields))
            && (d.chunked <==> if DeclaresNoCoding(fields) then before.chunked else DeclaresChunked(fields))
  {
    if fields != [] {
      CodingDeclared(fields[1..], DeclaredBy(fields[0], before).value);
      CodingInFront(fields);
      if fields[0].Coding? {
        NamesSpelled(fields[0].token);
      }
      hide Spells, EqualsIgnoreCase;
    }
  }

  lemma CodingInFront(fields: seq<Field>)
    requires fields != []
    ensures DeclaresNoCoding(fields) <==> !fields[0].Coding? && DeclaresNoCoding(fields[1..])
    ensures DeclaresChunked(fields)
       <==> if DeclaresNoCoding(fields[1..]) then fields[0].Coding? && Spells(fields[0].token, "chunked")
            else DeclaresChunked(fields[1..])
  {
    hide Spells;
    var rest := fields[1..];
    assert fields == [fields[0]] + rest;
    forall i | 0 <= i < |rest|
      ensures rest[i] == fields[i + 1] && rest[i + 1..] == fields[i + 2..]
    {
    }
    if DeclaresChunked(rest) {
      var i :| 0 <= i < |rest| && rest[i].Coding? && Spells(rest[i].token, "chunked")
               && DeclaresNoCoding(rest[i + 1..]);
      assert fields[i + 1].Coding?;
    }
    if DeclaresChunked(fields) {
      var i :| 0 <= i < |fields| && fields[i].Coding? && Spells(fields[i].token, "chunked")
               && DeclaresNoCoding(fields[i + 1..]);
      if i > 0 {
        assert rest[i - 1].Coding?;
      }
    }
  }

  // ---------------------------------------------------------------- what the head alone does

  /** No body follows: an interim response, a status without content, or the answer to HEAD. */
  predicate WithoutBody(c: Config, r: Response) {
    r.status < 200 || r.status == 204 || r.status == 304 || c.requestMethod == "HEAD"
  }

  /** Nothing has been reported, and the parser waits for more. */
  predicate Waits(o: Outcome, mode: Mode) {
    o.error.None? && o.statuses == [] && o.parser.mode == mode && o.parser.pending == []
  }

  /** The message is over, and exactly these statuses have been reported. */
  predicate Ended(o: Outcome, statuses: seq<nat>) {
    o.error.None? && o.statuses == statuses && Grammar.AtHeaders(o.parser)
  }

  predicate Refused(o: Outcome, error: ParseError) {
    o.error == Some(error) && o.statuses == []
  }

  /** The bytes of a head and the empty line behind it. */
  function HeadBytes(r: Response): Bytes
    requires HeadOk(r)
  {
    WriteHead(r) + [13, 10, 13, 10]
  }

  /** The first step on a head, whatever follows it. */
  lemma HeadStep(c: Config, p: Parser, r: Response, rest: Bytes)
    requires Grammar.AtHeaders(p) && HeadOk(r)
    ensures var input := HeadBytes(r) + rest;
            && Find(input, HEADER_END) == |WriteHead(r)| && input[..|WriteHead(r)|] == WriteHead(r)
            && input[|HeadBytes(r)|..] == rest
    ensures ParseHeaders(WriteHead(r), c.requestMethod)
         == Decide(r.status, Declared(r.fields, NO_FIELDS).value, c.requestMethod)
  {
    hide Find, IndexOf, ParseHeaders, WriteHead, Decide, Declared, FieldOk;
    HeadReads(r, c.requestMethod);
    assert HEADER_END == [13, 10, 13, 10];
    Grammar.FindMark(WriteHead(r), HEADER_END, rest);
  }

  /** What the fields declare, in the terms of this module. */
  lemma DeclaredHere(r: Response, n: nat)
    requires HeadOk(r)
    ensures var d := Declared(r.fields, NO_FIELDS).value;
            && (d.contentLength == None <==> DeclaresNoLength(r.fields))
            && (d.contentLength == Some(n) <==> DeclaresLength(r.fields, n))
            && (d.transferEncoding <==> !DeclaresNoCoding(r.fields))
            && (d.chunked <==> DeclaresChunked(r.fields))
            && (DeclaresNoCoding(r.fields) ==> !DeclaresChunked(r.fields))
  {
    hide Declared, DeclaresLength, DeclaresNoLength, FieldOk;
    LengthDeclared(r.fields, NO_FIELDS, n);
    CodingDeclared(r.fields, NO_FIELDS);
    assert DeclaresNoCoding(r.fields) ==> !DeclaresChunked(r.fields);
    hide DeclaresNoCoding, DeclaresChunked;
  }

  /** A run that one step takes to the end of its input. */
  lemma OneStep(c: Config, p: Parser, input: Bytes)
    requires Valid(p) && p.pending == [] && input != []
    ensures var s := StepOf(c, p, input);
            && (s.Advance? && s.consumed == |input| ==> Push(c, p, input) == Outcome(s.reported, s.parser, None))
            && (s.Fail? ==> Push(c, p, input) == Outcome([], s.parser, Some(s.error)))
            && (s.Keep? ==> Push(c, p, input) == Outcome([], s.parser, None))
  {
    hide StepOf;
    assert p.pending + input == input && p.(pending := []) == p;
    assert input[|input|..] == [];
    var s := StepOf(c, p, input);
    assert s.Advance? && s.consumed == |input| ==> Run(c, s.parser, []) == Outcome([], s.parser, None);
  }

  /** A head that is over the limit, or declares its framing in a way that is not supported, is refused. */
  lemma HeadRefused(c: Config, p: Parser, r: Response)
    requires Grammar.AtHeaders(p) && HeadOk(r)
    ensures var o := Push(c, p, HeadBytes(r));
            if |WriteHead(r)| > c.maxHeaderBytes then Refused(o, HeadersExceed)
            else if !DeclaresNoCoding(r.fields) && !DeclaresChunked(r.fields)
            then Refused(o, UnsupportedTransferEncoding)
            else if DeclaresChunked(r.fields) && !DeclaresNoLength(r.fields) then Refused(o, BothFramings)
            else if r.status == 101 then Refused(o, UpgradeNotSupported)
            else if !WithoutBody(c, r) && DeclaresNoCoding(r.fields) && DeclaresNoLength(r.fields)
            then Refused(o, CloseDelimited)
            else o.error.None?
  {
    hide Find, IndexOf, ParseHeaders, WriteHead, Declared, HeadOk, DeclaresNoCoding, DeclaresChunked, DeclaresNoLength,
      DeclaresLength;
    var input := HeadBytes(r);
    HeadStep(c, p, r, []);
    assert input + [] == input;
    OneStep(c, p, input);
    hide Run;
    DeclaredHere(r, 0);
  }

  predicate Supported(c: Config, r: Response)
    requires HeadOk(r)
  {
    |WriteHead(r)| <= c.maxHeaderBytes && r.status != 101 && (DeclaresNoCoding(r.fields) || DeclaresChunked(r.fields))
    && !(DeclaresChunked(r.fields) && !DeclaresNoLength(r.fields))
  }

  /**
    * Where a message ends, whatever its head declares: a response without a body ends with its head; one with a length
    * waits for that many bytes, and ends at once when there are none; a chunked one waits for its first size line.
    */
  lemma HeadDecides(c: Config, p: Parser, r: Response, n: nat)
    requires Grammar.AtHeaders(p) && HeadOk(r) && Supported(c, r)
    ensures var o := Push(c, p, HeadBytes(r));
            && (WithoutBody(c, r) ==> Ended(o, if r.status < 200 then [] else [r.status]))
            && (!WithoutBody(c, r) && DeclaresChunked(r.fields) ==>
                  Waits(o, ChunkSize) && o.parser.statusCode == r.status)
            && (!WithoutBody(c, r) && DeclaresLength(r.fields, n) && n == 0 ==> Ended(o, [r.status]))
            && (!WithoutBody(c, r) && DeclaresLength(r.fields, n) && n > 0 ==>
                  Waits(o, FixedBody) && o.parser.bodyRemaining == n && o.parser.statusCode == r.status)
  {
    hide Find, IndexOf, ParseHeaders, WriteHead, Declared, HeadOk, DeclaresNoCoding, DeclaresChunked, DeclaresNoLength,
      DeclaresLength;
    var input := HeadBytes(r);
    HeadStep(c, p, r, []);
    assert input + [] == input;
    OneStep(c, p, input);
    hide Run;
    DeclaredHere(r, n);
    StatusKnown(r);
  }

  lemma StatusKnown(r: Response)
    requires HeadOk(r)
    ensures 100 <= r.status <= 599
  {
  }

  // ---------------------------------------------------------------- bodies

  /** A push that does not throw, and a second one, are one. */
  lemma PushTwice(c: Config, p: Parser, a: Bytes, b: Bytes)
    requires Valid(p) && p.pending == [] && Push(c, p, a).error.None?
    ensures var first := Push(c, p, a);
            var second := Push(c, first.parser, b);
            Push(c, p, a + b) == second.(statuses := first.statuses + second.statuses)
  {
    hide Run;
    assert p.pending + a == a && p.pending + (a + b) == a + b;
    Fragmentation.RunAppend(c, p, a, b);
  }

  /** With a declared length nothing is reported until exactly that many bytes have come. */
  lemma LengthDelimits(c: Config, p: Parser, r: Response, data: Bytes, n: nat)
    requires Grammar.AtHeaders(p) && HeadOk(r) && Supported(c, r)
    requires !WithoutBody(c, r) && DeclaresLength(r.fields, n) && |data| <= n
    ensures var o := Push(c, p, HeadBytes(r) + data);
            if |data| < n then Waits(o, FixedBody) && o.parser.bodyRemaining == n - |data| else Ended(o, [r.status])
  {
    hide Run, HeadOk, Supported, DeclaresLength, DeclaresChunked, HeadBytes;
    HeadDecides(c, p, r, n);
    var first := Push(c, p, HeadBytes(r));
    PushTwice(c, p, HeadBytes(r), data);
    if n > 0 {
      FixedBytes(c, first.parser, data);
    } else {
      assert data == [];
      NothingMore(c, first.parser);
    }
  }

  lemma NothingMore(c: Config, p: Parser)
    requires Valid(p) && p.pending == []
    ensures Push(c, p, []) == Outcome([], p, None)
  {
  }

  lemma FixedBytes(c: Config, p: Parser, data: Bytes)
    requires Valid(p) && p.mode == FixedBody && |data| <= p.bodyRemaining
    ensures var o := Push(c, p, data);
            if |data| < p.bodyRemaining then
              o == Outcome([], p.(bodyRemaining := p.bodyRemaining - |data|), None)
            else Ended(o, [p.statusCode])
  {
    hide HeadersStep, ChunkSizeStep, TrailersStep, ChunkDataStep, ChunkDataEndStep;
    if data == [] {
      NothingMore(c, p);
    } else {
      OneStep(c, p, data);
      hide Run;
    }
  }

  /** Part of a line that has not ended is retained or refused. */
  lemma LineSilent(c: Config, p: Parser, line: Bytes, part: Bytes)
    requires Valid(p) && p.pending == [] && (p.mode == ChunkSize || p.mode == Trailers)
    requires Grammar.EndsAt(line, CRLF) && part <= line + CRLF && part != line + CRLF
    ensures Run(c, p, part).statuses == []
  {
    hide IndexOf, ParseChunkSize;
    if part != [] {
      FindAppend(part, (line + CRLF)[|part|..], CRLF);
      assert part + (line + CRLF)[|part|..] == line + CRLF;
    }
  }

  /** Part of a chunk's data and line end. */
  lemma DataSilent(c: Config, p: Parser, data: Bytes, part: Bytes)
    requires Valid(p) && p.mode == ChunkData && p.chunkRemaining == |data|
    requires part <= data + CRLF && part != data + CRLF
    ensures Run(c, p, part).statuses == []
  {
    hide HeadersStep, ChunkSizeStep, TrailersStep, FixedBodyStep;
    if part != [] {
      var s := StepOf(c, p, part);
      var rest := part[s.consumed..];
      if rest != [] {
        assert |rest| < 2;
        assert Run(c, s.parser, rest).statuses == [];
      }
    }
  }

  lemma {:induction false} TrailersSilent(c: Config, p: Parser, trailers: seq<Bytes>, part: Bytes)
    requires Valid(p) && p.pending == [] && p.mode == Trailers && Grammar.TrailersOk(c, trailers, p.trailerBytes)
    requires part <= Grammar.WriteLines(trailers) + CRLF && part != Grammar.WriteLines(trailers) + CRLF
    ensures Run(c, p, part).statuses == []
    decreases |trailers|
  {
    hide Find, IndexOf;
    if trailers == [] {
      Grammar.EmptyEnds();
      assert Grammar.WriteLines([]) + CRLF == [] + CRLF;
      LineSilent(c, p, [], part);
    } else {
      var t := trailers[0];
      var more := Grammar.WriteLines(trailers[1..]) + CRLF;
      assert Grammar.WriteLines(trailers) + CRLF == t + CRLF + more;
      if |part| < |t| + 2 {
        assert part <= t + CRLF;
        LineSilent(c, p, t, part);
      } else {
        var inner := part[|t| + 2..];
        assert part == t + CRLF + inner;
        Grammar.FindMark(t, CRLF, inner);
        var next := p.(trailerBytes := p.trailerBytes + |t| + 2);
        assert StepOf(c, p, part) == Advance(|t| + 2, next, []);
        TrailersSilent(c, next, trailers[1..], inner);
      }
    }
  }

  /** The bytes of a chunked body. */
  function ChunkedBytes(chunks: seq<Grammar.Chunk>, lastLine: Bytes, trailers: seq<Bytes>): Bytes {
    Grammar.WriteChunks(chunks) + (lastLine + CRLF + (Grammar.WriteLines(trailers) + CRLF))
  }

  lemma LastChunkSilent(c: Config, p: Parser, lastLine: Bytes, trailers: seq<Bytes>, part: Bytes)
    requires Valid(p) && p.pending == [] && p.mode == ChunkSize
    requires Grammar.EndsAt(lastLine, CRLF) && ParseChunkSize(lastLine) == Ok(0) && Grammar.TrailersOk(c, trailers, 0)
    requires var whole := lastLine + CRLF + (Grammar.WriteLines(trailers) + CRLF); part <= whole && part != whole
    ensures Run(c, p, part).statuses == []
  {
    hide ParseChunkSize, Grammar.EndsAt, Grammar.WriteLines, Grammar.TrailersOk, StepOf;
    if |part| < |lastLine| + 2 {
      assert part <= lastLine + CRLF;
      LineSilent(c, p, lastLine, part);
    } else {
      var inner := part[|lastLine| + 2..];
      assert part == lastLine + CRLF + inner;
      Grammar.ReadSizeLine(c, p, lastLine, 0, inner);
      TrailersSilent(c, p.(mode := Trailers, chunkRemaining := 0, trailerBytes := 0), trailers, inner);
    }
  }

  /** Part of a chunk: its size line, or that and part of its data. */
  lemma ChunkSilent(c: Config, p: Parser, chunk: Grammar.Chunk, part: Bytes)
    requires Valid(p) && p.pending == [] && p.mode == ChunkSize && Grammar.ChunkOk(chunk)
    requires var whole := chunk.sizeLine + CRLF + (chunk.data + CRLF); part <= whole && part != whole
    ensures Run(c, p, part).statuses == []
  {
    hide ParseChunkSize, Grammar.EndsAt, StepOf;
    var line := chunk.sizeLine;
    if |part| < |line| + 2 {
      assert part <= line + CRLF;
      LineSilent(c, p, line, part);
    } else {
      var inner := part[|line| + 2..];
      assert part == line + CRLF + inner;
      Grammar.ReadSizeLine(c, p, line, |chunk.data|, inner);
      DataSilent(c, p.(mode := ChunkData, chunkRemaining := |chunk.data|), chunk.data, inner);
    }
  }

  lemma {:induction false} ChunkedSilent(
    c: Config, p: Parser, chunks: seq<Grammar.Chunk>, lastLine: Bytes, trailers: seq<Bytes>, part: Bytes)
    requires Valid(p) && p.pending == [] && p.mode == ChunkSize
    requires forall i :: 0 <= i < |chunks| ==> Grammar.ChunkOk(chunks[i])
    requires Grammar.EndsAt(lastLine, CRLF) && ParseChunkSize(lastLine) == Ok(0) && Grammar.TrailersOk(c, trailers, 0)
    requires var whole := ChunkedBytes(chunks, lastLine, trailers); part <= whole && part != whole
    ensures Run(c, p, part).statuses == []
    decreases |chunks|
  {
    hide ParseChunkSize, Grammar.EndsAt, Grammar.TrailersOk, Grammar.WriteLines, Run, Grammar.ChunkOk;
    if chunks == [] {
      var end := lastLine + CRLF + (Grammar.WriteLines(trailers) + CRLF);
      assert ChunkedBytes(chunks, lastLine, trailers) == end;
      LastChunkSilent(c, p, lastLine, trailers, part);
    } else {
      var chunk := chunks[0];
      var first := chunk.sizeLine + CRLF + (chunk.data + CRLF);
      var more := ChunkedBytes(chunks[1..], lastLine, trailers);
      assert ChunkedBytes(chunks, lastLine, trailers) == first + more;
      if |part| < |first| {
        assert part <= first;
        ChunkSilent(c, p, chunk, part);
      } else {
        var inner := part[|first|..];
        assert part == chunk.sizeLine + CRLF + (chunk.data + CRLF + inner);
        Grammar.ReadChunk(c, p, chunk, inner);
        ChunkedSilent(c, p, chunks[1..], lastLine, trailers, inner);
      }
    }
  }

  /** A printed chunked body: chunks with data, the last chunk, and trailers within the limit. */
  predicate PrintedBody(c: Config, content: Content) {
    && content.Chunks?
    && (forall i :: 0 <= i < |content.chunks| ==> ChunkLineOk(content.chunks[i]) && content.chunks[i].data != [])
    && ChunkLineOk(content.last) && content.last.data == [] && Grammar.TrailersOk(c, content.trailers, 0)
  }

  function BodyBytes(content: Content): Bytes
    requires content.Chunks?
  {
    ChunkedBytes(ChunksOf(content.chunks), SizeLine(content.last), content.trailers)
  }

  lemma BodyParts(c: Config, content: Content)
    requires PrintedBody(c, content)
    ensures forall i :: 0 <= i < |ChunksOf(content.chunks)| ==> Grammar.ChunkOk(ChunksOf(content.chunks)[i])
    ensures Grammar.EndsAt(SizeLine(content.last), CRLF) && ParseChunkSize(SizeLine(content.last)) == Ok(0)
  {
    hide Grammar.EndsAt, ParseChunkSize, Grammar.TrailersOk;
    ChunkedBodyOk(c, Response(0, 200, None, [], content));
  }

  /** A chunked message is reported when the last byte of its body has come, and not before. */
  lemma ChunksDelimit(c: Config, p: Parser, r: Response, content: Content, k: nat)
    requires Grammar.AtHeaders(p) && HeadOk(r) && Supported(c, r)
    requires !WithoutBody(c, r) && DeclaresChunked(r.fields) && PrintedBody(c, content) && k <= |BodyBytes(content)|
    ensures var o := Push(c, p, HeadBytes(r) + BodyBytes(content)[..k]);
            if k < |BodyBytes(content)| then o.statuses == [] else Ended(o, [r.status])
  {
    hide Run, HeadOk, Supported, DeclaresLength, DeclaresChunked, HeadBytes, ChunkLineOk, SizeLine, ChunksOf,
      Grammar.TrailersOk, Grammar.ChunkOk, Grammar.EndsAt, ParseChunkSize, Grammar.WriteChunks, Grammar.WriteLines;
    HeadDecides(c, p, r, 0);
    var first := Push(c, p, HeadBytes(r)).parser;
    var part := BodyBytes(content)[..k];
    PushTwice(c, p, HeadBytes(r), part);
    BodyParts(c, content);
    assert first.pending + part == part && first.(pending := []) == first;
    if k < |BodyBytes(content)| {
      ChunkedSilent(c, first, ChunksOf(content.chunks), SizeLine(content.last), content.trailers, part);
    } else {
      var body := Grammar.Chunked(ChunksOf(content.chunks), SizeLine(content.last), content.trailers);
      assert part == Grammar.WriteBody(body) && part + [] == part;
      var q := Grammar.ReadChunkedBody(c, first, Framing(r.status, false, true, None), body, []);
      NothingMore(c, q);
      assert q.pending + [] == [] && q.(pending := []) == q;
    }
  }
}
