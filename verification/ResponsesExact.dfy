/**
  * Every header block, size line and message that the parser accepts is one that a server can print: the byte streams
  * that end between responses are exactly the printed ones.
  */
module ResponsesExact {
  import opened Basics
  import opened Bytes
  import opened ResponseHeaders
  import opened LengthTexts
  import opened ResponseStream
  import opened ResponsePrinter
  import Grammar = ResponseGrammar

  // ---------------------------------------------------------------- field lines

  /** The white space around the members of an accepted Content-Length list. */
  lemma {:induction false} PadsAround(parts: seq<Bytes>, n: nat) returns (inner: seq<Pad>)
    requires AllAre(parts, n)
    ensures |inner| == |parts|
    ensures forall i :: 0 <= i < |parts| ==> PadOk(inner[i]) && LengthPart(n, inner[i]) == parts[i]
  {
    hide Trim, Numeral, IsDecimal;
    if parts == [] {
      inner := [];
    } else {
      assert parts == [parts[0]] + parts[1..];
      var left, right := TrimSplits(parts[0]);
      DecimalIsPrinted(Trim(parts[0]), n);
      var others := PadsAround(parts[1..], n);
      inner := [Pad(left, right)] + others;
    }
  }

  /** A list that neither begins nor ends with white space has none outside its first and last member. */
  lemma OuterPads(parts: seq<Bytes>, n: nat, inner: seq<Pad>)
    requires parts != [] && |inner| == |parts|
    requires forall i :: 0 <= i < |parts| ==> PadOk(inner[i]) && LengthPart(n, inner[i]) == parts[i]
    requires var value := Join(parts, COMMA);
             value != [] ==> !IsOptionalWhitespace(value[0]) && !IsOptionalWhitespace(value[|value| - 1])
    ensures inner[0].left == [] && inner[|inner| - 1].right == []
  {
    hide Join, Print;
    var m := |parts| - 1;
    JoinEnds(parts, COMMA);
    assert parts[0] == LengthPart(n, inner[0]) && parts[m] == LengthPart(n, inner[m]);
    PadShows(n, inner[0]);
    PadShows(n, inner[m]);
  }

  lemma PadShows(n: nat, pad: Pad)
    requires PadOk(pad)
    ensures var part := LengthPart(n, pad);
            && part != []
            && (pad.left != [] ==> IsOptionalWhitespace(part[0]))
            && (pad.right != [] ==> IsOptionalWhitespace(part[|part| - 1]))
  {
    hide Print;
    var part := LengthPart(n, pad);
    assert pad.left != [] ==> part[0] == pad.left[0];
    assert pad.right != [] ==> part[|part| - 1] == pad.right[|pad.right| - 1];
  }

  lemma LengthShape(name: Bytes, text: Bytes, previous: Option<nat>, n: nat) returns (f: Field)
    requires ParseContentLength(Trim(text), previous) == Ok(n)
    ensures f.Length? && f.name == name && f.n == n && n <= MAX_SAFE_INTEGER
    ensures FieldText(f) == text
    ensures PadOk(f.outer) && f.inner != [] && f.inner[0].left == [] && f.inner[|f.inner| - 1].right == []
    ensures forall i :: 0 <= i < |f.inner| ==> PadOk(f.inner[i])
    ensures previous == None || previous == Some(n)
  {
    hide Trim, ParseContentLength, Split, Join, Numeral, IsDecimal, LengthPart;
    var value := Trim(text);
    var left, right := TrimSplits(text);
    var parts := Split(value, COMMA);
    ContentLengthExact(value, previous, n);
    SplitJoin(value, COMMA);
    assert IsLength(Trim(parts[0]), n);
    var inner := PadsAround(parts, n);
    OuterPads(parts, n, inner);
    assert LengthParts(n, inner) == parts;
    f := Length(name, n, Pad(left, right), inner);
  }

  /** A text cut behind its last separator. */
  lemma {:induction false} LastMember(text: Bytes) returns (others: Bytes, last: Bytes)
    ensures text == others + last && COMMA !in last
    ensures others != [] ==> others[|others| - 1] == COMMA
  {
    if text == [] {
      others, last := [], [];
    } else if text[|text| - 1] == COMMA {
      others, last := text, [];
    } else {
      others, last := LastMember(text[..|text| - 1]);
      last := last + [text[|text| - 1]];
    }
  }

  lemma CodingShape(name: Bytes, text: Bytes) returns (f: Field)
    ensures f.Coding? && f.name == name && FieldText(f) == text
    ensures PadOk(f.pad) && TokenOk(f.token) && (f.others != [] ==> f.others[|f.others| - 1] == COMMA)
  {
    hide Trim;
    var others, last := LastMember(text);
    var left, right := TrimSplits(last);
    var token := Trim(last);
    assert forall b :: b in token ==> b in last;
    f := Coding(name, others, Pad(left, right), token);
  }

  /** An accepted field line is a printed one, with the meaning it was read with. */
  lemma FieldShape(line: Bytes, before: Fields) returns (f: Field)
    requires Grammar.EndsAt(line, CRLF) && ReadField(line, before).Ok?
    ensures FieldOk(f) && WriteField(f) == line
    ensures DeclaredBy(f, before) == Some(ReadField(line, before).value)
  {
    hide IndexOf, MatchAt, Trim, EqualsIgnoreCase, Grammar.EndsAt, ParseContentLength, FieldText, LastToken, TokenOk;
    var k := Find(line, [COLON]);
    NoSeparatorBefore(line, COLON);
    ColonAt(line);
    var name, text := line[..k], line[k + 1..];
    if EqualsIgnoreCase(Trim(name), CONTENT_LENGTH) {
      f := LengthShape(name, text, before.contentLength, ParseContentLength(Trim(text), before.contentLength).value);
    } else if EqualsIgnoreCase(Trim(name), TRANSFER_ENCODING) {
      f := CodingShape(name, text);
    } else {
      f := Other(name, text);
      OtherText(f);
    }
    assert WriteField(f) == line;
    FieldReads(f, before);
  }

  lemma ColonAt(line: Bytes)
    requires Find(line, [COLON]) != -1
    ensures var k := Find(line, [COLON]); k < |line| && line == line[..k] + [COLON] + line[k + 1..]
  {
    hide IndexOf;
    var k := Find(line, [COLON]);
    assert line[k..k + 1] == [COLON];
  }

  lemma OtherText(f: Field)
    requires f.Other?
    ensures FieldText(f) == f.value
  {
  }

  lemma {:induction false} FieldsShape(lines: seq<Bytes>, before: Fields) returns (fields: seq<Field>)
    requires forall i :: 0 <= i < |lines| ==> Grammar.EndsAt(lines[i], CRLF)
    requires ReadFields(lines, before).Ok?
    ensures WriteFields(fields) == lines
    ensures forall i :: 0 <= i < |fields| ==> FieldOk(fields[i])
    ensures Declared(fields, before) == Some(ReadFields(lines, before).value)
    decreases |lines|
  {
    hide FieldOk, ReadField, WriteField, Grammar.EndsAt, DeclaredBy;
    if lines == [] {
      fields := [];
    } else {
      var f := FieldShape(lines[0], before);
      var others := FieldsShape(lines[1..], ReadField(lines[0], before).value);
      fields := [f] + others;
      assert fields[1..] == others;
      assert lines == [lines[0]] + lines[1..];
    }
  }

  // ---------------------------------------------------------------- header block

  predicate EndsWithLineEnd(s: Bytes) {
    |s| >= 2 && s[|s| - 2..] == CRLF
  }

  lemma NoLineEndAtEnd(block: Bytes)
    requires Grammar.EndsAt(block, HEADER_END)
    ensures !EndsWithLineEnd(block)
  {
    if EndsWithLineEnd(block) {
      var k := |block| - 2;
      var s := block + HEADER_END;
      assert s[k..k + 4] == CRLF + CRLF;
      assert MatchAt(s, HEADER_END, k);
    }
  }

  /** A text without a line end is ended by the line end behind it. */
  lemma LastLineEnds(line: Bytes)
    requires Find(line, CRLF) == -1
    ensures Grammar.EndsAt(line, CRLF)
  {
    hide IndexOf;
    var s := line + CRLF;
    FindAppend(line, CRLF, CRLF);
    assert s[|line|..|line| + 2] == CRLF;
    forall i | 0 <= i < |line|
      ensures !MatchAt(s, CRLF, i)
    {
      if i + 2 <= |line| {
        assert s[i..i + 2] == line[i..i + 2];
        assert !MatchAt(line, CRLF, i);
      } else {
        assert s[i..i + 2][1] == CR;
      }
    }
    FindIs(s, CRLF, |line|);
  }

  lemma LineEndLast(line: Bytes, rest: Bytes)
    ensures rest == [] || EndsWithLineEnd(rest) ==> EndsWithLineEnd(line + CRLF + rest)
  {
    var s := line + CRLF + rest;
    if rest == [] {
      assert s[|s| - 2..] == CRLF;
    } else if EndsWithLineEnd(rest) {
      assert s[|s| - 2..] == rest[|rest| - 2..];
    }
  }

  /** A block that does not end with a line end is its lines joined again, and each of them ends at its line end. */
  lemma {:induction false} LinesShape(block: Bytes)
    requires block != [] && !EndsWithLineEnd(block)
    ensures Lines(block) != [] && JoinLines(Lines(block)) == block
    ensures forall i :: 0 <= i < |Lines(block)| ==> Grammar.EndsAt(Lines(block)[i], CRLF)
    decreases |block|
  {
    hide IndexOf, Grammar.EndsAt;
    var k := Find(block, CRLF);
    if k == -1 {
      LastLineEnds(block);
    } else {
      Grammar.CutAtMark(block, CRLF);
      var rest := block[k + 2..];
      assert block == block[..k] + CRLF + rest;
      LineEndLast(block[..k], rest);
      LinesShape(rest);
    }
  }

  lemma StatusLineShape(line: Bytes) returns (minor: nat, reason: Option<Bytes>)
    requires IsStatusLine(line)
    ensures minor < 2
    ensures WriteStatusLine(Response(minor, StatusOf(line), reason, [], Nothing)) == line
  {
    hide StatusOf, Digits3;
    minor := line[7] - 48;
    reason := if |line| == 12 then None else Some(line[13..]);
    StatusDigits(line);
    assert line[..9] == line[..7] + [48 + minor, 32];
    assert line[..12] == line[..9] + [line[9], line[10], line[11]];
    assert line == if |line| == 12 then line[..12] else line[..12] + [line[12]] + line[13..];
  }

  lemma StatusDigits(line: Bytes)
    requires IsStatusLine(line)
    ensures Digits3(StatusOf(line)) == [line[9], line[10], line[11]]
  {
    ThreeDigits(Digit(line[9]), Digit(line[10]), Digit(line[11]));
  }

  lemma ThreeDigits(a: nat, b: nat, c: nat)
    requires a < 10 && b < 10 && c < 10
    ensures Digits3(a * 100 + b * 10 + c) == [48 + a, 48 + b, 48 + c]
  {
    var n := a * 100 + b * 10 + c;
    assert n / 10 == a * 10 + b && n % 10 == c;
    assert n / 100 == a && n / 10 % 10 == b;
  }

  /** Every accepted header block is a printed head, with the status and the fields it was read with. */
  lemma HeadShape(block: Bytes, requestMethod: string) returns (r: Response)
    requires Grammar.EndsAt(block, HEADER_END) && ParseHeaders(block, requestMethod).Ok?
    ensures HeadOk(r) && WriteHead(r) == block && r.content == Nothing
    ensures (Decide(r.status, Declared(r.fields, NO_FIELDS).value, requestMethod)
             == ParseHeaders(block, requestMethod))
  {
    hide Grammar.EndsAt, Lines, Declared, ReadFields, IsStatusLine, StatusOf, Decide, WriteStatusLine, JoinLines,
      EndsWithLineEnd, FieldOk;
    NoLineEndAtEnd(block);
    LinesShape(block);
    var lines := Lines(block);
    var minor, reason := StatusLineShape(lines[0]);
    var fields := FieldsShape(lines[1..], NO_FIELDS);
    StatusInRange(lines[0]);
    r := Response(minor, StatusOf(lines[0]), reason, fields, Nothing);
    SameStatusLine(r, Response(minor, StatusOf(lines[0]), reason, [], Nothing));
    assert HeadLines(r) == lines;
  }

  /** Fields and content do not show in the status line. */
  lemma SameStatusLine(r: Response, s: Response)
    requires r.minor < 2 && r.status < 1000 && s == r.(fields := s.fields, content := s.content)
    ensures WriteStatusLine(r) == WriteStatusLine(s)
  {
  }

  lemma StatusInRange(line: Bytes)
    requires IsStatusLine(line)
    ensures |line| >= 12 && 100 <= StatusOf(line) <= 599
  {
  }

  /** The printed head of these bytes, read as this framing. */
  predicate PrintsHead(r: Response, block: Bytes, requestMethod: string, framing: Framing) {
    HeadOk(r) && WriteHead(r) == block
    && Decide(r.status, Declared(r.fields, NO_FIELDS).value, requestMethod) == Ok(framing)
  }

  /** A block that ends at its empty line is accepted with a framing exactly when it is a head printed with it. */
  lemma HeadExactly(block: Bytes, requestMethod: string, framing: Framing)
    requires Grammar.EndsAt(block, HEADER_END)
    ensures ParseHeaders(block, requestMethod) == Ok(framing)
       <==> exists r :: PrintsHead(r, block, requestMethod, framing)
  {
    hide Grammar.EndsAt, ParseHeaders, HeadOk, WriteHead, Decide, Declared;
    if ParseHeaders(block, requestMethod) == Ok(framing) {
      var r := HeadShape(block, requestMethod);
      assert PrintsHead(r, block, requestMethod, framing);
    }
    forall r | PrintsHead(r, block, requestMethod, framing)
      ensures ParseHeaders(block, requestMethod) == Ok(framing)
    {
      HeadReads(r, requestMethod);
    }
  }

  // ---------------------------------------------------------------- messages

  lemma ChunkShape(chunk: Grammar.Chunk) returns (p: PrintedChunk)
    requires Grammar.ChunkOk(chunk)
    ensures ChunkLineOk(p) && SizeLine(p) == chunk.sizeLine && p.data == chunk.data && p.data != []
  {
    hide ParseChunkSize, Grammar.EndsAt, Numeral;
    var digits, left, right, extension := ChunkSizeShape(chunk.sizeLine, |chunk.data|);
    p := PrintedChunk(chunk.data, digits, Pad(left, right), extension);
  }

  lemma LastChunkShape(line: Bytes) returns (p: PrintedChunk)
    requires Grammar.EndsAt(line, CRLF) && ParseChunkSize(line) == Ok(0)
    ensures ChunkLineOk(p) && SizeLine(p) == line && p.data == []
  {
    hide ParseChunkSize, Grammar.EndsAt, Numeral;
    var digits, left, right, extension := ChunkSizeShape(line, 0);
    p := PrintedChunk([], digits, Pad(left, right), extension);
  }

  lemma {:induction false} ChunksShape(chunks: seq<Grammar.Chunk>) returns (printed: seq<PrintedChunk>)
    requires forall i :: 0 <= i < |chunks| ==> Grammar.ChunkOk(chunks[i])
    ensures ChunksOf(printed) == chunks
    ensures forall i :: 0 <= i < |printed| ==> ChunkLineOk(printed[i]) && printed[i].data != []
  {
    hide Grammar.ChunkOk, ChunkLineOk, SizeLine;
    if chunks == [] {
      printed := [];
    } else {
      assert chunks == [chunks[0]] + chunks[1..];
      var first := ChunkShape(chunks[0]);
      var others := ChunksShape(chunks[1..]);
      printed := [first] + others;
      assert ChunksOf(printed) == [Grammar.Chunk(SizeLine(first), first.data)] + ChunksOf(others);
    }
  }

  predicate ChunkedContent(c: Config, content: Content, body: Grammar.Body)
    requires content.Chunks? && body.Chunked?
  {
    && content.trailers == body.trailers && Grammar.TrailersOk(c, body.trailers, 0)
    && ChunksOf(content.chunks) == body.chunks && SizeLine(content.last) == body.lastLine
    && ChunkLineOk(content.last) && content.last.data == []
    && forall i :: 0 <= i < |content.chunks| ==> ChunkLineOk(content.chunks[i]) && content.chunks[i].data != []
  }

  /** The content that prints a body. */
  lemma BodyShape(c: Config, framing: Framing, body: Grammar.Body) returns (content: Content)
    requires Grammar.BodyOk(c, framing, body)
    ensures body.Empty? ==> content == Data([])
    ensures body.Fixed? ==> content == Data(body.data)
    ensures body.Chunked? ==> content.Chunks? && ChunkedContent(c, content, body)
  {
    hide Grammar.ChunkOk, ChunkLineOk, SizeLine, Grammar.TrailersOk, ParseChunkSize, Grammar.EndsAt;
    match body {
      case Empty => content := Data([]);
      case Fixed(data) => content := Data(data);
      case Chunked(chunks, lastLine, trailers) =>
        var printed := ChunksShape(chunks);
        var last := LastChunkShape(lastLine);
        content := Chunks(printed, last, trailers);
    }
  }

  /** Every well-formed message is a printed response. */
  lemma MessageShape(c: Config, m: Grammar.Message) returns (r: Response)
    requires Grammar.MessageOk(c, m)
    ensures ResponseOk(c, r) && MessageOf(c, r) == m
  {
    hide ParseHeaders, Grammar.EndsAt, ChunkLineOk, SizeLine, Grammar.TrailersOk, WriteHead, HeadOk, Declared,
      Grammar.ChunkedOk, ChunksOf;
    var head := HeadShape(m.block, c.requestMethod);
    var framing := ParseHeaders(m.block, c.requestMethod).value;
    HeadOfContent(head, Nothing);
    if m.Interim? {
      r := head;
    } else {
      var content := BodyShape(c, framing, m.body);
      HeadOfContent(head, content);
      r := head.(content := content);
    }
  }

  /** The head does not depend on the content. */
  lemma HeadOfContent(r: Response, content: Content)
    requires HeadOk(r)
    ensures HeadOk(r.(content := content)) && WriteHead(r.(content := content)) == WriteHead(r)
  {
    hide JoinLines, Grammar.EndsAt, FieldOk, Declared;
    assert HeadLines(r.(content := content)) == HeadLines(r);
  }

  lemma {:induction false} MessagesShape(c: Config, ms: seq<Grammar.Message>) returns (rs: seq<Response>)
    requires Grammar.AllOk(c, ms)
    ensures AllResponsesOk(c, rs) && MessagesOf(c, rs) == ms
    decreases |ms|
  {
    hide Grammar.MessageOk, ResponseOk, MessageOf;
    if ms == [] {
      rs := [];
    } else {
      var first := MessageShape(c, ms[0]);
      var others := MessagesShape(c, ms[1..]);
      rs := [first] + others;
      assert rs[1..] == others;
      assert ms == [ms[0]] + ms[1..];
    }
  }

  predicate AllResponsesOk(c: Config, rs: seq<Response>) {
    forall i :: 0 <= i < |rs| ==> ResponseOk(c, rs[i])
  }

  /** Supported responses that print the stream and have these final statuses. */
  predicate PrintsAs(c: Config, rs: seq<Response>, input: Bytes, statuses: seq<nat>) {
    AllResponsesOk(c, rs) && WriteResponses(c, rs) == input && FinalStatuses(rs) == statuses
  }

  /**
    * The parser, given a stream from its initial state, ends between responses having reported some statuses exactly
    * when the stream is a printed list of supported responses with those final statuses.
    */
  lemma PrintedExactly(c: Config, input: Bytes, statuses: seq<nat>)
    ensures Grammar.AtBoundary(Push(c, INITIAL, input)) && Push(c, INITIAL, input).statuses == statuses
       <==> exists rs :: PrintsAs(c, rs, input, statuses)
  {
    hide Run, ResponseOk, Grammar.AllOk, Grammar.WriteAll;
    assert INITIAL.pending + input == input;
    if Grammar.AtBoundary(Push(c, INITIAL, input)) && Push(c, INITIAL, input).statuses == statuses {
      var ms := Grammar.ParseMessages(c, INITIAL, input);
      var rs := MessagesShape(c, ms);
      AllRead(c, rs);
      assert PrintsAs(c, rs, input, statuses);
    }
    forall rs | PrintsAs(c, rs, input, statuses)
      ensures Grammar.AtBoundary(Push(c, INITIAL, input)) && Push(c, INITIAL, input).statuses == statuses
    {
      AllRead(c, rs);
      Grammar.ReadMessages(c, INITIAL, MessagesOf(c, rs));
    }
  }
}
