/**
  * Printed responses: status lines, field lines, lengths and chunk sizes as a server writes them, and the proof
  * that the parser reads every list of them back.
  */
module ResponsePrinter {
  import opened Basics
  import opened Bytes
  import opened ResponseHeaders
  import opened LengthTexts
  import opened ResponseStream
  import Grammar = ResponseGrammar
  import Fragmentation

  /** White space around a list member. */
  datatype Pad = Pad(left: Bytes, right: Bytes)

  datatype Field =
    | Other(name: Bytes, value: Bytes)
    /** A Content-Length list that repeats one number. */
    | Length(name: Bytes, n: nat, outer: Pad, inner: seq<Pad>)
    /** A Transfer-Encoding list: what comes before its last member, and that member with the whitespace around it. */
    | Coding(name: Bytes, others: Bytes, pad: Pad, token: Bytes)

  /** The size line may have leading zeros and letters in either case. */
  datatype PrintedChunk = PrintedChunk(data: Bytes, digits: Bytes, pad: Pad, extension: Bytes)

  datatype Content =
    | Nothing
    | Data(data: Bytes)
    | Chunks(chunks: seq<PrintedChunk>, last: PrintedChunk, trailers: seq<Bytes>)

  datatype Response = Response(minor: nat, status: nat, reason: Option<Bytes>, fields: seq<Field>, content: Content)

  // ---------------------------------------------------------------- field lines

  function LengthPart(n: nat, pad: Pad): Bytes {
    pad.left + Print(n, 10, false) + pad.right
  }

  function LengthParts(n: nat, inner: seq<Pad>): (parts: seq<Bytes>)
    ensures |parts| == |inner|
  {
    seq(|inner|, i requires 0 <= i < |inner| => LengthPart(n, inner[i]))
  }

  function LengthList(n: nat, inner: seq<Pad>): Bytes {
    Join(LengthParts(n, inner), COMMA)
  }

  /** What follows the colon of a field line. */
  function FieldText(f: Field): Bytes {
    match f
    case Other(_, value) => value
    case Length(_, n, outer, inner) => outer.left + LengthList(n, inner) + outer.right
    case Coding(_, others, pad, token) => others + (pad.left + token + pad.right)
  }

  function WriteField(f: Field): Bytes {
    f.name + [COLON] + FieldText(f)
  }

  predicate PadOk(pad: Pad) {
    AllWhitespace(pad.left) && AllWhitespace(pad.right)
  }

  predicate FieldOk(f: Field) {
    && f.name != [] && COLON !in f.name
    && Grammar.EndsAt(WriteField(f), CRLF)
    && match f
       case Other(name, _) =>
         !EqualsIgnoreCase(Trim(name), CONTENT_LENGTH) && !EqualsIgnoreCase(Trim(name), TRANSFER_ENCODING)
       case Length(name, n, outer, inner) =>
         && EqualsIgnoreCase(Trim(name), CONTENT_LENGTH) && n <= MAX_SAFE_INTEGER
         && PadOk(outer) && inner != [] && inner[0].left == [] && inner[|inner| - 1].right == []
         && forall i :: 0 <= i < |inner| ==> PadOk(inner[i])
       case Coding(name, others, pad, token) =>
         && !EqualsIgnoreCase(Trim(name), CONTENT_LENGTH) && EqualsIgnoreCase(Trim(name), TRANSFER_ENCODING)
         && PadOk(pad) && TokenOk(token) && (others != [] ==> others[|others| - 1] == COMMA)
  }

  /** A list member: no separator in it and no whitespace at its ends; it may be empty. */
  predicate TokenOk(token: Bytes) {
    && COMMA !in token
    && (token != [] ==> !IsOptionalWhitespace(token[0]) && !IsOptionalWhitespace(token[|token| - 1]))
  }

  /** What one field adds; a length may only repeat the earlier one, and the last coding decides. */
  function DeclaredBy(f: Field, before: Fields): Option<Fields> {
    match f
    case Other(_, _) => Some(before)
    case Length(_, n, _, _) =>
      if before.contentLength == None || before.contentLength == Some(n)
      then Some(before.(contentLength := Some(n))) else None
    case Coding(_, _, _, token) =>
      Some(before.(transferEncoding := true, chunked := EqualsIgnoreCase(token, CHUNKED)))
  }

  /** What a list of fields says about the body. */
  function Declared(fields: seq<Field>, before: Fields): Option<Fields>
  {
    if fields == [] then Some(before)
    else
      match DeclaredBy(fields[0], before)
      case None => None
      case Some(next) => Declared(fields[1..], next)
  }

  lemma LengthPartIs(n: nat, pad: Pad)
    requires PadOk(pad)
    ensures Trim(LengthPart(n, pad)) == Print(n, 10, false)
    ensures COMMA !in LengthPart(n, pad)
    ensures pad.left == [] ==> !IsOptionalWhitespace(LengthPart(n, pad)[0])
    ensures pad.right == [] ==> !IsOptionalWhitespace(LengthPart(n, pad)[|LengthPart(n, pad)| - 1])
  {
    hide Trim, Numeral;
    var digits := Print(n, 10, false);
    PrintReads(n, 10, false);
    TrimPadded(pad.left, digits, pad.right);
    assert digits[0] in digits && digits[|digits| - 1] in digits;
    assert pad.right == [] ==> LengthPart(n, pad)[|LengthPart(n, pad)| - 1] == digits[|digits| - 1];
  }

  lemma {:induction false} JoinEnds(parts: seq<Bytes>, separator: Byte)
    requires parts != [] && parts[0] != [] && parts[|parts| - 1] != []
    ensures var s := Join(parts, separator);
            var last := parts[|parts| - 1];
            s != [] && s[0] == parts[0][0] && s[|s| - 1] == last[|last| - 1]
  {
    if |parts| > 1 {
      if parts[1] != [] {
        JoinEnds(parts[1..], separator);
      } else {
        JoinLast(parts[1..], separator);
      }
    }
  }

  lemma {:induction false} JoinLast(parts: seq<Bytes>, separator: Byte)
    requires parts != [] && parts[|parts| - 1] != []
    ensures var s := Join(parts, separator);
            var last := parts[|parts| - 1];
            s != [] && s[|s| - 1] == last[|last| - 1]
  {
    if |parts| > 1 {
      JoinLast(parts[1..], separator);
    }
  }

  lemma LengthFieldReads(f: Field, before: Fields)
    requires f.Length? && FieldOk(f)
    requires before.contentLength == None || before.contentLength == Some(f.n)
    ensures ParseContentLength(Trim(FieldText(f)), before.contentLength) == Ok(f.n)
  {
    hide Trim, ParseContentLength, Split, Join, EqualsIgnoreCase, Grammar.EndsAt, Numeral, IsDecimal, LengthPart;
    var parts := LengthParts(f.n, f.inner);
    forall i | 0 <= i < |parts|
      ensures COMMA !in parts[i] && Trim(parts[i]) == Print(f.n, 10, false)
    {
      LengthPartIs(f.n, f.inner[i]);
    }
    PrintReads(f.n, 10, false);
    JoinSplit(parts, COMMA);
    assert AllAre(parts, f.n);
    ContentLengthExact(LengthList(f.n, f.inner), before.contentLength, f.n);
    LengthPartIs(f.n, f.inner[0]);
    LengthPartIs(f.n, f.inner[|f.inner| - 1]);
    TrimEmpty();
    JoinEnds(parts, COMMA);
    TrimPadded(f.outer.left, LengthList(f.n, f.inner), f.outer.right);
  }

  lemma TrimEmpty()
    ensures Trim([]) == []
  {
  }

  lemma CodingFieldReads(f: Field)
    requires f.Coding? && FieldOk(f)
    ensures LastToken(Trim(FieldText(f))) == f.token
  {
    hide Trim, Split, EqualsIgnoreCase, Grammar.EndsAt;
    var last := f.pad.left + f.token + f.pad.right;
    TrimPadded(f.pad.left, f.token, f.pad.right);
    if f.others == [] {
      assert f.others + last == last;
      JoinSplit([f.token], COMMA);
      assert Join([f.token], COMMA) == f.token;
      TrimPadded([], f.token, []);
      assert [] + f.token + [] == f.token;
    } else {
      var front := f.others[..|f.others| - 1];
      assert f.others + last == front + [COMMA] + last;
      TrimBehindComma(front, last);
      LastMemberTrimmed(f);
      assert COMMA !in TrimRight(last);
      SplitLast(TrimLeft(front), COMMA, TrimRight(last));
    }
  }

  lemma TrimBehindComma(front: Bytes, last: Bytes)
    ensures Trim(front + [COMMA] + last) == TrimLeft(front) + [COMMA] + TrimRight(last)
  {
    hide TrimLeft, TrimRight;
    TrimLeftUpTo(front, COMMA, last);
    TrimRightDownTo(TrimLeft(front), COMMA, last);
  }

  lemma LastMemberTrimmed(f: Field)
    requires f.Coding? && PadOk(f.pad) && TokenOk(f.token)
    ensures Trim(TrimRight(f.pad.left + f.token + f.pad.right)) == f.token
  {
    hide TrimLeft, TrimRight, Trim;
    var last := f.pad.left + f.token + f.pad.right;
    if f.token == [] {
      assert AllWhitespace(last);
      TrimAllWhitespace(TrimRight(last));
    } else {
      TrimRightPadded(f.pad.left + f.token, f.pad.right);
      TrimPadded(f.pad.left, f.token, []);
      assert f.pad.left + f.token + [] == f.pad.left + f.token;
    }
  }

  lemma FieldCut(f: Field)
    requires FieldOk(f)
    ensures var line := WriteField(f);
            && Find(line, [COLON]) == |f.name| > 0
            && |line| > |f.name|
            && line[..|f.name|] == f.name && line[|f.name| + 1..] == FieldText(f)
  {
    hide Find, IndexOf, MatchAt, Trim, EqualsIgnoreCase, Grammar.EndsAt, FieldText;
    assert WriteField(f) == f.name + ([COLON] + FieldText(f));
    FindAfter(f.name, COLON, [COLON] + FieldText(f));
  }

  lemma FieldReads(f: Field, before: Fields)
    requires FieldOk(f)
    requires DeclaredBy(f, before).Some?
    ensures ReadField(WriteField(f), before) == Ok(DeclaredBy(f, before).value)
  {
    hide Find, IndexOf, MatchAt, Trim, EqualsIgnoreCase, Grammar.EndsAt, ParseContentLength, FieldText, LastToken,
      WriteField;
    FieldCut(f);
    match f {
      case Other(_, _) =>
      case Length(_, _, _, _) =>
        LengthFieldReads(f, before);
      case Coding(_, _, _, _) =>
        CodingFieldReads(f);
    }
  }

  function WriteFields(fields: seq<Field>): (lines: seq<Bytes>)
    ensures |lines| == |fields|
    ensures forall i :: 0 <= i < |lines| ==> lines[i] == WriteField(fields[i])
  {
    if fields == [] then [] else [WriteField(fields[0])] + WriteFields(fields[1..])
  }

  lemma {:induction false} FieldsRead(fields: seq<Field>, before: Fields)
    requires forall i :: 0 <= i < |fields| ==> FieldOk(fields[i])
    requires Declared(fields, before).Some?
    ensures ReadFields(WriteFields(fields), before) == Ok(Declared(fields, before).value)
  {
    hide FieldOk, ReadField, WriteField;
    if fields != [] {
      FieldReads(fields[0], before);
      FieldsRead(fields[1..], DeclaredBy(fields[0], before).value);
      assert WriteFields(fields)[1..] == WriteFields(fields[1..]);
    }
  }

  // ---------------------------------------------------------------- header block

  function Digits3(n: nat): Bytes
    requires n < 1000
  {
    [48 + n / 100, 48 + (n / 10) % 10, 48 + n % 10]
  }

  function WriteStatusLine(r: Response): Bytes
    requires r.minor < 2 && r.status < 1000
  {
    [72, 84, 84, 80, 47, 49, 46, 48 + r.minor, 32] + Digits3(r.status)
    + if r.reason.Some? then [32] + r.reason.value else []
  }

  lemma StatusLineReads(r: Response)
    requires r.minor < 2 && 100 <= r.status <= 599
    ensures IsStatusLine(WriteStatusLine(r)) && StatusOf(WriteStatusLine(r)) == r.status
  {
    var n := r.status;
    assert (n / 100) * 100 + (n / 10 % 10) * 10 + n % 10 == n;
    assert WriteStatusLine(r)[..7] == [72, 84, 84, 80, 47, 49, 46];
  }

  function JoinLines(lines: seq<Bytes>): Bytes
    requires lines != []
  {
    if |lines| == 1 then lines[0] else lines[0] + CRLF + JoinLines(lines[1..])
  }

  predicate LineOk(line: Bytes) {
    line != [] && Grammar.EndsAt(line, CRLF)
  }

  predicate LinesOk(lines: seq<Bytes>) {
    forall i :: 0 <= i < |lines| ==> LineOk(lines[i])
  }

  lemma {:induction false} LinesJoined(lines: seq<Bytes>)
    requires lines != [] && LinesOk(lines)
    ensures Lines(JoinLines(lines)) == lines
    decreases |lines|
  {
    hide Find, IndexOf;
    assert LineOk(lines[0]);
    var block := JoinLines(lines);
    if |lines| == 1 {
      FindAppend(lines[0], CRLF, CRLF);
      assert Find(block, CRLF) == -1;
    } else {
      var more := JoinLines(lines[1..]);
      Grammar.FindMark(lines[0], CRLF, more);
      LinesJoined(lines[1..]);
    }
  }

  /** A block of non-empty lines contains no empty line, so its end mark is found where it was written. */
  lemma {:induction false} BlockEnds(lines: seq<Bytes>)
    requires lines != [] && LinesOk(lines)
    ensures Grammar.EndsAt(JoinLines(lines), HEADER_END)
    decreases |lines|
  {
    hide Find, IndexOf;
    assert LineOk(lines[0]);
    var line := lines[0];
    var s := JoinLines(lines) + HEADER_END;
    var more := if |lines| == 1 then CRLF else JoinLines(lines[1..]) + HEADER_END;
    assert s == line + CRLF + more;
    Grammar.FindMark(line, CRLF, more);
    NotBefore(s, |line|);
    if |lines| == 1 {
      assert s == line + HEADER_END;
      assert s[|line|..|line| + 4] == HEADER_END;
      FindIs(s, HEADER_END, |line|);
    } else {
      BlockEnds(lines[1..]);
      assert LineOk(lines[1]);
      StartsWithoutMark(lines[1..]);
      AfterLine(s, line, more);
    }
  }

  lemma TwoLineEnds(s: Bytes, i: nat)
    requires MatchAt(s, HEADER_END, i)
    ensures s[i] == CR && MatchAt(s, CRLF, i) && MatchAt(s, CRLF, i + 2)
  {
    assert s[i] == s[i..i + 4][0];
    assert s[i..i + 2] == s[i..i + 4][..2];
    assert s[i + 2..i + 4] == s[i..i + 4][2..];
  }

  /** No header end starts before the first line end. */
  lemma NotBefore(s: Bytes, k: nat)
    requires Find(s, CRLF) == k
    ensures forall i :: 0 <= i < k ==> !MatchAt(s, HEADER_END, i)
  {
    forall i | 0 <= i < k
      ensures !MatchAt(s, HEADER_END, i)
    {
      assert !MatchAt(s, CRLF, i);
      if MatchAt(s, HEADER_END, i) {
        TwoLineEnds(s, i);
      }
    }
  }

  lemma StartsWithoutMark(lines: seq<Bytes>)
    requires lines != [] && LinesOk(lines)
    ensures !MatchAt(JoinLines(lines) + HEADER_END, CRLF, 0)
  {
    hide IndexOf;
    assert LineOk(lines[0]);
    var more := if |lines| == 1 then CRLF else JoinLines(lines[1..]) + HEADER_END;
    assert JoinLines(lines) + HEADER_END == lines[0] + CRLF + more;
    Grammar.FindMark(lines[0], CRLF, more);
  }

  lemma AfterLine(s: Bytes, line: Bytes, more: Bytes)
    requires s == line + CRLF + more
    requires Find(s, CRLF) == |line| && !MatchAt(more, CRLF, 0)
    requires Find(more, HEADER_END) != -1
    ensures Find(s, HEADER_END) == |line| + 2 + Find(more, HEADER_END)
  {
    hide IndexOf;
    NotBefore(s, |line|);
    var k := |line| + 2;
    assert s[k..] == more;
    IndexOfShift(s, HEADER_END, k);
    var end := k + Find(more, HEADER_END);
    assert s[|line| + 1] == LF;
    forall i | 0 <= i < end
      ensures !MatchAt(s, HEADER_END, i)
    {
      if i == |line| && MatchAt(s, HEADER_END, i) {
        assert s[i + 2..i + 4] == more[0..2];
        TwoLineEnds(s, i);
      }
      if i == |line| + 1 && MatchAt(s, HEADER_END, i) {
        TwoLineEnds(s, i);
      }
    }
    FindIs(s, HEADER_END, end);
  }

  function HeadLines(r: Response): seq<Bytes>
    requires r.minor < 2 && r.status < 1000
  {
    [WriteStatusLine(r)] + WriteFields(r.fields)
  }

  function WriteHead(r: Response): Bytes
    requires r.minor < 2 && r.status < 1000
  {
    JoinLines(HeadLines(r))
  }

  predicate HeadOk(r: Response) {
    && r.minor < 2 && 100 <= r.status <= 599
    && Grammar.EndsAt(WriteStatusLine(r), CRLF)
    && (forall i :: 0 <= i < |r.fields| ==> FieldOk(r.fields[i]))
    && Declared(r.fields, NO_FIELDS).Some?
  }

  /** A printed header block means what its status and fields declare. */
  lemma HeadReads(r: Response, requestMethod: string)
    requires HeadOk(r)
    ensures Grammar.EndsAt(WriteHead(r), HEADER_END)
    ensures ParseHeaders(WriteHead(r), requestMethod)
         == Decide(r.status, Declared(r.fields, NO_FIELDS).value, requestMethod)
  {
    hide Grammar.EndsAt, Lines, Declared, ReadFields, IsStatusLine, StatusOf, Trim, EqualsIgnoreCase, Decide;
    var lines := HeadLines(r);
    assert LinesOk(lines) by {
      assert LineOk(WriteStatusLine(r));
      forall i | 0 < i < |lines|
        ensures LineOk(lines[i])
      {
        assert FieldOk(r.fields[i - 1]);
        assert lines[i] == WriteField(r.fields[i - 1]);
      }
    }
    LinesJoined(lines);
    BlockEnds(lines);
    StatusLineReads(r);
    FieldsRead(r.fields, NO_FIELDS);
    assert lines[1..] == WriteFields(r.fields);
  }

  // ---------------------------------------------------------------- whole responses

  function SizeLine(chunk: PrintedChunk): Bytes {
    chunk.pad.left + chunk.digits + chunk.pad.right + chunk.extension
  }

  predicate ChunkLineOk(chunk: PrintedChunk) {
    && |chunk.data| <= MAX_SAFE_INTEGER && IsHexNumeral(chunk.digits, |chunk.data|) && PadOk(chunk.pad)
    && (chunk.extension == [] || chunk.extension[0] == SEMICOLON)
    && Grammar.EndsAt(SizeLine(chunk), CRLF)
  }

  function ChunksOf(chunks: seq<PrintedChunk>): seq<Grammar.Chunk> {
    seq(|chunks|, i requires 0 <= i < |chunks| => Grammar.Chunk(SizeLine(chunks[i]), chunks[i].data))
  }

  /** The body of a response as it follows the header block; nothing when the status or method allows none. */
  function BodyOf(c: Config, r: Response): Grammar.Body {
    if HasNoBody(r.status, c.requestMethod) then Grammar.Empty
    else
      match r.content
      case Nothing => Grammar.Empty
      case Data(data) => if data == [] then Grammar.Empty else Grammar.Fixed(data)
      case Chunks(chunks, last, trailers) => Grammar.Chunked(ChunksOf(chunks), SizeLine(last), trailers)
  }

  predicate ContentOk(c: Config, fields: Fields, content: Content) {
    match content
    case Nothing => false
    case Data(data) => !fields.chunked && fields.contentLength == Some(|data|)
    case Chunks(chunks, last, trailers) =>
      && fields.chunked
      && (forall i :: 0 <= i < |chunks| ==> ChunkLineOk(chunks[i]) && chunks[i].data != [])
      && ChunkLineOk(last) && last.data == []
      && Grammar.TrailersOk(c, trailers, 0)
  }

  /** A response the parser supports: not an upgrade, one framing, and a body that the framing describes. */
  predicate ResponseOk(c: Config, r: Response) {
    && HeadOk(r) && r.status != 101
    && |WriteHead(r)| <= c.maxHeaderBytes
    && var fields := Declared(r.fields, NO_FIELDS).value;
       !(fields.chunked && fields.contentLength.Some?) && (fields.transferEncoding ==> fields.chunked)
       && (!HasNoBody(r.status, c.requestMethod) ==> ContentOk(c, fields, r.content))
  }

  function MessageOf(c: Config, r: Response): Grammar.Message
    requires ResponseOk(c, r)
  {
    if r.status < 200 then Grammar.Interim(WriteHead(r)) else Grammar.Final(WriteHead(r), BodyOf(c, r))
  }

  lemma ChunkedBodyOk(c: Config, r: Response)
    requires r.content.Chunks?
    requires forall i :: 0 <= i < |r.content.chunks| ==>
               ChunkLineOk(r.content.chunks[i]) && r.content.chunks[i].data != []
    requires ChunkLineOk(r.content.last) && r.content.last.data == []
    requires Grammar.TrailersOk(c, r.content.trailers, 0)
    ensures Grammar.ChunkedOk(
              c, Grammar.Chunked(ChunksOf(r.content.chunks), SizeLine(r.content.last), r.content.trailers))
  {
    hide Grammar.EndsAt, ParseChunkSize, Grammar.TrailersOk;
    var last := r.content.last;
    ChunkSizeReads(last.digits, |last.data|, last.pad.left, last.pad.right, last.extension);
    var chunks := ChunksOf(r.content.chunks);
    forall i | 0 <= i < |chunks|
      ensures Grammar.ChunkOk(chunks[i])
    {
      var chunk := r.content.chunks[i];
      ChunkSizeReads(chunk.digits, |chunk.data|, chunk.pad.left, chunk.pad.right, chunk.extension);
    }
  }

  lemma MessageReads(c: Config, r: Response)
    requires ResponseOk(c, r)
    ensures Grammar.MessageOk(c, MessageOf(c, r))
    ensures Grammar.Reported(c, MessageOf(c, r)) == if r.status < 200 then [] else [r.status]
  {
    hide Grammar.EndsAt, ParseHeaders, ChunkLineOk, SizeLine, Grammar.TrailersOk, WriteHead, Declared, FieldOk,
      Grammar.ChunkedOk;
    HeadReads(r, c.requestMethod);
    if r.content.Chunks? && !HasNoBody(r.status, c.requestMethod) {
      ChunkedBodyOk(c, r);
    }
  }

  function MessagesOf(c: Config, rs: seq<Response>): (ms: seq<Grammar.Message>)
    requires forall i :: 0 <= i < |rs| ==> ResponseOk(c, rs[i])
    ensures |ms| == |rs| && forall i :: 0 <= i < |ms| ==> ms[i] == MessageOf(c, rs[i])
  {
    if rs == [] then [] else [MessageOf(c, rs[0])] + MessagesOf(c, rs[1..])
  }

  /** The bytes on the wire. */
  function WriteResponses(c: Config, rs: seq<Response>): Bytes
    requires forall i :: 0 <= i < |rs| ==> ResponseOk(c, rs[i])
  {
    Grammar.WriteAll(MessagesOf(c, rs))
  }

  function FinalStatuses(rs: seq<Response>): seq<nat> {
    if rs == [] then []
    else (if rs[0].status < 200 then [] else [rs[0].status]) + FinalStatuses(rs[1..])
  }

  lemma {:induction false} AllRead(c: Config, rs: seq<Response>)
    requires forall i :: 0 <= i < |rs| ==> ResponseOk(c, rs[i])
    ensures Grammar.AllOk(c, MessagesOf(c, rs))
    ensures Grammar.AllReported(c, MessagesOf(c, rs)) == FinalStatuses(rs)
  {
    hide ResponseOk, Grammar.MessageOk, MessageOf, Grammar.Reported;
    if rs != [] {
      MessageReads(c, rs[0]);
      AllRead(c, rs[1..]);
      var ms := MessagesOf(c, rs);
      assert ms[0] == MessageOf(c, rs[0]) && ms[1..] == MessagesOf(c, rs[1..]);
      forall i | 0 <= i < |ms|
        ensures Grammar.MessageOk(c, ms[i])
      {
        if i > 0 {
          assert ms[i] == ms[1..][i - 1];
        }
      }
    }
  }

  predicate LinesFit(c: Config, chunks: seq<PrintedChunk>) {
    forall i :: 0 <= i < |chunks| ==> Grammar.SizeLineFits(c, SizeLine(chunks[i]))
  }

  /** The printed header block, and the size lines of a chunked body that is sent, leave room for cut line ends. */
  predicate ResponseFits(c: Config, r: Response)
    requires HeadOk(r)
  {
    && |WriteHead(r)| + 3 <= c.maxHeaderBytes
    && (r.content.Chunks? && !HasNoBody(r.status, c.requestMethod) ==>
          LinesFit(c, r.content.chunks) && Grammar.SizeLineFits(c, SizeLine(r.content.last)))
  }

  lemma ResponseFitsExactly(c: Config, r: Response)
    requires ResponseOk(c, r)
    ensures Grammar.MessageFits(c, MessageOf(c, r)) <==> ResponseFits(c, r)
  {
    hide Grammar.EndsAt, SizeLine, WriteHead, Declared, FieldOk, ContentOk, LinesFit, Grammar.SizeLinesFit;
    if r.content.Chunks? {
      LinesFitExactly(c, r.content.chunks);
    }
  }

  lemma LinesFitExactly(c: Config, chunks: seq<PrintedChunk>)
    ensures Grammar.SizeLinesFit(c, ChunksOf(chunks)) <==> LinesFit(c, chunks)
  {
    hide SizeLine;
    var written := ChunksOf(chunks);
    forall i | 0 <= i < |chunks|
      ensures written[i].sizeLine == SizeLine(chunks[i])
    {
    }
  }

  /** Exactly when no way of cutting printed responses throws: each of them leaves room. */
  lemma PrintedCutExactly(c: Config, rs: seq<Response>)
    requires forall i :: 0 <= i < |rs| ==> ResponseOk(c, rs[i])
    ensures Fragmentation.EveryCutAccepted(c, WriteResponses(c, rs))
       <==> forall i :: 0 <= i < |rs| ==> ResponseFits(c, rs[i])
  {
    hide HeadOk, ContentOk, Declared, ResponseFits, MessageOf, Grammar.WriteAll, Grammar.MessageFits, Grammar.AllOk,
      Fragmentation.EveryCutAccepted;
    AllRead(c, rs);
    var ms := MessagesOf(c, rs);
    Grammar.MessagesCutExactly(c, ms);
    forall i | 0 <= i < |rs|
      ensures Grammar.MessageFits(c, ms[i]) <==> ResponseFits(c, rs[i])
    {
      ResponseFitsExactly(c, rs[i]);
    }
  }

  /**
    * Print and parse: any list of supported responses, pushed in any pieces, reports exactly the final statuses in
    * order and ends between responses with nothing retained, unless a push throws, and then it reported a prefix;
    * no push throws when each response leaves room for the line ends that a cut may retain.
    */
  lemma ResponsesRoundTrip(c: Config, rs: seq<Response>, chunks: seq<Bytes>)
    requires forall i :: 0 <= i < |rs| ==> ResponseOk(c, rs[i])
    requires chunks != [] && Concat(chunks) == WriteResponses(c, rs)
    ensures var whole := Push(c, INITIAL, WriteResponses(c, rs));
            Grammar.AtBoundary(whole) && whole.statuses == FinalStatuses(rs)
    ensures var split := Fragmentation.PushAll(c, INITIAL, chunks);
            if split.error.None? then Grammar.AtBoundary(split) && split.statuses == FinalStatuses(rs)
            else split.statuses <= FinalStatuses(rs)
    ensures (forall i :: 0 <= i < |rs| ==> ResponseFits(c, rs[i])) ==>
              Fragmentation.PushAll(c, INITIAL, chunks).error.None?
  {
    hide ResponseOk, ResponseFits, Run, Grammar.WriteAll;
    AllRead(c, rs);
    var ms := MessagesOf(c, rs);
    Grammar.ReadMessages(c, INITIAL, ms);
    assert INITIAL.pending + WriteResponses(c, rs) == WriteResponses(c, rs);
    Fragmentation.FragmentationInvariance(c, INITIAL, chunks);
    PrintedCutExactly(c, rs);
  }
}
