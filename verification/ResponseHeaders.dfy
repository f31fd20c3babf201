/**
  * What one response header block, one Content-Length value and one chunk-size line mean
  * (src/load/http1/response-parser.ts:214-489), as functions of the bytes.
  */
module ResponseHeaders {
  import opened Basics
  import opened Bytes

  datatype ParseError =
    | InvalidStatusLine
    | InvalidHeader
    | InvalidContentLength
    | UnsupportedTransferEncoding
    | BothFramings
    | UpgradeNotSupported
    | CloseDelimited
    | InvalidChunkSize
    | UnsafeChunkSize
    | MissingChunkEnd
    | HeadersExceed
    | ChunkSizeExceed
    | TrailersExceed

  /** `bodyLength` is None where the source stores null. */
  datatype Framing = Framing(statusCode: nat, informational: bool, chunked: bool, bodyLength: Option<nat>)

  /** What the field lines read so far have said about the body. */
  datatype Fields = Fields(contentLength: Option<nat>, transferEncoding: bool, chunked: bool)

  const NO_FIELDS := Fields(None, false, false)
  const CONTENT_LENGTH: Bytes := [99, 111, 110, 116, 101, 110, 116, 45, 108, 101, 110, 103, 116, 104]
  const TRANSFER_ENCODING: Bytes :=
    [116, 114, 97, 110, 115, 102, 101, 114, 45, 101, 110, 99, 111, 100, 105, 110, 103]
  const CHUNKED: Bytes := [99, 104, 117, 110, 107, 101, 100]
  const COMMA: Byte := 44
  const COLON: Byte := 58
  const SEMICOLON: Byte := 59

  // ---------------------------------------------------------------- numbers

  predicate IsDigit(b: Byte) {
    48 <= b <= 57
  }

  function Digit(b: Byte): int {
    b as int - 48
  }

  /** The value of a hexadecimal digit in either case, or -1. */
  function HexDigit(b: Byte): (r: int)
    ensures -1 <= r < 16
  {
    if 48 <= b <= 57 then b - 48
    else if 65 <= b <= 70 then b - 55
    else if 97 <= b <= 102 then b - 87
    else -1
  }

  /** Reads decimal digits after `seen`, refusing any byte or step that leaves the safe integers. */
  function ReadDecimal(digits: Bytes, seen: nat): Option<nat>
  {
    if digits == [] then Some(seen)
    else if !IsDigit(digits[0]) || seen * 10 > MAX_SAFE_INTEGER - (digits[0] - 48) then None
    else ReadDecimal(digits[1..], seen * 10 + (digits[0] - 48))
  }

  /** One member of a Content-Length list, already trimmed. */
  function ReadLength(part: Bytes): Option<nat> {
    if part == [] || (|part| > 1 && part[0] == 48) then None else ReadDecimal(part, 0)
  }

  /** All members of the list must read as one number, which must also be the earlier header's. */
  function CombineLengths(parts: seq<Bytes>, previous: Option<nat>): Option<nat>
  {
    if parts == [] then previous
    else
      match ReadLength(Trim(parts[0]))
      case None => None
      case Some(n) =>
        if previous.Some? && previous.value != n then None else CombineLengths(parts[1..], Some(n))
  }

  function ParseContentLength(value: Bytes, previous: Option<nat>): Result<nat, ParseError> {
    match CombineLengths(Split(value, COMMA), previous)
    case None => Err(InvalidContentLength)
    case Some(n) => Ok(n)
  }

  function ReadHex(digits: Bytes, seen: nat): Result<nat, ParseError>
  {
    if digits == [] then Ok(seen)
    else
      var digit := HexDigit(digits[0]);
      if digit == -1 then Err(InvalidChunkSize)
      else if seen * 16 > MAX_SAFE_INTEGER - digit then Err(UnsafeChunkSize)
      else ReadHex(digits[1..], seen * 16 + digit)
  }

  /** The text before an extension, without the whitespace around it. */
  function ChunkSizeText(line: Bytes): Bytes {
    var extension := Find(line, [SEMICOLON]);
    Trim(if extension == -1 then line else line[..extension])
  }

  function ParseChunkSize(line: Bytes): Result<nat, ParseError> {
    var text := ChunkSizeText(line);
    if text == [] then Err(InvalidChunkSize) else ReadHex(text, 0)
  }

  // ---------------------------------------------------------------- header block

  /** The lines of a block; a final line end adds no empty line. */
  function Lines(block: Bytes): seq<Bytes>
    decreases |block|
  {
    if block == [] then []
    else
      var k := Find(block, CRLF);
      if k == -1 then [block] else [block[..k]] + Lines(block[k + 2..])
  }

  /** `HTTP/1.0` or `HTTP/1.1`, a space, three digits, and then nothing or a space. */
  predicate IsStatusLine(line: Bytes)
    ensures IsStatusLine(line) ==> |line| >= 12 && 100 <= StatusOf(line) <= 599
  {
    && |line| >= 12
    && line[..7] == [72, 84, 84, 80, 47, 49, 46]
    && (line[7] == 48 || line[7] == 49)
    && line[8] == 32
    && IsDigit(line[9]) && IsDigit(line[10]) && IsDigit(line[11])
    && (|line| > 12 ==> line[12] == 32)
    && 100 <= StatusOf(line) <= 599
  }

  function StatusOf(line: Bytes): int
    requires |line| >= 12
  {
    Digit(line[9]) * 100 + Digit(line[10]) * 10 + Digit(line[11])
  }

  function LastToken(value: Bytes): Bytes {
    var parts := Split(value, COMMA);
    Trim(parts[|parts| - 1])
  }

  function ReadField(line: Bytes, fields: Fields): Result<Fields, ParseError> {
    var separator := Find(line, [COLON]);
    if separator <= 0 then Err(InvalidHeader)
    else
      var name := Trim(line[..separator]);
      var value := Trim(line[separator + 1..]);
      if EqualsIgnoreCase(name, CONTENT_LENGTH) then
        match ParseContentLength(value, fields.contentLength)
        case Err(e) => Err(e)
        case Ok(n) => Ok(fields.(contentLength := Some(n)))
      else if EqualsIgnoreCase(name, TRANSFER_ENCODING) then
        Ok(fields.(transferEncoding := true, chunked := EqualsIgnoreCase(LastToken(value), CHUNKED)))
      else Ok(fields)
  }

  function ReadFields(lines: seq<Bytes>, fields: Fields): Result<Fields, ParseError>
  {
    if lines == [] then Ok(fields)
    else
      match ReadField(lines[0], fields)
      case Err(e) => Err(e)
      case Ok(next) => ReadFields(lines[1..], next)
  }

  const HEAD := "HEAD"

  predicate HasNoBody(statusCode: nat, requestMethod: string) {
    100 <= statusCode < 200 || requestMethod == HEAD || statusCode == 204 || statusCode == 304
  }

  /** Message framing in the order of section 6.3 of RFC 9112. */
  function Decide(statusCode: nat, fields: Fields, requestMethod: string): Result<Framing, ParseError> {
    var informational := 100 <= statusCode < 200;
    if fields.transferEncoding && !fields.chunked then Err(UnsupportedTransferEncoding)
    else if fields.chunked && fields.contentLength.Some? then Err(BothFramings)
    else if HasNoBody(statusCode, requestMethod) then Ok(Framing(statusCode, informational, false, Some(0)))
    else if fields.chunked then Ok(Framing(statusCode, informational, true, None))
    else Ok(Framing(statusCode, informational, false, fields.contentLength))
  }

  /** The bytes of the shortest status line, and so of the shortest header block that is accepted. */
  const SHORTEST_BLOCK := 12

  lemma FirstLineInBlock(block: Bytes)
    requires Lines(block) != []
    ensures |Lines(block)[0]| <= |block|
  {
  }

  function ParseHeaders(block: Bytes, requestMethod: string): (r: Result<Framing, ParseError>)
    ensures r.Ok? ==> 100 <= r.value.statusCode <= 599
    ensures r.Ok? ==> (r.value.informational <==> r.value.statusCode < 200)
    ensures r.Ok? && r.value.informational ==> r.value.bodyLength == Some(0)
    ensures r.Ok? ==> |block| >= SHORTEST_BLOCK
  {
    var lines := Lines(block);
    assert lines != [] ==> |lines[0]| <= |block| by {
      if lines != [] {
        FirstLineInBlock(block);
      }
    }
    if lines == [] || !IsStatusLine(lines[0]) then Err(InvalidStatusLine)
    else
      match ReadFields(lines[1..], NO_FIELDS)
      case Err(e) => Err(e)
      case Ok(fields) => Decide(StatusOf(lines[0]), fields, requestMethod)
  }
}
