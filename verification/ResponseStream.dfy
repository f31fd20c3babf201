/**
  * The parser's run over one chunk as a function of its old state and the bytes
  * (src/load/http1/response-parser.ts:38-211).
  */
module ResponseStream {
  import opened Basics
  import opened Bytes
  import opened ResponseHeaders

  datatype Mode = Headers | FixedBody | ChunkSize | ChunkData | ChunkDataEnd | Trailers

  datatype Config = Config(requestMethod: string, maxHeaderBytes: nat)

  /** The parser's fields. */
  datatype Parser = Parser(
    mode: Mode,
    pending: Bytes,
    bodyRemaining: nat,
    chunkRemaining: nat,
    statusCode: nat,
    trailerBytes: nat)

  const INITIAL := Parser(Headers, [], 0, 0, 0, 0)

  predicate InBody(mode: Mode) {
    mode == FixedBody || mode == ChunkData
  }

  /**
    * What every push keeps: a length counter is positive exactly inside its body, nothing is retained there, and
    * past the headers a final status is known.
    */
  predicate Valid(p: Parser) {
    && (p.mode == FixedBody <==> p.bodyRemaining > 0)
    && (p.mode == ChunkData <==> p.chunkRemaining > 0)
    && (InBody(p.mode) ==> p.pending == [])
    && (p.mode != Headers ==> 200 <= p.statusCode <= 599)
  }

  /** What a run reported, the fields it left, and the error it threw, if any. */
  datatype Outcome = Outcome(statuses: seq<nat>, parser: Parser, error: Option<ParseError>)

  /** One iteration of the loop over the unread input. */
  datatype Step =
    | Advance(consumed: nat, parser: Parser, reported: seq<nat>)
    | Keep(parser: Parser)
    | Fail(parser: Parser, error: ParseError)

  function Complete(p: Parser): Parser {
    p.(mode := Headers, bodyRemaining := 0, chunkRemaining := 0, statusCode := 0, trailerBytes := 0)
  }

  /** Each iteration consumes at least one byte, stays inside the input and reports only final statuses. */
  predicate Progress(p: Parser, rest: Bytes, s: Step) {
    && Valid(s.parser)
    && (s.Advance? ==> 0 < s.consumed <= |rest| && s.parser.pending == [])
    && (s.Advance? ==> forall i :: 0 <= i < |s.reported| ==> 200 <= s.reported[i] <= 599)
    && (s.Keep? ==> s.parser == p.(pending := rest))
    && (s.Fail? ==> s.parser.pending == [])
  }

  /** `#retain`: an incomplete unit waits for the next push unless it is already too long. */
  function Retain(c: Config, p: Parser, rest: Bytes, error: ParseError): Step {
    if |rest| > c.maxHeaderBytes then Fail(p, error) else Keep(p.(pending := rest))
  }

  function HeadersStep(c: Config, p: Parser, rest: Bytes): (s: Step)
    requires Valid(p) && p.pending == [] && rest != [] && p.mode == Headers
    ensures Progress(p, rest, s)
  {
    var end := Find(rest, HEADER_END);
    if end == -1 then Retain(c, p, rest, HeadersExceed)
    else if end > c.maxHeaderBytes then Fail(p, HeadersExceed)
    else
      match ParseHeaders(rest[..end], c.requestMethod)
      case Err(e) => Fail(p, e)
      case Ok(framing) =>
        var q := p.(statusCode := framing.statusCode);
        if framing.informational then
          if framing.statusCode == 101 then Fail(q, UpgradeNotSupported) else Advance(end + 4, q, [])
        else if framing.bodyLength == Some(0) then Advance(end + 4, Complete(q), [framing.statusCode])
        else if framing.chunked then Advance(end + 4, q.(mode := ChunkSize), [])
        else
          match framing.bodyLength
          case None => Fail(q, CloseDelimited)
          case Some(n) => Advance(end + 4, q.(mode := FixedBody, bodyRemaining := n), [])
  }

  function Min(a: nat, b: nat): nat {
    if a < b then a else b
  }

  function FixedBodyStep(p: Parser, rest: Bytes): (s: Step)
    requires Valid(p) && p.pending == [] && rest != [] && p.mode == FixedBody
    ensures Progress(p, rest, s)
  {
    var consumed := Min(p.bodyRemaining, |rest|);
    if consumed == p.bodyRemaining then Advance(consumed, Complete(p), [p.statusCode])
    else Advance(consumed, p.(bodyRemaining := p.bodyRemaining - consumed), [])
  }

  function ChunkSizeStep(c: Config, p: Parser, rest: Bytes): (s: Step)
    requires Valid(p) && p.pending == [] && rest != [] && p.mode == ChunkSize
    ensures Progress(p, rest, s)
  {
    var end := Find(rest, CRLF);
    if end == -1 then Retain(c, p, rest, ChunkSizeExceed)
    else
      match ParseChunkSize(rest[..end])
      case Err(e) => Fail(p, e)
      case Ok(n) =>
        if n == 0 then Advance(end + 2, p.(mode := Trailers, chunkRemaining := 0, trailerBytes := 0), [])
        else Advance(end + 2, p.(mode := ChunkData, chunkRemaining := n), [])
  }

  function ChunkDataStep(p: Parser, rest: Bytes): (s: Step)
    requires Valid(p) && p.pending == [] && rest != [] && p.mode == ChunkData
    ensures Progress(p, rest, s)
  {
    var consumed := Min(p.chunkRemaining, |rest|);
    var q := p.(chunkRemaining := p.chunkRemaining - consumed);
    Advance(consumed, if q.chunkRemaining == 0 then q.(mode := ChunkDataEnd) else q, [])
  }

  function ChunkDataEndStep(p: Parser, rest: Bytes): (s: Step)
    requires Valid(p) && p.pending == [] && rest != [] && p.mode == ChunkDataEnd
    ensures Progress(p, rest, s)
  {
    if |rest| < 2 then Keep(p.(pending := rest))
    else if rest[..2] != CRLF then Fail(p, MissingChunkEnd)
    else Advance(2, p.(mode := ChunkSize), [])
  }

  function TrailersStep(c: Config, p: Parser, rest: Bytes): (s: Step)
    requires Valid(p) && p.pending == [] && rest != [] && p.mode == Trailers
    ensures Progress(p, rest, s)
  {
    var end := Find(rest, CRLF);
    if end == -1 then Retain(c, p, rest, TrailersExceed)
    else if end == 0 then Advance(2, Complete(p), [p.statusCode])
    else
      var q := p.(trailerBytes := p.trailerBytes + end + 2);
      if q.trailerBytes > c.maxHeaderBytes then Fail(q, TrailersExceed) else Advance(end + 2, q, [])
  }

  function StepOf(c: Config, p: Parser, rest: Bytes): (s: Step)
    requires Valid(p) && p.pending == [] && rest != []
    ensures Progress(p, rest, s)
  {
    match p.mode
    case Headers => HeadersStep(c, p, rest)
    case FixedBody => FixedBodyStep(p, rest)
    case ChunkSize => ChunkSizeStep(c, p, rest)
    case ChunkData => ChunkDataStep(p, rest)
    case ChunkDataEnd => ChunkDataEndStep(p, rest)
    case Trailers => TrailersStep(c, p, rest)
  }

  /** The loop from an empty retained buffer over the unread input. */
  function Run(c: Config, p: Parser, rest: Bytes): (o: Outcome)
    requires Valid(p) && p.pending == []
    ensures Valid(o.parser)
    ensures o.error.Some? ==> o.parser.pending == []
    ensures forall i :: 0 <= i < |o.statuses| ==> 200 <= o.statuses[i] <= 599
    decreases |rest|
  {
    if rest == [] then Outcome([], p, None)
    else
      match StepOf(c, p, rest)
      case Keep(q) => Outcome([], q, None)
      case Fail(q, e) => Outcome([], q, Some(e))
      case Advance(n, q, reported) =>
        var o := Run(c, q, rest[n..]);
        o.(statuses := reported + o.statuses)
  }

  /** `push`: the retained bytes and the chunk are one input. */
  function Push(c: Config, p: Parser, chunk: Bytes): (o: Outcome)
    requires Valid(p)
    ensures Valid(o.parser)
    ensures forall i :: 0 <= i < |o.statuses| ==> 200 <= o.statuses[i] <= 599
  {
    Run(c, p.(pending := []), p.pending + chunk)
  }

  /** A parser only gets past its headers by accepting a block, which takes room for the shortest one. */
  predicate HasRoom(c: Config, p: Parser) {
    p.mode != Headers ==> c.maxHeaderBytes >= SHORTEST_BLOCK
  }

  predicate PendingBounded(c: Config, p: Parser) {
    HasRoom(c, p) && |p.pending| <= c.maxHeaderBytes
  }

  lemma StepKeepsRoom(c: Config, p: Parser, rest: Bytes)
    requires Valid(p) && p.pending == [] && rest != [] && HasRoom(c, p)
    ensures PendingBounded(c, StepOf(c, p, rest).parser)
  {
    hide Find, ParseHeaders, ParseChunkSize;
  }

  lemma {:induction false} RunKeepsPendingBounded(c: Config, p: Parser, rest: Bytes)
    requires Valid(p) && p.pending == [] && HasRoom(c, p)
    ensures PendingBounded(c, Run(c, p, rest).parser)
    decreases |rest|
  {
    hide StepOf;
    if rest != [] {
      var s := StepOf(c, p, rest);
      StepKeepsRoom(c, p, rest);
      if s.Advance? {
        RunKeepsPendingBounded(c, s.parser, rest[s.consumed..]);
      }
    }
  }

  /** A push keeps the retained bytes within the limit, whether it throws or not. */
  lemma PushKeepsPendingBounded(c: Config, p: Parser, chunk: Bytes)
    requires Valid(p) && PendingBounded(c, p)
    ensures PendingBounded(c, Push(c, p, chunk).parser)
  {
    hide Run;
    RunKeepsPendingBounded(c, p.(pending := []), p.pending + chunk);
  }
}
