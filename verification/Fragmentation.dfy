/** How a byte stream may be cut into pushes. */
module Fragmentation {
  import opened Basics
  import opened Bytes
  import opened ResponseHeaders
  import opened ResponseStream

  /** Pushes one chunk after another until one throws. */
  function PushAll(c: Config, p: Parser, chunks: seq<Bytes>): (o: Outcome)
    requires Valid(p)
    ensures Valid(o.parser)
    decreases |chunks|
  {
    if chunks == [] then Outcome([], p, None)
    else
      var first := Push(c, p, chunks[0]);
      if first.error.Some? then first
      else
        var o := PushAll(c, first.parser, chunks[1..]);
        o.(statuses := first.statuses + o.statuses)
  }

  /** However many pushes a new parser gets, the bytes it retains never exceed the limit. */
  lemma PendingNeverExceeds(c: Config, chunks: seq<Bytes>)
    ensures |PushAll(c, INITIAL, chunks).parser.pending| <= c.maxHeaderBytes
  {
    PushesKeepPendingBounded(c, INITIAL, chunks);
  }

  lemma {:induction false} PushesKeepPendingBounded(c: Config, p: Parser, chunks: seq<Bytes>)
    requires Valid(p) && PendingBounded(c, p)
    ensures PendingBounded(c, PushAll(c, p, chunks).parser)
    decreases |chunks|
  {
    hide Push, PendingBounded;
    if chunks != [] {
      PushKeepsPendingBounded(c, p, chunks[0]);
      if Push(c, p, chunks[0]).error.None? {
        PushesKeepPendingBounded(c, Push(c, p, chunks[0]).parser, chunks[1..]);
      }
    }
  }

  /** The input ends inside the body. */
  predicate EndsInBody(p: Parser, a: Bytes) {
    InBody(p.mode) && |a| < if p.mode == FixedBody then p.bodyRemaining else p.chunkRemaining
  }

  /** A step that does not end inside a body is not changed by more input. */
  lemma StepExtends(c: Config, p: Parser, a: Bytes, b: Bytes)
    requires Valid(p) && p.pending == [] && a != []
    requires StepOf(c, p, a).Advance? && !EndsInBody(p, a)
    ensures StepOf(c, p, a + b) == StepOf(c, p, a)
  {
    hide Find, IndexOf, ParseHeaders, ParseChunkSize;
    match p.mode {
      case FixedBody =>
      case ChunkData =>
      case Headers =>
        var end := Find(a, HEADER_END);
        FindAppend(a, b, HEADER_END);
        assert end != -1 ==> (a + b)[..end] == a[..end];
      case ChunkSize =>
        var end := Find(a, CRLF);
        FindAppend(a, b, CRLF);
        assert end != -1 ==> (a + b)[..end] == a[..end];
      case ChunkDataEnd =>
        assert |a| >= 2 ==> (a + b)[..2] == a[..2];
      case Trailers =>
        FindAppend(a, b, CRLF);
    }
  }

  /** Reading a body in two parts is reading it at once. */
  lemma BodySplits(c: Config, p: Parser, a: Bytes, b: Bytes)
    requires Valid(p) && p.pending == [] && a != [] && EndsInBody(p, a)
    ensures var s := StepOf(c, p, a);
            s.Advance? && s.consumed == |a| && s.reported == [] && Valid(s.parser) && s.parser.pending == []
            && Run(c, s.parser, b) == Run(c, p, a + b)
  {
    hide HeadersStep, ChunkSizeStep, ChunkDataEndStep, TrailersStep;
    var q := StepOf(c, p, a).parser;
    if b == [] {
      assert a + b == a;
      assert a[|a|..] == [];
    } else {
      var whole := StepOf(c, p, a + b);
      var part := StepOf(c, q, b);
      assert whole.consumed == |a| + part.consumed;
      assert (a + b)[whole.consumed..] == b[part.consumed..];
      assert whole.parser == part.parser && whole.reported == part.reported;
    }
  }

  lemma AppendInBody(c: Config, p: Parser, a: Bytes, b: Bytes)
    requires Valid(p) && p.pending == [] && a != [] && EndsInBody(p, a)
    ensures var first := Run(c, p, a);
            first.error.None? && first.statuses == [] && Run(c, p, a + b) == Push(c, first.parser, b)
  {
    hide StepOf;
    BodySplits(c, p, a, b);
    var q := StepOf(c, p, a).parser;
    assert a[|a|..] == [];
    assert q.pending + b == b;
    assert q.(pending := []) == q;
  }

  /** A push that succeeds, and then the rest, is one push of both; one that throws has reported a prefix. */
  lemma {:induction false} RunAppend(c: Config, p: Parser, a: Bytes, b: Bytes)
    requires Valid(p) && p.pending == []
    ensures var first := Run(c, p, a);
            var whole := Run(c, p, a + b);
            if first.error.None? then
              var second := Push(c, first.parser, b);
              whole == second.(statuses := first.statuses + second.statuses)
            else first.statuses <= whole.statuses
    decreases |a|
  {
    hide StepOf;
    if a == [] {
      assert a + b == b;
      assert p.pending + b == b;
    } else {
      var s := StepOf(c, p, a);
      if s.Keep? {
        assert s.parser.(pending := []) == p;
        assert s.parser.pending + b == a + b;
      } else if s.Advance? {
        if EndsInBody(p, a) {
          AppendInBody(c, p, a, b);
        } else {
          StepExtends(c, p, a, b);
          assert (a + b)[s.consumed..] == a[s.consumed..] + b;
          RunAppend(c, s.parser, a[s.consumed..], b);
        }
      }
    }
  }

  /**
    * Fragmentation invariance: every way of cutting a stream that does not throw reports the same statuses
    * and leaves the same fields as pushing the stream at once; one that throws reported a prefix.
    */
  lemma {:induction false} FragmentationInvariance(c: Config, p: Parser, chunks: seq<Bytes>)
    requires Valid(p)
    requires chunks != []
    ensures var split := PushAll(c, p, chunks);
            var whole := Push(c, p, Concat(chunks));
            if split.error.None? then split == whole else split.statuses <= whole.statuses
    decreases |chunks|
  {
    hide Run;
    var p0 := p.(pending := []);
    var first := Push(c, p, chunks[0]);
    var rest := Concat(chunks[1..]);
    RunAppend(c, p0, p.pending + chunks[0], rest);
    assert p.pending + chunks[0] + rest == p.pending + (chunks[0] + rest);
    if |chunks| == 1 {
      assert chunks[1..] == [];
      assert chunks[0] + rest == chunks[0];
    } else if first.error.None? {
      FragmentationInvariance(c, first.parser, chunks[1..]);
    }
  }

  // ---------------------------------------------------------------- which streams every cut accepts

  /**
    * The room the limit leaves: a cut may fall before the last byte of a unit's terminator, so a complete header
    * block needs three bytes more than itself and a chunk-size line one. A trailer line that is accepted has room for
    * its whole line end.
    */
  predicate UnitFits(c: Config, p: Parser, rest: Bytes) {
    match p.mode
    case Headers => Find(rest, HEADER_END) != -1 ==> Find(rest, HEADER_END) + 3 <= c.maxHeaderBytes
    case ChunkSize => Find(rest, CRLF) != -1 ==> Find(rest, CRLF) + 1 <= c.maxHeaderBytes
    case _ => true
  }

  /** Every unit the run meets leaves that room. */
  predicate UnitsFit(c: Config, p: Parser, rest: Bytes)
    requires Valid(p) && p.pending == []
    decreases |rest|
  {
    rest == [] ||
    (UnitFits(c, p, rest) &&
     var s := StepOf(c, p, rest);
     s.Advance? ==> UnitsFit(c, s.parser, rest[s.consumed..]))
  }

  /** A proper prefix of a complete unit is retained without error when the unit fits. */
  lemma PrefixKept(c: Config, p: Parser, a: Bytes, b: Bytes)
    requires Valid(p) && p.pending == [] && a != [] && b != [] && !InBody(p.mode)
    requires UnitFits(c, p, a + b) && HasRoom(c, p)
    requires !StepOf(c, p, a + b).Fail?
    requires StepOf(c, p, a + b).Advance? ==> |a| < StepOf(c, p, a + b).consumed
    ensures StepOf(c, p, a) == Keep(p.(pending := a))
  {
    hide IndexOf, ParseHeaders, ParseChunkSize;
    if p.mode == Headers {
      FindAppend(a, b, HEADER_END);
    } else if p.mode == ChunkSize || p.mode == Trailers {
      FindAppend(a, b, CRLF);
    }
  }

  lemma BodyStepEnds(c: Config, p: Parser, a: Bytes, b: Bytes)
    requires Valid(p) && p.pending == [] && a != [] && InBody(p.mode) && !EndsInBody(p, a)
    ensures StepOf(c, p, a + b).Advance? && StepOf(c, p, a + b).consumed <= |a|
  {
    hide HeadersStep, ChunkSizeStep, ChunkDataEndStep, TrailersStep;
  }

  lemma EndsInBodyAccepted(c: Config, p: Parser, a: Bytes)
    requires Valid(p) && p.pending == [] && EndsInBody(p, a)
    ensures Run(c, p, a).error.None?
  {
    if a != [] {
      assert a[|a|..] == [];
    }
  }

  /** When the units of a stream fit and the stream is accepted at once, so is each of its prefixes. */
  lemma {:induction false} PrefixAccepted(c: Config, p: Parser, a: Bytes, b: Bytes)
    requires Valid(p) && p.pending == []
    requires Run(c, p, a + b).error.None? && UnitsFit(c, p, a + b) && HasRoom(c, p)
    ensures Run(c, p, a).error.None?
    decreases |a|
  {
    hide StepOf, UnitFits;
    if a != [] && b != [] {
      var s := StepOf(c, p, a + b);
      StepKeepsRoom(c, p, a + b);
      if EndsInBody(p, a) {
        EndsInBodyAccepted(c, p, a);
      } else if InBody(p.mode) {
        BodyStepEnds(c, p, a, b);
        StepSurvives(c, p, a, b);
        assert (a + b)[s.consumed..] == a[s.consumed..] + b;
        PrefixAccepted(c, s.parser, a[s.consumed..], b);
      } else if s.Keep? || |a| < s.consumed {
        PrefixKept(c, p, a, b);
      } else {
        StepSurvives(c, p, a, b);
        assert (a + b)[s.consumed..] == a[s.consumed..] + b;
        PrefixAccepted(c, s.parser, a[s.consumed..], b);
      }
    } else if b == [] {
      assert a + b == a;
    }
  }

  /** A step whose unit lies inside a prefix is the same step on the prefix. */
  lemma StepSurvives(c: Config, p: Parser, a: Bytes, b: Bytes)
    requires Valid(p) && p.pending == [] && a != []
    requires !EndsInBody(p, a)
    requires StepOf(c, p, a + b).Advance? && StepOf(c, p, a + b).consumed <= |a|
    ensures StepOf(c, p, a) == StepOf(c, p, a + b)
  {
    hide IndexOf, ParseHeaders, ParseChunkSize;
    match p.mode {
      case Headers => FoundInPrefix(a, b, HEADER_END);
      case ChunkSize => FoundInPrefix(a, b, CRLF);
      case Trailers => FoundInPrefix(a, b, CRLF);
      case ChunkDataEnd => assert (a + b)[..2] == a[..2];
      case _ =>
    }
  }

  lemma FoundInPrefix(a: Bytes, b: Bytes, pattern: Bytes)
    requires |pattern| > 0
    requires var k := Find(a + b, pattern); k != -1 && k + |pattern| <= |a|
    ensures Find(a, pattern) == Find(a + b, pattern)
    ensures a[..Find(a, pattern)] == (a + b)[..Find(a, pattern)]
  {
    var k := Find(a + b, pattern);
    FindAppend(a, b, pattern);
    assert a[k..k + |pattern|] == (a + b)[k..k + |pattern|];
    assert MatchAt(a, pattern, k);
  }

  /** A unit that does not fit is refused by the cut just before the last byte of its terminator. */
  lemma {:induction false} TightUnitRefused(c: Config, p: Parser, rest: Bytes) returns (cut: nat)
    requires Valid(p) && p.pending == []
    requires Run(c, p, rest).error.None? && !UnitsFit(c, p, rest)
    ensures cut <= |rest| && Run(c, p, rest[..cut]).error.Some?
    decreases |rest|
  {
    hide StepOf, UnitFits;
    if UnitFits(c, p, rest) {
      var s := StepOf(c, p, rest);
      var inner := TightUnitRefused(c, s.parser, rest[s.consumed..]);
      cut := s.consumed + inner;
      var a := rest[..cut];
      assert a + rest[cut..] == rest;
      assert a[s.consumed..] == rest[s.consumed..][..inner];
      StepWithin(c, p, rest, cut);
      StepSurvives(c, p, a, rest[cut..]);
    } else {
      cut := TightUnitCut(c, p, rest);
      assert rest[..cut] != [];
    }
  }

  /** A step that leaves input behind did not end inside a body. */
  lemma StepWithin(c: Config, p: Parser, rest: Bytes, cut: nat)
    requires Valid(p) && p.pending == [] && rest != []
    requires StepOf(c, p, rest).Advance? && rest[StepOf(c, p, rest).consumed..] != []
    requires StepOf(c, p, rest).consumed <= cut <= |rest|
    ensures !EndsInBody(p, rest[..cut])
  {
    hide HeadersStep, ChunkSizeStep, ChunkDataEndStep, TrailersStep;
  }

  lemma TightUnitCut(c: Config, p: Parser, rest: Bytes) returns (cut: nat)
    requires Valid(p) && p.pending == [] && rest != []
    requires !StepOf(c, p, rest).Fail? && !UnitFits(c, p, rest)
    ensures 0 < cut <= |rest| && StepOf(c, p, rest[..cut]).Fail?
  {
    hide IndexOf, ParseHeaders, ParseChunkSize;
    var pattern := if p.mode == Headers then HEADER_END else CRLF;
    var end := Find(rest, pattern);
    cut := end + |pattern| - 1;
    var a := rest[..cut];
    assert a + rest[cut..] == rest;
    FindAppend(a, rest[cut..], pattern);
  }

  /** A cut stream that throws does so at some prefix of the stream. */
  lemma {:induction false} SplitAccepted(c: Config, p: Parser, chunks: seq<Bytes>)
    requires Valid(p) && chunks != []
    requires forall k :: 0 <= k <= |Concat(chunks)| ==> PrefixRuns(c, p, Concat(chunks), k)
    ensures PushAll(c, p, chunks).error.None?
    decreases |chunks|
  {
    hide Run;
    var stream := Concat(chunks);
    var n := |chunks[0]|;
    assert stream[..n] == chunks[0];
    assert PrefixRuns(c, p, stream, n);
    var first := Push(c, p, chunks[0]);
    if |chunks| > 1 {
      var rest := Concat(chunks[1..]);
      forall k | 0 <= k <= |rest|
        ensures PrefixRuns(c, first.parser, rest, k)
      {
        assert PrefixRuns(c, p, stream, n + k);
        assert stream[..n + k] == chunks[0] + rest[..k];
        assert p.pending + (chunks[0] + rest[..k]) == (p.pending + chunks[0]) + rest[..k];
        RunAppend(c, p.(pending := []), p.pending + chunks[0], rest[..k]);
      }
      SplitAccepted(c, first.parser, chunks[1..]);
    }
  }

  predicate PrefixRuns(c: Config, p: Parser, stream: Bytes, k: int)
    requires Valid(p) && 0 <= k <= |stream|
  {
    Push(c, p, stream[..k]).error.None?
  }

  ghost predicate EveryCutAccepted(c: Config, stream: Bytes) {
    forall chunks: seq<Bytes> :: chunks != [] && Concat(chunks) == stream ==> PushAll(c, INITIAL, chunks).error.None?
  }

  /**
    * Exactly when no way of cutting a stream throws: the stream is accepted at once and each of its units leaves
    * room for the terminator bytes that a cut can retain with it.
    */
  lemma EveryCutAcceptedExactly(c: Config, stream: Bytes)
    ensures EveryCutAccepted(c, stream)
       <==> Push(c, INITIAL, stream).error.None? && UnitsFit(c, INITIAL, stream)
  {
    hide Run, UnitsFit;
    assert INITIAL.pending + stream == stream;
    if Push(c, INITIAL, stream).error.None? && UnitsFit(c, INITIAL, stream) {
      forall k | 0 <= k <= |stream|
        ensures PrefixRuns(c, INITIAL, stream, k)
      {
        assert stream[..k] + stream[k..] == stream;
        assert INITIAL.pending + stream[..k] == stream[..k];
        PrefixAccepted(c, INITIAL, stream[..k], stream[k..]);
      }
      forall chunks: seq<Bytes> | chunks != [] && Concat(chunks) == stream
        ensures PushAll(c, INITIAL, chunks).error.None?
      {
        SplitAccepted(c, INITIAL, chunks);
      }
    }
    if EveryCutAccepted(c, stream) {
      ConcatTwo(stream, |stream|);
      FragmentationInvariance(c, INITIAL, [stream, []]);
      if !UnitsFit(c, INITIAL, stream) {
        TightStreamRefused(c, stream);
      }
    }
  }

  lemma TightStreamRefused(c: Config, stream: Bytes)
    requires Push(c, INITIAL, stream).error.None? && !UnitsFit(c, INITIAL, stream)
    ensures !EveryCutAccepted(c, stream)
  {
    hide Run, UnitsFit;
    assert INITIAL.pending + stream == stream;
    var cut := TightUnitRefused(c, INITIAL, stream);
    assert INITIAL.pending + stream[..cut] == stream[..cut];
    ConcatTwo(stream, cut);
    var chunks := [stream[..cut], stream[cut..]];
    assert PushAll(c, INITIAL, chunks).error.Some?;
  }

  // ---------------------------------------------------------------- a stream that only some cuts get through

  /** The shortest status line that ends a response, and its header block on the wire. */
  const NO_CONTENT: Bytes := [72, 84, 84, 80, 47, 49, 46, 49, 32, 50, 48, 52]
  const NO_CONTENT_BLOCK: Bytes := NO_CONTENT + HEADER_END

  lemma NoContentRead(c: Config)
    requires c == Config("GET", SHORTEST_BLOCK)
    ensures Find(NO_CONTENT_BLOCK, HEADER_END) == SHORTEST_BLOCK
    ensures StepOf(c, INITIAL, NO_CONTENT_BLOCK) == Advance(|NO_CONTENT_BLOCK|, INITIAL, [204])
  {
    hide IndexOf;
    var stream := NO_CONTENT_BLOCK;
    assert stream[12..16] == HEADER_END;
    forall i | 0 <= i < 12
      ensures !MatchAt(stream, HEADER_END, i)
    {
      NoMatchAt(stream, HEADER_END, i);
    }
    FindIs(stream, HEADER_END, 12);
    assert stream[..12] == NO_CONTENT;
    forall i | 0 <= i < 12
      ensures !MatchAt(NO_CONTENT, CRLF, i)
    {
      NoMatchAt(NO_CONTENT, CRLF, i);
    }
    assert Lines(NO_CONTENT) == [NO_CONTENT];
    assert NO_CONTENT[..7] == [72, 84, 84, 80, 47, 49, 46];
    assert IsStatusLine(NO_CONTENT);
    assert ReadFields([NO_CONTENT][1..], NO_FIELDS) == Ok(NO_FIELDS);
  }

  lemma NoContentCut(c: Config)
    requires c == Config("GET", SHORTEST_BLOCK)
    ensures StepOf(c, INITIAL, NO_CONTENT_BLOCK[..15]) == Fail(INITIAL, HeadersExceed)
  {
    hide IndexOf;
    NoContentRead(c);
    var part := NO_CONTENT_BLOCK[..15];
    FindAppend(part, NO_CONTENT_BLOCK[15..], HEADER_END);
    assert part + NO_CONTENT_BLOCK[15..] == NO_CONTENT_BLOCK;
  }

  /** With a limit of twelve bytes this response is accepted at once, and refused when its last byte comes later. */
  lemma TightStream(c: Config)
    requires c == Config("GET", SHORTEST_BLOCK)
    ensures Push(c, INITIAL, NO_CONTENT_BLOCK) == Outcome([204], INITIAL, None)
    ensures !UnitsFit(c, INITIAL, NO_CONTENT_BLOCK)
    ensures Push(c, INITIAL, NO_CONTENT_BLOCK[..15]) == Outcome([], INITIAL, Some(HeadersExceed))
    ensures !EveryCutAccepted(c, NO_CONTENT_BLOCK)
  {
    hide StepOf;
    var stream := NO_CONTENT_BLOCK;
    NoContentRead(c);
    assert INITIAL.pending + stream == stream;
    assert stream[|stream|..] == [];
    assert Run(c, INITIAL, stream[|stream|..]) == Outcome([], INITIAL, None);
    assert INITIAL.(pending := []) == INITIAL;
    assert !UnitFits(c, INITIAL, stream);
    var part := stream[..15];
    assert INITIAL.pending + part == part;
    NoContentCut(c);
    TightStreamRefused(c, stream);
  }
}
