# Verification of the load generator and the target control protocol

A Dafny model of three connected parts of the repository, with proofs over all inputs and all runs.

**HTTP/1.1 response parser** (`Bytes`, `ResponseHeaders`, `LengthTexts`, `ResponseStream`, `Fragmentation`,
`ResponseGrammar`, `ResponsePrinter`, `ResponsesExact`, `ResponseFraming`, `ResponseAccepted`,
`Http1ResponseParserCode`). `ResponseStream.Run` is one run of the parser's loop as a function of its fields and the
unread bytes; the class `Http1ResponseParser` and the index loops beside it are proved equal to it. The results: how a
stream is cut into pushes changes nothing unless a push throws; exactly which streams no way of cutting can make
throw; retained bytes never exceed the limit; exactly which byte streams end between responses, against a grammar of
messages; a printer whose output is read back, and which can print every stream that ends between responses; and where
each message ends, in the words of its printed head.

**Load engine** (`Http1Engine`, `EngineInvariant`, `EngineScheduler`, `EngineRuns`, `EngineTheorems`, `EngineTimes`,
`EngineArrivals`, `EngineAnswers`, `EngineConnections`, `EngineMessages`, `TimestampQueueCode`, `Http1ConnectionCode`,
`LoadWorkerCode`, `LoadCoordinatorCode`, `AggregateLoad`, `WebSocketConnection`, `WebSocketMoves`,
`WebSocketConnectionCode`) and its histogram (`LatencyHistogram`, `NearestRank`, `HistogramAccuracy`,
`HistogramMerge`, `BoundedLatencyRecorderCode`). A worker with its HTTP/1 connections is a transition system over
connect, data, drain, timeout, error, close, reconnect, rate tick, start, end of phase and abort; what holds of every
reachable state is in `EngineTheorems`, `EngineTimes` and `EngineArrivals`, and what every event does, in literal
terms, in `EngineAnswers`, `EngineConnections` and `EngineMessages`. The worker's model keeps the latencies
themselves; the measurement class keeps their histogram. The histogram is compared with the exact nearest-rank
quantile and the exact mean of the samples, in real arithmetic.

**Control protocol** (`Ndjson`, `NdjsonDecoderCode`, `ControlClient`, `ControlClientCode`, `TargetStates`,
`Lifecycle`, `Lockstep`, `LifecycleRuns`, `LifecycleMoves`, `LifecycleCode`). Session, control client, two ordered
channels and agent are one transition system: calls, timers, failed writes, lost commands, transport failures,
deliveries and continuations on one side, and commands taken, ended or refused, exits and closing on the other.

Where the source changes objects in place the model has classes. A module whose name ends in `Code` holds them; each
method is tied to a function of the old state, and the theorems are about those functions.

Four promises turn out to hold only under a condition, which is stated exactly, with an input that shows it fails:

* A stream accepted in one push can be refused when it is cut, because retained bytes include up to three bytes of a
  terminator that a complete header block does not count, and because a complete chunk-size line is not measured at
  all (`Fragmentation.EveryCutAcceptedExactly`, `Fragmentation.TightStream`). Likewise an NDJSON line of which only
  the part before a carriage return fits (`Ndjson.EveryCutAcceptedExactly`, `Ndjson.TightLine`).
* A WebSocket send that throws takes a slot of the scheduler (`WebSocketConnection.SlotsExactly`,
  `WebSocketConnection.RefusedSlot`).
* Session and agent can be in different states with nothing pending: a metrics response whose payload is no object
  leaves the session measuring while the agent is ready, and a request given up while its good answer is under way
  leaves the agent one step ahead (`LifecycleRuns.LockstepExactly`, `LifecycleRuns.SpoiledRun`,
  `LifecycleRuns.GivenUpRun`).
* A failure listener that is registered again after the client has failed is called again (`ControlClient.CallsExact`,
  `ControlClient.CalledTwice`).

The condition of `WebSocketConnection.ConservationExactly` always holds: the source sets the binary type of its
sockets (src/load/websocket/websocket-connection.ts:60), so every message is a text or an array buffer
(`WebSocketConnection.ConformingConserved`).

## Model

| member | source | states |
|---|---|---|
| `Fragmentation.FragmentationInvariance` | src/load/http1/response-parser.ts:38-211 | for every parser state, stream and way to cut it into pushes: if no push throws, the statuses, the final fields and the error are those of one push; if one throws, the statuses reported until then are a prefix of those of one push |
| `Fragmentation.EveryCutAcceptedExactly` | src/load/http1/response-parser.ts:46-163 | a stream is accepted in every way of cutting it if and only if one push accepts it and every header block of it plus 3 bytes and every chunk-size line of it plus 1 byte fit the size limit |
| `Fragmentation.TightStreamRefused` | src/load/http1/response-parser.ts:49-57 | a stream that one push accepts although a header block or chunk-size line of it does not fit with its partial terminator is refused in some way of cutting it |
| `Fragmentation.TightStream` | src/load/http1/response-parser.ts:49-57 | a concrete stream: with a limit of 12 bytes `HTTP/1.1 204` with its empty line is accepted by one push and refused when its last byte comes in a second one |
| `Fragmentation.TightUnitRefused` | src/load/http1/response-parser.ts:205-211 | names the cut: some first part of such a stream alone is refused |
| `Fragmentation.PrefixAccepted` | src/load/http1/response-parser.ts:38-211 | when all units fit and the whole is accepted, so is every first part of it |
| `Fragmentation.SplitAccepted` | src/load/http1/response-parser.ts:38-211 | when every first part of a stream is accepted, so is every sequence of pushes that makes it up |
| `Fragmentation.RunAppend` | src/load/http1/response-parser.ts:38-183 | reading a first part and then the rest reports and leaves what reading both at once does; a failing first part has reported a prefix |
| `Fragmentation.StepExtends` | src/load/http1/response-parser.ts:46-181 | an iteration that found a complete unit does the same when more bytes follow |
| `Fragmentation.BodySplits` | src/load/http1/response-parser.ts:94-140 | a body cut in the middle is counted down by the first part and finished by the second |
| `ResponseStream.StepOf` | src/load/http1/response-parser.ts:45-182 | every iteration either keeps the unread bytes, fails, or consumes at least one byte and stays inside the input, keeping the parser valid and reporting only final statuses: `push` ends |
| `ResponseStream.Run` | src/load/http1/response-parser.ts:45-182 | a run leaves a valid parser, nothing retained after an error, and only statuses from 200 to 599 reported |
| `ResponseStream.Push` | src/load/http1/response-parser.ts:38-43 | a push leaves the parser valid: a body remainder is positive exactly in its body state and no bytes are pending there |
| `Fragmentation.PendingNeverExceeds` | src/load/http1/response-parser.ts:194-211 | however many pushes a new parser gets, and whether they throw or not, the retained bytes never exceed `maxHeaderBytes` |
| `ResponseStream.PushKeepsPendingBounded` | src/load/http1/response-parser.ts:142-211 | a push keeps the retained bytes within the limit, also in the state after chunk data, which retains one byte without asking for the limit: past the headers the limit has room for a status line |
| `ResponseGrammar.BoundaryExactly` | src/load/http1/response-parser.ts:38-203 | the parser ends between responses having reported some statuses if and only if the bytes are the serialisation of a list of well-formed messages with those final statuses (section 6.3 and section 7.1 of RFC 9112) |
| `ResponseGrammar.ReadMessages` | src/load/http1/response-parser.ts:45-182 | every list of well-formed messages is read from its bytes with its final statuses in order, ending between responses |
| `ResponseGrammar.ParseMessages` | src/load/http1/response-parser.ts:45-182 | bytes that end between responses are the bytes of well-formed messages with the statuses reported |
| `ResponseGrammar.ReadMessage` | src/load/http1/response-parser.ts:46-181 | one message is read exactly to its end, whatever follows |
| `ResponseGrammar.ParseMessage` | src/load/http1/response-parser.ts:46-181 | a stream that ends between responses begins with a well-formed message |
| `ResponseGrammar.ReadChunkedBody` | src/load/http1/response-parser.ts:107-181 | chunks with their size lines, the last chunk and the trailers are read to the end of the body, which reports the status |
| `ResponseGrammar.ParseChunks` | src/load/http1/response-parser.ts:107-181 | bytes read as a chunked body are chunks, a last chunk and trailers within the limit |
| `ResponseGrammar.ReadTrailers` | src/load/http1/response-parser.ts:160-181 | trailer lines whose total size fits are skipped up to the empty line |
| `ResponseGrammar.HeadersRead` | src/load/http1/response-parser.ts:46-92 | a header block is accepted only within the limit, is no upgrade, and decides the next state by its framing |
| `ResponsePrinter.ResponsesRoundTrip` | src/load/http1/response-parser.ts:38-203 | any list of responses printed with interim statuses, empty, fixed-length and chunked bodies, extensions and trailers is reported as exactly its final statuses in order with nothing pending; pushed in pieces, it is reported the same unless a piece throws, and then as a prefix; no piece throws when each printed head plus 3 bytes and each size line plus 1 byte fit the limit |
| `ResponsesExact.PrintedExactly` | src/load/http1/response-parser.ts:38-203 | the parser ends between responses having reported some statuses if and only if the bytes are a printed list of supported responses with those final statuses |
| `ResponseAccepted.AcceptedExactly` | src/load/http1/response-parser.ts:38-211 | one push takes a stream without an error, with some statuses, if and only if the stream is well-formed messages with those final statuses followed by at most the beginning of another one |
| `ResponseFraming.HeadRefused` | src/load/http1/response-parser.ts:296-330 | what a printed head alone is refused for, each in its order: more bytes than the limit, a coding whose last member is not `chunked`, a chunked coding beside a length, status 101, and neither a length nor a coding where a body must follow |
| `ResponseFraming.HeadDecides` | src/load/http1/response-parser.ts:296-330 | where a message ends (section 6.3 of RFC 9112), in literal terms: a status below 200, of 204 or of 304, or the method `HEAD` ends it with the head, reported exactly from 200 on; else a declared length of n waits for n bytes, and a chunked coding for a size line |
| `ResponseFraming.LengthDelimits` | src/load/http1/response-parser.ts:94-106 | with a declared length n nothing is reported until exactly n further bytes have come, and then the status |
| `ResponseFraming.ChunksDelimit` | src/load/http1/response-parser.ts:107-181 | a chunked message is reported with the last byte of its body and by no shorter part of it |
| `ResponseFraming.NamesSpelled` | src/load/http1/response-parser.ts:404-424 | the names and the coding looked for are content-length, transfer-encoding and chunked, in any case |
| `ResponsesExact.HeadExactly` | src/load/http1/response-parser.ts:221-330 | a block that ends at its empty line is accepted with a framing if and only if it is a printed head, of a status line and fields, whose declared fields decide that framing; what they decide is stated literally in `ResponseFraming.HeadDecides` and `ResponseFraming.HeadRefused` |
| `ResponsesExact.HeadShape` | src/load/http1/response-parser.ts:221-330 | every accepted block is a printed head |
| `ResponsesExact.FieldShape` | src/load/http1/response-parser.ts:256-295 | every accepted field line is a printed field that declares what was read |
| `ResponsesExact.LinesShape` | src/load/http1/response-parser.ts:225-259 | a block is its lines joined by line ends |
| `ResponsesExact.MessageShape` | src/load/http1/response-parser.ts:46-181 | every well-formed message is a printed response |
| `ResponsePrinter.PrintedCutExactly` | src/load/http1/response-parser.ts:46-163 | no way of cutting printed responses throws if and only if each printed head plus 3 bytes, and each size line of a chunked body that is sent plus 1 byte, fit the limit |
| `ResponseGrammar.MessagesCutExactly` | src/load/http1/response-parser.ts:46-163 | no way of cutting the bytes of well-formed messages throws if and only if each header block plus 3 bytes and each size line plus 1 byte fit the limit |
| `ResponsePrinter.HeadReads` | src/load/http1/response-parser.ts:221-330 | a printed header block is parsed to the framing that its status, fields and the request method decide |
| `ResponsePrinter.FieldReads` | src/load/http1/response-parser.ts:256-295 | a printed field of any case and padding is read as what it declares |
| `ResponsePrinter.MessageReads` | src/load/http1/response-parser.ts:221-330 | a printed response is a well-formed message that reports its status unless it is interim |
| `ResponsePrinter.StatusLineReads` | src/load/http1/response-parser.ts:222-248 | a printed status line of HTTP/1.0 or HTTP/1.1 with a status from 100 to 599 is valid and has that status |
| `ResponsePrinter.ChunkedBodyOk` | src/load/http1/response-parser.ts:107-181 | printed chunks, whose size lines may be padded and carry extensions, with printed trailers are a well-formed chunked body |
| `ResponseHeaders.ParseHeaders` | src/load/http1/response-parser.ts:221-330 | an accepted header block has a status from 100 to 599, is informational exactly below 200, and then has no body; it has at least the 12 bytes of a status line |
| `LengthTexts.ContentLengthExact` | src/load/http1/response-parser.ts:332-385 | a Content-Length value is accepted as n if and only if every member of its comma list, trimmed, is a decimal without leading zeros that denotes n, n is a safe integer, and an earlier header said the same (section 8.6 of RFC 9110) |
| `LengthTexts.DigitsAre` | src/load/http1/response-parser.ts:463-489 | the digits, in bytes, that a number is read by |
| `LengthTexts.SafeIntegers` | src/load/http1/response-parser.ts:355-365 | the largest length is 9007199254740991 |
| `Bytes.TrimSplits` | src/load/http1/response-parser.ts:270-284 | trimming takes off spaces and tabs at both ends, and leaves neither there |
| `LengthTexts.CombineExact` | src/load/http1/response-parser.ts:332-385 | the members of a list combine to n if and only if all of them denote n and the earlier value, if any, is n |
| `LengthTexts.ReadLengthExact` | src/load/http1/response-parser.ts:351-365 | one member is accepted as n if and only if it is a decimal without leading zeros that denotes the safe integer n |
| `LengthTexts.ReadDecimalExact` | src/load/http1/response-parser.ts:355-365 | reading digits with the overflow test gives the number they denote exactly when all are digits and it is a safe integer: no intermediate step overflows |
| `LengthTexts.ChunkSizeExact` | src/load/http1/response-parser.ts:426-461 | a chunk-size line is accepted as n if and only if its text before an extension, trimmed, is non-empty hexadecimal that denotes the safe integer n |
| `LengthTexts.ReadHexExact` | src/load/http1/response-parser.ts:444-460 | hexadecimal digits read as the number they denote exactly up to the safe integers, beyond which the error is the range error |
| `LengthTexts.ChunkSizeReads` | src/load/http1/response-parser.ts:426-489 | any hexadecimal digits, with leading zeros or mixed case, padded and followed by an extension, are read as the safe integer they denote |
| `LengthTexts.ChunkSizeShape` | src/load/http1/response-parser.ts:426-489 | every accepted size line has this shape |
| `LengthTexts.DecimalIsPrinted` | src/load/http1/response-parser.ts:351-365 | a decimal without leading zeros is the one that printing its number gives |
| `LengthTexts.ChunkSizeRoundTrip` | src/load/http1/response-parser.ts:426-489 | hex printing in either case, padded and followed by an extension, is inverted up to the safe-integer bound |
| `LengthTexts.PrintReads` | src/load/http1/response-parser.ts:463-489 | a number printed in base 10 or 16 denotes itself and contains no padding or separator |
| `Http1ResponseParserCode.Http1ResponseParser.Push` | src/load/http1/response-parser.ts:38-183 | the loop over a local offset reports, leaves and throws what the specification of one push says |
| `Http1ResponseParserCode.Http1ResponseParser.Iterate` | src/load/http1/response-parser.ts:45-182 | one iteration on the buffer at an offset is one step of the specification |
| `Http1ResponseParserCode.Http1ResponseParser.IterateHeaders` | src/load/http1/response-parser.ts:46-92 | the headers state on the buffer at an offset |
| `Http1ResponseParserCode.Http1ResponseParser.Complete` | src/load/http1/response-parser.ts:194-203 | reports the status and clears the counters |
| `Http1ResponseParserCode.Http1ResponseParser.Retain` | src/load/http1/response-parser.ts:205-211 | retains the bytes or throws when they exceed the limit |
| `Http1ResponseParserCode.Http1ResponseParser.Reset` | src/load/http1/response-parser.ts:185-192 | puts the parser back into its initial state |
| `Http1ResponseParserCode.ParseHeadersRange` | src/load/http1/response-parser.ts:221-330 | the index loop over the lines computes the specified framing or error |
| `Http1ResponseParserCode.ReadFieldLines` | src/load/http1/response-parser.ts:254-295 | the loop over the header lines reads all fields in order |
| `Http1ResponseParserCode.ReadFieldRange` | src/load/http1/response-parser.ts:257-292 | one header line between two indices |
| `Http1ResponseParserCode.ParseContentLengthRange` | src/load/http1/response-parser.ts:332-385 | the loop over comma positions computes the specified length or error |
| `Http1ResponseParserCode.ReadPart` | src/load/http1/response-parser.ts:340-365 | one list member between two indices |
| `Http1ResponseParserCode.ReadDigits` | src/load/http1/response-parser.ts:355-365 | the digit loop |
| `Http1ResponseParserCode.LastTokenEquals` | src/load/http1/response-parser.ts:387-402 | compares the token after the last comma, trimmed and without regard to case |
| `Http1ResponseParserCode.ParseChunkSizeRange` | src/load/http1/response-parser.ts:426-461 | the digit loop of a chunk size between two indices |
| `Http1ResponseParserCode.TrimRange` | src/load/http1/response-parser.ts:270-284 | the two index loops find the range without optional white space |
| `Http1ResponseParserCode.AsciiEqualsIgnoreCase` | src/load/http1/response-parser.ts:404-424 | compares a range with a lower-case text without regard to case |
| `HistogramAccuracy.QuantileAccuracy` | src/measurement/bounded-latency-recorder.ts:242-267 | for any samples and fraction q the reported quantile is present exactly when a sample is accepted, and it is the representative of, and within the relative accuracy of, the value v with the nearest rank by counting: the least accepted sample such that at least q times their number are at most v |
| `HistogramAccuracy.AverageAccuracy` | src/measurement/bounded-latency-recorder.ts:269-290 | the reported average is the mean of the representatives of the accepted samples, and within the relative accuracy of their true mean |
| `HistogramAccuracy.NearestRankExactly` | src/statistics/quantile.ts:43-55 | the exact quantile of a list is v if and only if v is the least element such that at least q times the length of the list are at most v |
| `HistogramAccuracy.CountersExact` | src/measurement/bounded-latency-recorder.ts:145-178 | each counter counts its own kind: values that are not finite, those above zero and below the lowest, those above the highest, zeros, and those within the bounds of bucket i |
| `HistogramAccuracy.BucketCountExact` | src/measurement/bounded-latency-recorder.ts:129-142 | there is one bucket more than the first index whose lower bound reaches the highest latency |
| `HistogramAccuracy.BoundsExact` | src/measurement/bounded-latency-recorder.ts:318-336 | bucket bounds begin at the lowest latency and grow by the factor of one plus twice the accuracy |
| `HistogramAccuracy.QuantileMonotone` | src/measurement/bounded-latency-recorder.ts:213-222 | quantiles of ordered fractions are ordered, from zero up to `highestTrackableMs` |
| `HistogramMerge.NeverFallsThrough` | src/measurement/bounded-latency-recorder.ts:242-267 | whatever was recorded and whatever snapshots were merged, valid or not, the scan of the buckets finds the rank of every fraction, so the last return is never taken |
| `HistogramAccuracy.FallThroughUnreachable` | src/measurement/bounded-latency-recorder.ts:300-314 | the same for any counters that pass the last check of a snapshot, as in a summary of one |
| `HistogramAccuracy.CountersCount` | src/measurement/bounded-latency-recorder.ts:145-178 | the zero counter and the first n buckets together count exactly the accepted samples below the lower bound of bucket n |
| `HistogramAccuracy.AllObserved` | src/measurement/bounded-latency-recorder.ts:145-178 | every sample is counted once: accepted, not finite, below or above the range |
| `HistogramAccuracy.ExactQuantileBucket` | src/measurement/bounded-latency-recorder.ts:247-258 | the exact nearest-rank value is zero or lies in the bucket that the scan stops at |
| `HistogramAccuracy.MidpointAccuracy` | src/measurement/bounded-latency-recorder.ts:259-262 | the reported value of a bucket is within the relative accuracy of every value in it |
| `LatencyHistogram.BucketIndex` | src/measurement/bounded-latency-recorder.ts:171-174 | the index is the bucket whose bounds enclose the value |
| `LatencyHistogram.ClampNeverBinds` | src/measurement/bounded-latency-recorder.ts:134-141 | every value in range has a bucket below the bucket count, so the clamp changes nothing |
| `NearestRank.ToSorted` | src/statistics/quantile.ts:57-59 | sorting keeps the values and orders them |
| `NearestRank.NearestIndex` | src/statistics/quantile.ts:52-54 | the index of the nearest rank is inside the list; which value is there is `HistogramAccuracy.NearestRankExactly` |
| `HistogramAccuracy.ExactQuantileRank` | src/statistics/quantile.ts:43-55 | the exact quantile is the sorted value of the recorder's rank |
| `HistogramMerge.MergeHomomorphism` | src/measurement/bounded-latency-recorder.ts:181-193 | merging the snapshots of any number of recorders with one configuration, in any order, succeeds exactly when all their counters are safe integers, and then equals one recorder fed all their samples in any order |
| `HistogramMerge.MergeParts` | src/measurement/bounded-latency-recorder.ts:181-193 | merging into a recorder that has recorded before equals recording everything |
| `HistogramMerge.OwnSnapshotValid` | src/measurement/bounded-latency-recorder.ts:338-375 | a recorder's own snapshot passes validation if and only if its counters are safe integers |
| `HistogramMerge.ValidExactly` | src/measurement/bounded-latency-recorder.ts:338-375 | a snapshot passes validation, with nothing counted in a last bucket that no latency reaches, if and only if it is of version 1 and this configuration, its counters are safe integers, and some recorder took it |
| `HistogramMerge.RecordAppend` | src/measurement/bounded-latency-recorder.ts:145-193 | recording two lists is adding the two histograms |
| `HistogramMerge.RecordPermutation` | src/measurement/bounded-latency-recorder.ts:145-178 | the histogram does not depend on the order of the samples |
| `BoundedLatencyRecorderCode.NewRecorder` | src/measurement/bounded-latency-recorder.ts:129-142 | refuses exactly the invalid configurations and those that need too many buckets, and otherwise allocates an empty recorder |
| `BoundedLatencyRecorderCode.BoundedLatencyRecorder.Record` | src/measurement/bounded-latency-recorder.ts:145-178 | updates one counter in place as specified |
| `BoundedLatencyRecorderCode.BoundedLatencyRecorder.Merge` | src/measurement/bounded-latency-recorder.ts:181-193 | adds a valid snapshot bucket by bucket; an invalid one throws and changes nothing |
| `BoundedLatencyRecorderCode.BoundedLatencyRecorder.TakeSnapshot` | src/measurement/bounded-latency-recorder.ts:196-207 | copies the configuration and every counter |
| `BoundedLatencyRecorderCode.BoundedLatencyRecorder.Reset` | src/measurement/bounded-latency-recorder.ts:233-240 | clears every counter |
| `BoundedLatencyRecorderCode.BoundedLatencyRecorder.ReadQuantile` | src/measurement/bounded-latency-recorder.ts:242-267 | the scan loop computes the specified quantile |
| `BoundedLatencyRecorderCode.BoundedLatencyRecorder.ReadAverage` | src/measurement/bounded-latency-recorder.ts:269-290 | the summing loop computes the specified average |
| `EngineTheorems.CapacityNeverExceeded` | src/load/http1/http1-connection.ts:171-290 | in every reachable state queued, batched and held-back requests of a connection fit the pipeline, and neither the pipeline overflow of a send nor the scheduler-capacity error of a scheduled operation is ever thrown |
| `EngineTheorems.RequestsConserved` | src/load/shared/load-worker.ts:212-237 | in every reachable running state sent = completed + aborted + in flight over all connections, and every posted result satisfies it with `inFlightAtStop` |
| `EngineTheorems.WorkConserved` | src/load/http1/http1-connection.ts:84-131 | in a closed loop before `stopAt`, a connected connection without protocol or timeout failure has in flight plus held back exactly the pipelining depth |
| `EngineTheorems.ResultTallies` | src/load/http1/http1-worker-measurement.ts:14-49 | a posted result lists only codes from 200, their counts add up to its completed responses, those of codes below 300 to the completed responses not counted as failures, and its recorder was fed one latency for each |
| `EngineTheorems.ResultObservations` | src/load/shared/load-worker-measurement.ts:42-46 | the histogram of a posted result has every completed response as an accepted latency or as one rejected for its range |
| `EngineAnswers.ResponsesAnswer` | src/load/http1/http1-load-worker.ts:34-44 | the n responses of a push in a running phase answer the first requests of the queue in order: each is recorded once, with its status and with the time from its queued send time to its own time, and taken off the queue; those beyond the queue are protocol errors; and a closed loop asks for one replacement for each answer before `stopAt` |
| `EngineAnswers.EventMoves` | src/load/http1/http1-load-worker.ts:28-56 | while a phase runs, every event moves the counters by exactly its answers and its errors: latencies, counts by status, timeouts, connection and protocol errors, and aborted requests |
| `EngineAnswers.PhaseCounted` | src/load/shared/load-worker.ts:176-210 | at every point of a phase of any run its counters are those of the answers and errors since its start, with its times and kind |
| `EngineAnswers.ResultExact` | src/load/shared/load-worker.ts:212-237 | a posted result has one latency for each request answered in the measurement, first in first out, each the time from its send time to its response; the counts by status of these answers; the errors of the phase; and what is in flight |
| `EngineConnections.ConnectionsMove` | src/load/http1/http1-connection.ts:61-302 | in every run, what each event does to each connection: answered or aborted requests leave the front of its queue, those that it sends join it with the time of the event, a refused write begins backpressure and a drain or a close ends it, and the socket, the reconnection, the failures noticed and the parser follow the events; a tick only appends to queues of connections that are not held back |
| `EngineMessages.MessagesInRun` | src/load/shared/load-worker.ts:86-250 | in every run phase and messages move by one table: ready with the event that completes the connections, `warmup-complete` with the one that takes the last request in flight of a warmup that is over, the result with the end of a measurement, a fatal error with a start out of turn, and nothing else |
| `EngineTimes.LatenciesNonNegative` | src/load/http1/http1-connection.ts:253-264 | in every run, with or without correction for coordinated omission, no queued send time is in the future and no latency recorded or posted is negative |
| `EngineTimes.DispatchTimes` | src/load/shared/load-worker.ts:299-319 | what a tick hands over carries a scheduled time that is not in the future |
| `EngineTimes.AnswerTimes` | src/load/http1/http1-load-worker.ts:34-39 | a response is counted no earlier than the send time it takes |
| `EngineTimes.StepKeepsTimes` | src/load/shared/load-worker.ts:86-324 | every event keeps the times in order |
| `EngineTheorems.PostsInOrder` | src/load/shared/load-worker.ts:212-237 | ready is posted at most once, and a result or a fatal error only as the last message of a finished worker |
| `EngineTheorems.ReadyInRun` | src/load/shared/load-worker.ts:86-93 | in every run ready is posted by an event after which every connection is connected |
| `EngineTheorems.WarmupInRun` | src/load/shared/load-worker.ts:239-250 | in every run an event that posts `warmup-complete` leaves the worker idle with nothing in flight |
| `EngineTheorems.IdleIsDrained` | src/load/shared/load-worker.ts:239-250 | an idle worker has nothing in flight, batched or held back |
| `EngineTheorems.QuietInRun` | src/load/shared/load-worker.ts:45-51 | in every run no event outside a running phase, but the start of one, adds to a queue: nothing is sent |
| `EngineTheorems.TickInRun` | src/load/shared/load-worker.ts:285-324 | in every run a rate tick sends exactly the smaller of the arrivals due and the free slots of the eligible connections, and drops the rest; an arrival counts as taken if and only if it was before or its time, written out, is not after the tick and `stopAt` |
| `EngineArrivals.ArrivalsInRun` | src/load/shared/load-worker.ts:285-324 | in every run a tick appends to the queues exactly the next arrivals of the worker, as many as it sends and without a gap, with their scheduled times or, without correction for coordinated omission, with the time of the tick |
| `EngineArrivals.DueInRun` | src/load/shared/load-worker.ts:285-324 | in every run, after a tick of a running fixed-rate phase arrival k of this worker has been taken if and only if it had been before or startedAt + (offset + 1 + k * stride) * 1000 / rate is not after the tick and not after `stopAt` |
| `EngineArrivals.TickArrivals` | src/load/shared/load-worker.ts:285-324 | the same for one tick on any state that satisfies the invariant |
| `EngineArrivals.DispatchHolds` | src/load/shared/load-worker.ts:299-319 | what the loop over the arrivals due hands over are the next arrivals in order |
| `EngineArrivals.FlushHolds` | src/load/http1/http1-connection.ts:197-204 | flushing moves the batches into the queues, behind what is there |
| `EngineTheorems.RateAccounted` | src/load/shared/load-worker.ts:285-324 | while a fixed rate runs, sent plus dropped are the arrivals taken, all of which are due by their written-out times, and every sent one was scheduled |
| `EngineRuns.RateTickExact` | src/load/shared/load-worker.ts:285-324 | one tick on any state that satisfies the invariant: sent, dropped and taken arrivals, those due by their written-out times |
| `EngineRuns.RunKeepsInv` | src/load/shared/load-worker.ts:86-250 | every state of every run satisfies the invariant |
| `EngineRuns.StepKeepsInv` | src/load/shared/load-worker.ts:86-250 | every event of worker and connections keeps the invariant behind these results |
| `EngineRuns.InitialOk` | src/load/shared/load-worker.ts:23-33 | a new worker satisfies the invariant |
| `EngineRuns.RateTickOk` | src/load/shared/load-worker.ts:285-324 | a tick keeps the invariant although the batches are filled before they are flushed |
| `EngineRuns.StartOk` | src/load/shared/load-worker.ts:176-210 | starting a phase, or failing to, keeps the invariant |
| `EngineRuns.StopTimerOk` | src/load/shared/load-worker.ts:212-237 | ending a phase keeps the invariant and posts a balanced result |
| `EngineInvariant.DataOk` | src/load/http1/http1-connection.ts:84-117 | the data handler keeps the invariant: every response is replaced while the closed loop goes on |
| `EngineInvariant.ResponsesOk` | src/load/http1/http1-load-worker.ts:34-44 | the response callbacks owe exactly the replacement requests they ask for |
| `EngineInvariant.CloseOk` | src/load/http1/http1-connection.ts:142-168 | closing keeps the invariant: what was in flight is counted as aborted once |
| `EngineInvariant.CloseInOnePiece` | src/load/http1/http1-connection.ts:147-163 | the idle check before the queue is cleared and the one after it amount to the one after it |
| `EngineInvariant.DrainOk` | src/load/http1/http1-connection.ts:118-131 | the drain handler sends exactly what was held back |
| `EngineInvariant.ConnectOk` | src/load/http1/http1-connection.ts:71-83 | a connection that comes up is filled to the pipelining depth |
| `EngineInvariant.ReconnectOk` | src/load/http1/http1-connection.ts:292-302 | the reconnection timer keeps the invariant |
| `EngineInvariant.CompleteWarmupOk` | src/load/shared/load-worker.ts:239-250 | the idle check keeps the invariant |
| `EngineScheduler.EarlyExitSame` | src/load/shared/load-worker.ts:299-319 | dropping everything at the first arrival that finds no connection gives the connections, the cursor and the counts of trying each arrival |
| `EngineScheduler.DispatchExact` | src/load/shared/load-worker.ts:299-319 | the loop hands over exactly the smaller of the arrivals due and the free slots, and uses up that many slots |
| `EngineScheduler.FullRound` | src/load/shared/load-worker.ts:326-340 | the search fails if and only if no connection can take an operation, and then the cursor is where it was |
| `EngineScheduler.SearchFinds` | src/load/shared/load-worker.ts:326-340 | the search takes the first connection with a free slot in turn from the cursor and moves the cursor just behind it |
| `EngineScheduler.ArrivalsPartition` | src/load/shared/load-worker.ts:292-302 | among the workers of one load every arrival up to g belongs to exactly one worker and position, and the numbers of arrivals of the workers add up to g |
| `EngineScheduler.SharesCover` | src/load/shared/load-worker.ts:293-297 | the expected counts of all workers add up to the global count |
| `EngineScheduler.ExpectedExact` | src/load/shared/load-worker.ts:294-297 | a worker's count includes position k exactly when its sequence number is due |
| `EngineScheduler.ExpectedIsDue` | src/load/shared/load-worker.ts:293-297 | the count of expected arrivals includes position k exactly when its written-out time is not after now and not after `stopAt` |
| `EngineScheduler.ScheduledTimes` | src/load/shared/load-worker.ts:293-303 | scheduled times are after the start, strictly increasing, and not after now or `stopAt` |
| `LoadWorkerCode.LoadWorker.StartPhase` | src/load/shared/load-worker.ts:176-210 | starts a phase or fails, as specified |
| `LoadWorkerCode.LoadWorker.BeginPhase` | src/load/shared/load-worker.ts:181-199 | resets the counters and the schedule |
| `LoadWorkerCode.LoadWorker.FillConnections` | src/load/shared/load-worker.ts:201-204 | fills the connections in order |
| `LoadWorkerCode.LoadWorker.EndPhase` | src/load/shared/load-worker.ts:212-237 | ends a warmup by draining and a measurement by posting its result |
| `LoadWorkerCode.LoadWorker.OnConnectionIdle` | src/load/shared/load-worker.ts:100-104 | completes a drained warmup |
| `LoadWorkerCode.LoadWorker.OnConnectionConnected` | src/load/shared/load-worker.ts:86-93 | counts the connection, posts ready for the last one, and fills it |
| `LoadWorkerCode.LoadWorker.OnDataReceived` | src/load/http1/http1-connection.ts:84-117 | the data handler with its response callbacks |
| `LoadWorkerCode.LoadWorker.RespondAll` | src/load/http1/http1-connection.ts:94-107 | the response callbacks of one push in order |
| `LoadWorkerCode.LoadWorker.Respond` | src/load/http1/http1-load-worker.ts:34-44 | one response callback with the owner's counting |
| `LoadWorkerCode.LoadWorker.OnSocketClosed` | src/load/http1/http1-connection.ts:142-168 | the close handler |
| `LoadWorkerCode.LoadWorker.DisconnectSocket` | src/load/shared/load-worker.ts:95-98 | reports a disconnection and checks for idleness |
| `LoadWorkerCode.LoadWorker.AbortRequests` | src/load/http1/http1-load-worker.ts:28-32 | counts what was in flight as aborted and clears it |
| `LoadWorkerCode.LoadWorker.Fail` | src/load/shared/load-worker.ts:77-84 | stops everything and posts a fatal error |
| `LoadWorkerCode.LoadWorker.CountInFlight` | src/load/shared/load-worker.ts:275-283 | sums what is in flight |
| `LoadWorkerCode.LoadWorker.ResetConnections` | src/load/shared/load-worker.ts:244-246 | resets every connection |
| `LoadWorkerCode.LoadWorker.StopConnections` | src/load/shared/load-worker.ts:269-273 | stops every connection |
| `LoadWorkerCode.LoadWorker.NextAvailableRateConnection` | src/load/shared/load-worker.ts:326-340 | the search from the cursor |
| `LoadWorkerCode.LoadWorker.DispatchDue` | src/load/shared/load-worker.ts:299-319 | the loop over the arrivals due, ended by the first operation that its connection refuses |
| `LoadWorkerCode.LoadWorker.ScheduleOperation` | src/load/http1/http1-connection.ts:189-195 | hands an arrival to a connection, which throws exactly when it cannot take it |
| `LoadWorkerCode.LoadWorker.FlushAll` | src/load/shared/load-worker.ts:321-323 | flushes every batch in order |
| `LoadWorkerCode.LoadWorker.ScheduleRate` | src/load/shared/load-worker.ts:285-324 | one rate tick |
| `Http1ConnectionCode.Http1Connection.Send` | src/load/http1/http1-connection.ts:240-290 | queues one send time for each request, counts them and notes backpressure, or throws when they do not fit |
| `Http1ConnectionCode.Http1Connection.ReplenishClosedLoop` | src/load/http1/http1-connection.ts:226-238 | sends, or holds back under backpressure |
| `Http1ConnectionCode.Http1Connection.FillClosedLoop` | src/load/http1/http1-connection.ts:171-177 | fills an empty connection |
| `Http1ConnectionCode.Http1Connection.CanScheduleOperation` | src/load/http1/http1-connection.ts:179-187 | whether a slot is free |
| `Http1ConnectionCode.Http1Connection.ScheduleOperation` | src/load/http1/http1-connection.ts:189-195 | adds to the batch or throws |
| `Http1ConnectionCode.Http1Connection.FlushScheduledOperations` | src/load/http1/http1-connection.ts:197-204 | sends and empties the batch |
| `Http1ConnectionCode.Http1Connection.TakeResponse` | src/load/http1/http1-connection.ts:94-107 | answers the oldest request, or reports a protocol error when there is none |
| `Http1ConnectionCode.Http1Connection.ParseChunk` | src/load/http1/http1-connection.ts:91-94 | feeds the parser |
| `Http1ConnectionCode.Http1Connection.OnDrain` | src/load/http1/http1-connection.ts:118-131 | ends backpressure and sends what was held back |
| `Http1ConnectionCode.Http1Connection.ResetPhaseState` | src/load/http1/http1-connection.ts:211-214 | forgets batch and held-back requests |
| `Http1ConnectionCode.Http1Connection.Stop` | src/load/http1/http1-connection.ts:216-224 | stops and empties the connection |
| `Http1ConnectionCode.Http1Connection.Connect` | src/load/http1/http1-connection.ts:61-69 | opens a socket unless stopped or open |
| `Http1ConnectionCode.Http1WorkerMeasurement.RecordResponse` | src/load/http1/http1-worker-measurement.ts:14-22 | counts a response by status and records its latency |
| `Http1ConnectionCode.Http1WorkerMeasurement.RecordSent` | src/load/http1/http1-load-worker.ts:52-56 | counts sent and scheduled requests |
| `Http1ConnectionCode.Http1WorkerMeasurement.Start` | src/load/shared/load-worker-measurement.ts:139-157 | clears every counter |
| `Http1ConnectionCode.Http1WorkerMeasurement.ResetProtocolMetrics` | src/load/http1/http1-worker-measurement.ts:32-35 | clears the counts by status |
| `Http1ConnectionCode.Http1WorkerMeasurement.LatencySnapshot` | src/load/shared/load-worker-measurement.ts:116-116 | the snapshot of a result is that of the histogram of all latencies recorded |
| `Http1ConnectionCode.Http1WorkerMeasurement.StatusCodesResult` | src/load/http1/http1-worker-measurement.ts:37-49 | the loop lists exactly the codes from 100 that occurred, with their counts |
| `TimestampQueueCode.TimestampQueue.Push` | src/load/shared/timestamp-queue.ts:29-43 | appends a pair of times to the queue, or throws exactly when it is full |
| `TimestampQueueCode.TimestampQueue.Shift` | src/load/shared/timestamp-queue.ts:45-56 | removes and returns the oldest latency start, with its timeout start |
| `TimestampQueueCode.TimestampQueue.PeekTimeoutStart` | src/load/shared/timestamp-queue.ts:21-27 | returns the oldest timeout start |
| `TimestampQueueCode.TimestampQueue.Clear` | src/load/shared/timestamp-queue.ts:58-61 | empties both clocks |
| `TimestampQueueCode.RingPush` | src/load/shared/timestamp-queue.ts:34-42 | writing at the wrapped position appends to the ring |
| `TimestampQueueCode.RingShift` | src/load/shared/timestamp-queue.ts:50-53 | moving the head removes the first of the ring |
| `LoadCoordinatorCode.StartWorkers` | src/load/shared/load-coordinator.ts:48-59 | the connections are shared out completely, one more to each of the first workers when they do not divide evenly, no worker gets none, and offsets and strides make the workers one load |
| `LoadCoordinatorCode.SharesSum` | src/load/shared/load-coordinator.ts:50-54 | the shares of the workers add up |
| `AggregateLoad.AggregateLoadPhase` | src/load/shared/aggregate-load-phase.ts:61-115 | the loop over workers computes the merge of all snapshots and, unless a merge throws, the totals |
| `AggregateLoad.TotalsConserved` | src/load/shared/aggregate-load-phase.ts:91-111 | the totals over results of any runs satisfy sent = completed + aborted + in flight at stop |
| `AggregateLoad.TotalsExact` | src/load/shared/aggregate-load-phase.ts:91-111 | every total is the sum of its own counter over all the workers |
| `AggregateLoad.AggregateAccuracy` | src/load/shared/aggregate-load-phase.ts:128-129 | the aggregated latency describes as many samples as responses were completed by all workers; every percentile is within the relative accuracy of the nearest-rank value of all of them by counting, and the mean of their true mean |
| `AggregateLoad.ReachableResult` | src/load/shared/load-worker.ts:229-235 | a result posted in any run is balanced and its histogram is that of its completed responses |
| `AggregateLoad.SamplesBehind` | src/load/shared/aggregate-load-phase.ts:91-94 | the snapshots of the workers are those of their latencies, of which there is one for each completed response |
| `WebSocketConnection.ConservationExactly` | src/load/websocket/websocket-connection.ts:72-96 | before the connection is stopped, sent = completed + aborted + in flight if and only if no message of an unsupported kind arrived while something was in flight |
| `WebSocketConnection.ConformingConserved` | src/load/websocket/websocket-connection.ts:60-96 | before the connection is stopped, sent = completed + aborted + in flight in every run whose messages are texts or array buffers, which are all that a socket with this binary type delivers |
| `WebSocketConnection.UnsupportedMessage` | src/load/websocket/websocket-connection.ts:77-85 | a message of another kind, which no conforming socket delivers, would take a send time that is neither completed nor aborted |
| `WebSocketConnection.SlotsExactly` | src/load/websocket/websocket-connection.ts:191-215 | every slot handed over by the scheduler is sent if and only if no such send threw |
| `WebSocketConnection.RefusedSlot` | src/load/websocket/websocket-connection.ts:202-209 | a concrete run in which the send of a scheduled operation throws and its slot is not sent |
| `WebSocketConnection.LostExactly` | src/load/websocket/websocket-connection.ts:77-85 | send times are lost, and slots refused, exactly when an event of the run does it |
| `WebSocketConnection.TimerWatchesOldest` | src/load/websocket/websocket-connection.ts:227-248 | no more is in flight than may be, and the timeout timer is armed exactly while something is, for a message than which none is older |
| `WebSocketConnection.WorkConserved` | src/load/websocket/websocket-connection.ts:135-145 | in a closed loop an open connection that is not held back is full, a full socket buffer is being polled, and a connection without a socket is about to get one unless it is stopped |
| `WebSocketConnection.StepOk` | src/load/websocket/websocket-connection.ts:47-318 | every event keeps the invariant behind these results |
| `WebSocketConnection.FillLoopOk` | src/load/websocket/websocket-connection.ts:140-144 | filling ends with a full, held back, closing or discarded connection |
| `WebSocketConnection.MessageOk` | src/load/websocket/websocket-connection.ts:72-96 | the message handler keeps the invariant |
| `WebSocketMoves.EventMoves` | src/load/websocket/websocket-connection.ts:47-318 | in every run, what each event does to the two queues of times and to the counters: a message takes the oldest pair and is counted with its latency start, a send appends its times, of which the latency start is the scheduled one under correction, a discarded socket aborts all, and each error is counted as its own kind |
| `WebSocketMoves.PressureMoves` | src/load/websocket/websocket-connection.ts:135-145 | in every run a connection that keeps its socket is held back exactly from a send that leaves too much in the socket until the socket is found to have room, and sends nothing while it is |
| `WebSocketMoves.SocketMoves` | src/load/websocket/websocket-connection.ts:55-335 | in every run, what each event does to the socket and to the reconnection, and which connections take an operation |
| `WebSocketConnectionCode.WebSocketConnection.SendMessage` | src/load/websocket/websocket-connection.ts:191-225 | one send: refused, thrown and discarded, or queued with both clocks and counted |
| `WebSocketConnectionCode.WebSocketConnection.FillClosedLoop` | src/load/websocket/websocket-connection.ts:135-145 | the sending loop |
| `WebSocketConnectionCode.WebSocketConnection.OnOpened` | src/load/websocket/websocket-connection.ts:62-70 | the open handler |
| `WebSocketConnectionCode.WebSocketConnection.OnMessageEvent` | src/load/websocket/websocket-connection.ts:72-96 | the message handler |
| `WebSocketConnectionCode.WebSocketConnection.TakeTime` | src/load/websocket/websocket-connection.ts:77-87 | the oldest send time answers the message or the socket is discarded |
| `WebSocketConnectionCode.WebSocketConnection.OnCloseEvent` | src/load/websocket/websocket-connection.ts:105-132 | the close handler |
| `WebSocketConnectionCode.WebSocketConnection.OnErrorEvent` | src/load/websocket/websocket-connection.ts:98-103 | the error handler counts one error for each socket |
| `WebSocketConnectionCode.WebSocketConnection.OnTimerEvent` | src/load/websocket/websocket-connection.ts:238-247 | the timeout discards the socket |
| `WebSocketConnectionCode.WebSocketConnection.OnPollEvent` | src/load/websocket/websocket-connection.ts:292-304 | the backpressure poll |
| `WebSocketConnectionCode.WebSocketConnection.OnReconnectEvent` | src/load/websocket/websocket-connection.ts:325-328 | the reconnection |
| `WebSocketConnectionCode.WebSocketConnection.DiscardSocket` | src/load/websocket/websocket-connection.ts:250-277 | aborts what is in flight and schedules a reconnection |
| `WebSocketConnectionCode.WebSocketConnection.ScheduleNext` | src/load/websocket/websocket-connection.ts:161-167 | a scheduled operation is sent, or throws exactly when there is no room |
| `WebSocketConnectionCode.WebSocketConnection.CanScheduleOperation` | src/load/websocket/websocket-connection.ts:147-159 | whether there is room |
| `WebSocketConnectionCode.WebSocketConnection.StopConnection` | src/load/websocket/websocket-connection.ts:174-189 | stops and empties the connection |
| `WebSocketConnectionCode.WebSocketConnection.ScheduleTimeout` | src/load/websocket/websocket-connection.ts:227-236 | arms the timer for the oldest message |
| `Ndjson.SplitInvariance` | src/control/ndjson.ts:47-80 | for every decoder and every way to cut a text: without a failure the messages and the decoder are those of one push, and with one the messages are a prefix |
| `Ndjson.EveryCutAcceptedExactly` | src/control/ndjson.ts:54-79 | a text is accepted in every way of cutting it if and only if one push accepts it and every raw line of it fits the limit |
| `Ndjson.LongStreamRefused` | src/control/ndjson.ts:54-58 | a text with a raw line over the limit is refused in some way of cutting it |
| `Ndjson.TightLine` | src/control/ndjson.ts:54-79 | a concrete text: with a limit of one byte `1` with carriage return and newline is accepted by one push and refused when the newline comes in a second one |
| `Ndjson.BufferBounded` | src/control/ndjson.ts:62-79 | what is retained has no newline and fits the limit |
| `Ndjson.FramesRoundTrip` | src/control/ndjson.ts:24-26 | encoded messages whose frames fit are decoded in order however their text is cut, and the stream ends cleanly |
| `Ndjson.FramesDecode` | src/control/ndjson.ts:60-75 | encoded messages are decoded by one push |
| `Ndjson.DrainAppend` | src/control/ndjson.ts:60-79 | draining a first part and then the rest is draining both |
| `Ndjson.DrainExactly` | src/control/ndjson.ts:60-113 | draining a text emits the values of its lines up to the first that is too long or does not parse, skipping blank ones, retains what follows the last newline if it fits, and fails for exactly the first of these reasons |
| `Ndjson.EndExactly` | src/control/ndjson.ts:87-93 | the end of any pushed text reports a partial frame exactly when what follows the last newline is not blank and nothing has failed before |
| `NdjsonDecoderCode.NdjsonDecoder.Push` | src/control/ndjson.ts:47-80 | the loop emits, retains and fails as specified |
| `NdjsonDecoderCode.NdjsonDecoder.TakeLine` | src/control/ndjson.ts:62-74 | one frame |
| `NdjsonDecoderCode.NdjsonDecoder.End` | src/control/ndjson.ts:87-93 | reports a partial frame that is not blank |
| `NdjsonDecoderCode.NdjsonDecoder.Fail` | src/control/ndjson.ts:95-101 | reports the first failure only |
| `ControlClient.RequestsSettleOnce` | src/target-provider/control-client.ts:106-149 | after any run an issued request is pending with its timer armed and unsettled, or has no timer and is settled exactly once |
| `ControlClient.SuccessIsCorrelated` | src/target-provider/control-client.ts:195-217 | a request succeeds only with a response of its own id and type |
| `ControlClient.FailureIsFinal` | src/target-provider/control-client.ts:230-248 | after a failure nothing is pending, no timer is armed, and every listener still registered has been called |
| `ControlClient.CallsExact` | src/target-provider/control-client.ts:96-104 | a listener is called once if it is registered when the client fails, and once more for each registration after that |
| `ControlClient.CalledTwice` | src/target-provider/control-client.ts:96-104 | a concrete run in which a listener registered again after the failure is called twice |
| `ControlClient.StepKeepsInv` | src/target-provider/control-client.ts:96-248 | every event keeps the correlation invariant |
| `ControlClient.FailOk` | src/target-provider/control-client.ts:230-248 | failing settles every pending request once |
| `ControlClient.ReceiveOk` | src/target-provider/control-client.ts:176-217 | receiving settles at most the request answered, or fails |
| `ControlClient.EventSettles` | src/target-provider/control-client.ts:106-248 | in every run an event settles: all that is pending, oldest first, when it fails the client; else the one request that it times out, could not write or replies to, with that ending; else none |
| `ControlClient.ListenersExact` | src/target-provider/control-client.ts:96-104 | a listener is registered exactly from its registration to its removal |
| `ControlClientCode.ControlClient.Request` | src/target-provider/control-client.ts:106-123 | issues the next id with an armed timer, or refuses after failure or closing |
| `ControlClientCode.ControlClient.OnMessage` | src/target-provider/control-client.ts:176-217 | settles the request answered, or fails |
| `ControlClientCode.ControlClient.Fail` | src/target-provider/control-client.ts:230-248 | the two loops reject what is pending, oldest first, and call the listeners in order |
| `ControlClientCode.ControlClient.OnTimer` | src/target-provider/control-client.ts:117-120 | a timeout rejects its request |
| `ControlClientCode.ControlClient.OnWriteError` | src/target-provider/control-client.ts:138-146 | a failed write rejects its request if it is still pending |
| `ControlClientCode.ControlClient.OnFailure` | src/target-provider/control-client.ts:96-102 | registers a listener once and calls it at once after a failure |
| `ControlClientCode.ControlClient.Unsubscribe` | src/target-provider/control-client.ts:103-103 | removes a listener |
| `ControlClientCode.ControlClient.Close` | src/target-provider/control-client.ts:151-156 | closes once |
| `LifecycleRuns.LockstepExactly` | src/target-provider/session.ts:80-114 | in every run, while the session is ready or measuring, session and agent are in the same state if and only if the agent has not failed, no metrics response lacked a summary object, and no good answer is on its way or waits for its call to continue, whether its request is pending or was given up; a failed agent has its report on the way; and a coming answer or a missing object determines the state of the agent |
| `LifecycleRuns.LockstepContinued` | src/target-provider/session.ts:95-114 | once every call has continued, only a good answer in the channel counts in that condition |
| `LifecycleRuns.LockstepWhileIdle` | src/target-provider/session.ts:80-114 | when besides no request is pending and nothing of one that was given up is on its way, no good answer is coming, and only a missing summary object or an undelivered report of a failed agent keeps the states apart |
| `LifecycleRuns.LockstepOfObjects` | src/target-provider/session.ts:95-114 | with object payloads the two states are equal if and only if the agent has not failed and no good answer is coming, which none is in an idle session |
| `LifecycleRuns.SpoiledRun` | src/target-provider/session.ts:107-111 | a concrete run in which a summary that is no object leaves the session measuring and the agent ready |
| `LifecycleRuns.GivenUpRun` | src/target-provider/control-client.ts:117-120 | a concrete run in which a request given up by its timer leaves the agent one step ahead |
| `LifecycleRuns.MetricsCall` | src/target-provider/session.ts:95-114 | from any state in step, a metrics call can be carried through and takes both sides on, unless its summary is no object |
| `LifecycleRuns.GivenUpCall` | src/target-provider/control-client.ts:117-120 | from any state in step, a call given up while its answer is under way leaves the agent one step ahead |
| `LifecycleRuns.GivenUpEarly` | src/target-provider/control-client.ts:117-120 | from any state in step, a call given up before the agent takes its command leaves the two states equal |
| `LifecycleRuns.LostCall` | src/target-provider/control-client.ts:138-146 | from any state in step, a call whose command is lost on the way leaves both sides in step |
| `LifecycleRuns.StoppedMeansStopped` | src/target-provider/session.ts:165-192 | a stopped session implies that the agent has stopped and its target process has exited |
| `LifecycleRuns.StopCall` | src/target-provider/session.ts:165-191 | from any state in step, a stop can be carried through to a reachable state in which session and agent are stopped, the target has exited and the client is closed |
| `LifecycleRuns.StopContinues` | src/target-provider/session.ts:181-191 | in every reachable state, a stop that has ended continues in a stopping or failed session, never in a stopped one; a stopping session then is stopped if and only if it ended well, and failed otherwise; a failed one stays failed; and the client is closed |
| `LifecycleRuns.FailuresReachTheSession` | src/target-provider/session.ts:80-84 | a failed client leaves no session ready or measuring, and neither does a failed agent whose report has arrived |
| `LifecycleRuns.RepliesAreExpected` | src/target-provider/control-client.ts:195-206 | the next reply on the channel answers a request of its type that is pending, unless that was given up |
| `LifecycleRuns.KindsNeverMismatch` | src/target-provider/control-client.ts:204-208 | no run rejects a request for the type of its response |
| `LifecycleRuns.NoWayBack` | src/control/state-machine.ts:10-17 | later in a run neither side has restarted, resumed after stopping, or left stopped or failed |
| `LifecycleMoves.SessionMoves` | src/target-provider/session.ts:80-192 | in every run the session moves only so: to measuring when metrics:start succeeded, back to ready when metrics:stop brought an object, to stopping when a stop was asked for, to stopped when it succeeded, and to failed when it did not or the client fails first |
| `LifecycleMoves.CallsMove` | src/target-provider/session.ts:95-181 | in every run the session's calls put one command with the next id at the end of the channel, by the state they find, or none |
| `LifecycleMoves.TakenMoves` | src/agent/agent.ts:181-221 | in every run the agent takes a command in hand or refuses it, by its state |
| `LifecycleMoves.FinishedMoves` | src/agent/agent.ts:194-225 | in every run a command that ends well moves the agent as its kind says, with a good answer, if the agent still is in the state for it, and is answered with an error otherwise |
| `LifecycleMoves.OtherMoves` | src/agent/agent.ts:172-280 | in every run, what a refused command, an exit of the target and closing do to the agent and the channel |
| `LifecycleRuns.StepKeepsInv` | src/agent/agent-stdio-runtime.ts:72-86 | every event of session, client, channels and agent keeps the invariant: replies and commands stay in request order, and at most one good answer is under way |
| `LifecycleRuns.DeliverOk` | src/target-provider/control-client.ts:176-217 | delivering a message keeps the invariant |
| `LifecycleRuns.ResumeOk` | src/target-provider/session.ts:98-113 | a call that continues after its await keeps the invariant |
| `LifecycleRuns.StopCallOk` | src/target-provider/session.ts:165-181 | stopping keeps the invariant |
| `LifecycleRuns.AnswerOk` | src/agent/agent.ts:149-169 | an answered command keeps the invariant |
| `LifecycleRuns.TakeOk` | src/agent/agent.ts:181-204 | taking a command in hand keeps the invariant |
| `LifecycleRuns.AgentEventOk` | src/agent/agent.ts:260-280 | an exit of the target and the closing of the agent keep the invariant |
| `Lockstep.LockedFinish` | src/agent/agent.ts:194-216 | a metrics command that ends well is one of the session's current state and takes the agent one step ahead |
| `Lockstep.LockedResumeOk` | src/target-provider/session.ts:98-111 | the call that continues takes the session to where the agent is |
| `Lockstep.WiredDeliver` | src/target-provider/control-client.ts:195-206 | delivery keeps every other message on the way awaited and in order |
| `TargetStates.TargetStateMachine.Transition` | src/control/state-machine.ts:45-51 | applies exactly the transitions of the table and refuses the others |
| `LifecycleCode.ManagedTargetSession.constructor` | src/target-provider/session.ts:68-85 | registers the failure listener, which a failed client calls at once |
| `LifecycleCode.ManagedTargetSession.OnClientFailure` | src/target-provider/session.ts:80-84 | the failure listener |
| `LifecycleCode.ManagedTargetSession.StartMetrics` | src/target-provider/session.ts:95-98 | issues metrics:start only from ready |
| `LifecycleCode.ManagedTargetSession.MetricsStarted` | src/target-provider/session.ts:98-100 | startMetrics after its await |
| `LifecycleCode.ManagedTargetSession.StopMetrics` | src/target-provider/session.ts:102-105 | issues metrics:stop only where ready may follow |
| `LifecycleCode.ManagedTargetSession.MetricsStopped` | src/target-provider/session.ts:105-114 | stopMetrics after its await, which needs a summary object |
| `LifecycleCode.ManagedTargetSession.Stop` | src/target-provider/session.ts:165-181 | stop up to its await, by the state it finds |
| `LifecycleCode.ManagedTargetSession.StopEnds` | src/target-provider/session.ts:181-191 | stop after its await: it returns normally exactly when the stop succeeded in a stopping session, which then is stopped; otherwise the session is failed unless it was stopped before; the client is closed in every case |
| `LifecycleCode.BenchkitAgent.Dispatch` | src/agent/agent.ts:181-221 | handles a command up to its await or refuses it by the table |
| `LifecycleCode.BenchkitAgent.Complete` | src/agent/agent.ts:194-225 | checks the transition again and answers |
| `LifecycleCode.BenchkitAgent.Reject` | src/agent/agent.ts:160-169 | answers with an error |
| `LifecycleCode.BenchkitAgent.OnTargetExit` | src/agent/agent.ts:260-280 | an unexpected exit fails the agent and is reported |
| `LifecycleCode.BenchkitAgent.TerminateTarget` | src/agent/agent.ts:407-414 | expects the exit of a running target |
| `LifecycleCode.BenchkitAgent.Close` | src/agent/agent.ts:172-179 | closes, after reporting a fatal error |

## Left out

- Sockets, TLS, worker threads, child processes, SSH and the clock: events and their times are inputs. A socket's
  answers (write accepted, send throws, bytes buffered) are inputs as well, and the identity of a socket is the flag
  that a connection has one; events of a socket that was let go of are ignored by the source and left out.
- Floating point: histogram bounds, latencies and times are reals, and the bucket index is the exact floor of the
  logarithm. The overflow tests of the length parsers are stated on integers, on which the rounded test agrees.
- Bytes sent and received, send calls, backpressure counts and waits, schedule lag, memory and event-loop utilisation:
  plain sums, of which the backpressure wait may mix phases because it is recorded without a phase check.
- Http1ConnectionCode.Http1Connection.Send: leaves out the schedule lag, the bytes and the number of send calls.
- Http1ConnectionCode.Http1Connection.Connect: leaves out registering the socket handlers and the idle timeout, which are
  events of the worker.
- Http1ConnectionCode.Http1WorkerMeasurement.RecordSent: leaves out the bytes sent and the schedule lag.
- Http1ConnectionCode.Http1WorkerMeasurement.Start: leaves out the baselines of memory and event-loop utilisation and the
  counters of bytes and lag.
- AggregateLoad.AggregateLoadPhase: leaves out the totals of bytes, send calls, backpressure, lag and utilisation.
- WebSocketConnectionCode.WebSocketConnection.SendMessage: leaves out the peak of buffered bytes and the schedule lag.
- WebSocketConnectionCode.WebSocketConnection.OnPollEvent: leaves out the peak of buffered bytes.
- ControlClientCode.ControlClient.Close: leaves out ending stdin and terminating the child process.
- LifecycleCode.BenchkitAgent.TerminateTarget: states the expected exit; the shutdown request, the waits and the signals
  are left to the exit event.
- LifecycleCode.BenchkitAgent.Close: states the report and the termination; the closed flag and the wait for the exit are
  left to events.
- One handler reads one clock in the model, except the data handler, which reads one for each response.
- `LoadWorkerCode.LoadWorker` holds its connections and counters by value; the objects of one connection and of the
  counters are in `Http1ConnectionCode`, without the aliasing between the three.
- `Http1ResponseParserCode.ParseHeadersRange`: returns the framing instead of filling a shared record.
- `NearestRank.ToSorted`: sorts by insertion where the source calls the library; the filter of non-finite values is the
  recorder's own.
- The WebSocket worker: its connection is modelled during one recorded phase with its own share of the counters; phase
  changes are those of the shared worker, and the latency histogram is the one modelled for HTTP/1.
- `resetPhaseState` of the WebSocket connection, which only acts between phases.
- NDJSON over buffers: a chunk is a string, because each buffer is decoded on its own; surrogate pairs are one
  character. JSON is abstract: parsing inverts printing, and printed text has no newline and is not blank.
- Listeners that register, unregister or throw while they are being called.
- `ControlClient.waitForAgent`, the diagnostics buffer and the ids' process number.
- The order in which calls continue when a write waits for the drain of stdin: the model lets them continue in any order.
- Target start: the lifecycle begins when `target:start` has been answered and the session has been created with a
  client that has not failed; `LifecycleCode.ManagedTargetSession.constructor` covers a failed one.
- The agent's own map of requests to the target runtime: at most one command is in execution, and it ends well, or with
  an error, timeout or exit.
- The promise chains of `src/agent/agent-stdio-runtime.ts`: they are the order of the two channels and the one command
  in execution.
- Reachability probing, option normalisation, reporting, profiling, regression checks and the remaining providers.
