# A verified model of the gateway's core

The gateway speaks three client protocols (Chat Completions, Responses, Messages), serves each request
from a list of upstream accounts, and converts streams between protocols while they arrive. This project
models the parts of it that keep state over many events and proves what they promise. JSON documents are
datatypes; time, randomness and whatever upstreams, clients and the database answer are inputs.

Objects that the program updates in place are classes (`Encoder`, `Decoder`, `Exchange`, `Handler`,
`Cache`, `Manager`, `Store`, `Renamer`), each method of which is proved against a function of the old
state; the main results are lemmas about these functions, over every event sequence, every run of a loop
or every interleaving of atomic steps.

## What is proved

**Streams.** `StreamSpec` describes the encoder as operations on numbered blocks (open, delta, close) that
are rendered as frames of one protocol; `StreamEncoder.Encoder` refines it, counters, maps and loops
included. `StreamDecoding` and `StreamDecoder` do the same for the three decoders, and `StreamMeaning` says,
about any upstream frames and their order alone, what these decoders report and refuse. The main results are the
round trip (`StreamRoundTrip`), the output grammar with its exact condition (`StreamGrammar`,
`StreamWireGrammar`), conservation of content without any condition (`StreamConservation`) and index
allocation (`StreamEncoder`). `StreamConversion` puts decoder and encoder together, `SseFraming` reads
and writes the frames as text, and `SseMeaning` says what any lines of text mean. `Antigravity` is the decoder
that holds tool events back until the signed turn is stored; `AntigravityMeaning` says which streams it
accepts and what they mean.

**Failover.** `Failover` is the loop over the routes of a request with the four ways an answer is passed on
and the record of its visits, of which exactly the admitted ones call;
`Delivery` says what upstream, log and client do and what the client was sent. `Routes`, `RouteLoading` and
`Affinity` show that the routes the loop gets stand together by candidate, which its termination and
"a candidate given up is not tried again" rest on, and which routes a load has to answer with. `Breaker` is the circuit breaker as a history of
questions and reports.

**Concurrent protocols.** `ConfigCache` interleaves loads of several queries with committed writes and their
later invalidations; `LoginFlows` interleaves the steps of logins, one per lock region; `Credentials`
interleaves refreshes, marks and administrators' edits of accounts and of their providers, one per guarded
update or transaction.

**Rewriting and clean-up.** `CallIDs` shortens call IDs, `AntigravityHistory` restores signed tool turns,
`Cleanup` deletes and prunes logs in batches.

## Where the code does less than one might expect

- Reasoning that resumes after other content is written into a Messages block or Responses item that was
  already closed. `StreamRoundTrip.LateThought` shows the delta, `StreamRoundTrip.MessagesReadableIff` that
  the decoder refuses exactly these streams, and the grammar lemmas that the output is ungrammatical exactly
  then, or when the tools themselves come out of order.
- A streamed Responses answer always ends completed: `StreamRoundTrip.StopSurvives` says for which stop
  reasons nothing is lost.
- A frame whose name or payload ends in a carriage return loses it (`SseFraming.FramesReturn`).
- Answers of an assistant message that stands right after a user's answers join their entry and leave under
  the role `user`: `AntigravityHistory.RolesKeptIff` says exactly when every message keeps its role.
- A failure at an older revision is not counted while a newer one is (`Breaker.NewerCounts`); from then on
  `Breaker.ThreeFailuresRefuse` holds.
- Retention looks at the state of a request and not at its attempts: `Cleanup.RetentionSparesIff` says exactly
  when a request with an attempt in progress is spared, while clean-up on demand spares all of them
  (`Cleanup.BusyUntouched`).

## Model

| member | source | states |
|---|---|---|
| StreamRoundTrip.RoundTrip | internal/protocol/stream_encode.go:59-501 | Decoding what the encoder wrote for any readable sequence (calls named; every tool started once, then its deltas, none after its end; for Messages no reasoning after other content) gives back the same content pieces in the same order, the stop reason and usage the protocol carries, and one done, last |
| StreamRoundTrip.StopSurvives | internal/protocol/stream_encode.go:441-498 | The stop reason survives Chat and Messages; through Responses it survives if and only if it merely says whether a tool was started |
| StreamRoundTrip.UsageSurvives | internal/protocol/stream_encode.go:441-501 | Counter by counter, the usage that comes back is what was reported last, 0 where nothing was, and nothing where the protocol has no place for it or the client did not ask |
| StreamRoundTrip.LengthLost | internal/protocol/stream_encode.go:494-498 | An answer cut short for length reads as a plain stop through Responses |
| StreamRoundTrip.MessagesReadableIff | internal/protocol/stream_encode.go:84-91 | With tools in order, the Messages stream can be decoded if and only if no reasoning resumes after other content: the closed block is written to again otherwise, and the decoder refuses that |
| StreamRoundTrip.LateThought | internal/protocol/stream_encode.go:110-165 | Reasoning that resumes writes its delta to the block that was closed |
| StreamRoundTrip.ResumedThoughtFails | internal/protocol/stream_encode.go:84-91 | Reasoning, text, reasoning: the Messages output breaks the grammar and no client can read it |
| StreamRoundTrip.PlayAll | internal/protocol/stream_decode.go:53-395 | A decoder fed the frames of any playable run of block operations returns exactly their content and remembers exactly the open calls |
| StreamRoundTrip.RunFaithful | internal/protocol/stream_encode.go:305-355 | The operations of a run carry each event's content under its own call ID |
| StreamWireGrammar.MessagesGrammarIff | internal/protocol/stream_encode.go:59-108 | The Messages output is one start, then per index one block start and one block stop with all deltas between, then the final delta and the stop, if and only if the input sequence is well formed |
| StreamWireGrammar.ResponsesGrammarIff | internal/protocol/stream_encode.go:412-501 | The Responses output opens and closes each item once between created and completed under exactly the same condition |
| StreamGrammar.RunInv | internal/protocol/stream_encode.go:59-108 | After every sequence each block's operations are those the tool and reasoning ledger predicts, and the ledger is out of order exactly when some block's operations are |
| StreamGrammar.StepInv | internal/protocol/stream_encode.go:59-108 | One event keeps that correspondence |
| StreamGrammar.ClosedLanes | internal/protocol/stream_encode.go:412-501 | Closing everything completes every block exactly when the ledger is in order and every named tool was started |
| StreamSpec.Numbered | internal/protocol/stream_encode.go:503-508 | Over every event sequence the Responses frames are numbered 0, 1, 2, ... without gaps |
| StreamConservation.ProseArrives | internal/protocol/stream_encode.go:110-165 | For every sequence and target the client receives exactly the text and the reasoning that were fed before done |
| StreamConservation.ArgumentsArrive | internal/protocol/stream_encode.go:328-350 | For every sequence and target the arguments received at a tool's index are exactly those fed under its key |
| StreamConservation.CompletedWhole | internal/protocol/stream_encode.go:474-501 | The completed response carries, at each index, the whole string fed to that block |
| StreamConservation.SilentAfterDone | internal/protocol/stream_encode.go:59-62 | Whatever arrives after done, nothing more is written |
| StreamEncoder.IndexesDistinctAndDense | internal/protocol/stream_encode.go:381-410 | In every state that mirrors an encoding the text, reasoning and tool indexes handed out are pairwise distinct and are exactly 0 up to the counter |
| StreamEncoder.Encoder.ResponseOutput | internal/protocol/stream_encode.go:536-549 | The output array has one item per block, each at its own index: no hole and no overwritten slot |
| StreamEncoder.Encoder.Encode | internal/protocol/stream_encode.go:59-108 | One event changes the fields and writes the frames that the abstract encoder prescribes, Responses frames numbered on |
| StreamEncoder.Encoder.EncodeText | internal/protocol/stream_encode.go:249-303 | Text opens its block on first use and appends to it |
| StreamEncoder.Encoder.EncodeReasoning | internal/protocol/stream_encode.go:110-165 | Reasoning opens its block on first use and appends to it, closed or not |
| StreamEncoder.Encoder.CloseReasoning | internal/protocol/stream_encode.go:167-190 | The reasoning block is closed once, with its whole text |
| StreamEncoder.Encoder.Tool | internal/protocol/stream_encode.go:381-410 | A tool is found under its key and completed, or filed with the next index |
| StreamEncoder.Encoder.EncodeToolStart | internal/protocol/stream_encode.go:305-326 | A start event opens the tool's item |
| StreamEncoder.Encoder.EncodeToolDelta | internal/protocol/stream_encode.go:328-350 | Argument deltas are appended and written at the tool's index |
| StreamEncoder.Encoder.CloseTool | internal/protocol/stream_encode.go:357-379 | A tool is closed once, with its whole arguments |
| StreamEncoder.Encoder.FinishStream | internal/protocol/stream_encode.go:412-501 | Finishing starts the stream if needed, closes tools in filing order, then reasoning, then text, and concludes |
| StreamEncoder.EncodeStream | internal/protocol/stream_encode.go:59-108 | Encoding event by event writes exactly the encoding of the whole sequence, Responses frames numbered from 0, and leaves indexes that are distinct and have no hole, for every sequence |
| StreamDecoder.Decoder.DecodeChatFrame | internal/protocol/stream_decode.go:53-126 | A Chat chunk updates the memory and yields the events the decoding function prescribes, loops included |
| StreamDecoder.Decoder.DecodeMessagesFrame | internal/protocol/stream_decode.go:128-260 | A Messages event updates the open blocks and yields events, or is refused, as the decoding function prescribes, whose meaning over whole streams is stated by StreamMeaning |
| StreamDecoder.Decoder.DecodeResponsesFrame | internal/protocol/stream_decode.go:262-395 | A Responses event updates the known calls and yields events, or is refused |
| StreamDecoder.DecodeStream | internal/protocol/stream_decode.go:35-51 | Decoding frame by frame yields the events of the whole stream, or fails at the first bad frame |
| StreamMeaning.StreamMeans | internal/protocol/stream_decode.go:35-395 | Any upstream stream is decoded if and only if every frame is understood after those before it, and then the events mean what the frames mean, in order: text, thoughts, calls with IDs and arguments, ends, stop reason, usage, done |
| StreamMeaning.UsageMeans | internal/protocol/stream_decode.go:53-395 | Every decodable stream reports, counter by counter, what its frames reported last, opening frames included |
| StreamMeaning.ProseMeans | internal/protocol/stream_decode.go:53-395 | Every decodable stream says and thinks exactly what its frames carry, block starts included, in their order |
| StreamMeaning.StopMeans | internal/protocol/stream_decode.go:104-119 | The stop reason of a decodable stream is that of the last frame that stops it: out of budget, tools to call, or done, as that frame's own words and the calls before it say |
| StreamMeaning.FrameMeans | internal/protocol/stream_decode.go:35-395 | One frame is decoded exactly if it is understood at its place, and reports what it means there |
| StreamDecoding.FinishEndsTools | internal/protocol/stream_decode.go:107-119 | A Chat finish reason ends every open tool exactly once, in ascending index order, and forgets them |
| StreamDecoder.Ascending | internal/protocol/stream_decode.go:105-109 | The indexes of the open tools come in ascending order, none missing |
| StreamConversion.ConvertStream | internal/protocol/stream.go:106-128 | Converting a stream encodes exactly the decoded events, and for a readable sequence the client can decode the original content |
| SseFraming.RawIsInput | internal/protocol/stream.go:19-53 | For every input the raw parts of the events read concatenate to the whole input |
| SseFraming.ReadTakes | internal/protocol/stream.go:19-53 | Reading from any remaining input gives an event and consumes some of it, so reading ends |
| SseFraming.FramesReturn | internal/protocol/stream.go:130-145 | Frames with one-line names and payloads come back as written if and only if none of them ends in a carriage return |
| SseFraming.ReturnLost | internal/protocol/stream.go:130-145 | A payload ending in a carriage return comes back without it |
| SseFraming.FrameRead | internal/protocol/stream.go:130-145 | One written frame is read back with exactly its bytes as raw part |
| SseFraming.ReadSSEEvent | internal/protocol/stream.go:19-53 | The line loop returns the event of the reading function and leaves the rest of the input |
| SseMeaning.EventMeans | internal/protocol/stream.go:19-53 | Whatever lines stand before an empty one, comments and unknown fields among them, reading takes exactly these; the name is that of the last event field and the data the data fields joined by line feeds |
| SseMeaning.LastEventMeans | internal/protocol/stream.go:45-51 | At the end of input the lines so far are an event too |
| SseMeaning.EveryLine | internal/protocol/stream.go:30-44 | Every line that is not empty is a comment, a field or a field with a value |
| Failover.Serve | internal/gateway/handler.go:329-603 | All payload comes from one attempt, the last one started, and is a beginning of that answer in order: all of it, unless the client was told of a failure or left; positions are consecutive and routes tried in order; at most one attempt per route plus one per OAuth key; a candidate given up, which needs a refused admission or a failed attempt, is never tried again; routes run out only when each was tried, had no credential or was given up; the first visit at which nothing goes wrong is answered whole; attempts are made exactly at the visits that are recorded, pass the breaker where a candidate is entered, and lack nothing for the call, and only for candidates the breaker admitted before |
| Failover.Generate | internal/gateway/handler.go:345-603 | The same for an exchange object; the loop ends although retries step the index back |
| Failover.Exchange.Pass | internal/gateway/handler.go:362-597 | One pass starts an attempt exactly when one can be started, writes payload only if it ends the request, answers whole when nothing goes wrong, and asks for a retry only for an OAuth key not yet retried |
| Failover.Exchange.AttemptDirect | internal/gateway/handler.go:389-597 | A direct or Codex pass, up to the verdict for the loop: without a usable credential it moves on, without a client it ends |
| Failover.Exchange.CallDirect | internal/gateway/handler.go:418-597 | A started direct or Codex call: heartbeats, then one answer, one error, or another route |
| Failover.Exchange.Refused | internal/gateway/handler.go:455-537 | An error status that another account or candidate might serve never becomes the client's answer; which verdict follows is decided by status and code; a retry happens exactly on a Codex 401 without a fresh token or an earlier retry |
| Failover.Exchange.Accepted | internal/gateway/handler.go:540-597 | A failing response asks for another route only if no payload was written; otherwise the client has the answer, an error, or left |
| Failover.Exchange.ProxyPassthrough | internal/gateway/handler.go:797-840 | A passed-through stream is committed at once; completed means every line arrived in order, anything else a beginning of them |
| Failover.Exchange.ProxyConverted | internal/gateway/handler.go:842-901 | Until the first converted chunk only heartbeats are written; completed means every chunk up to the last event arrived in order, anything else a beginning of them |
| Failover.Exchange.ProxyStream | internal/gateway/handler.go:733-778 | A failed stream asks for another route only before its own first chunk; later it ends with an error event; an undisturbed one arrives whole |
| Failover.Exchange.ProxyBuffered | internal/gateway/handler.go:694-731 | A buffered response is written whole, or not at all when it cannot be converted |
| Failover.Exchange.Relay | internal/gateway/codex.go:61-150 | Chunks are held back until the first semantic one, the last one or an earlier commit, and then none is lost or moved; the stream is committed exactly if it was before or one of these comes, and without a commit nothing was sent |
| Failover.Exchange.ProxyCodex | internal/gateway/codex.go:150-223 | A Codex answer: everything up to its last event, or the start of it and an error, unless the client left; a failure goes back to the loop only when nothing of it reached the client or the stream is already committed; a stream that breaks off before its first semantic chunk is left to the loop |
| Failover.Exchange.CodexFailure | internal/gateway/handler.go:559-592 | A failure inside a Codex stream is retried, skipped or answered by its status: retried exactly on a first 401 without a fresh token |
| Failover.Exchange.ProxyAntigravity | internal/gateway/antigravity.go:265-404 | An Antigravity answer: everything up to its last event, or the start of it and an error, unless the client left; a failure goes back to the loop only when nothing of it reached the client |
| Failover.Exchange.AttemptAntigravity | internal/gateway/antigravity.go:133-229 | An Antigravity pass, up to the verdict for the loop |
| Failover.Exchange.CallAntigravity | internal/gateway/antigravity.go:170-229 | The call of an Antigravity pass: a failure before anything was sent is left to the loop or answered |
| Failover.Exchange.AntigravityFailure | internal/gateway/antigravity.go:231-259 | A retryable failure never becomes the client's answer while its state could be stored; which verdict follows is decided by status and code |
| Failover.Exchange.DoUpstream | internal/gateway/stream_heartbeat.go:116-145 | Waiting for headers writes only heartbeats and ends early only at one the client did not take |
| Failover.Exchange.Write | internal/gateway/stream_heartbeat.go:78-93 | The first write commits the stream |
| Failover.Exchange.FinishError | internal/gateway/stream_heartbeat.go:195-198 | An error is an event on a committed stream and a plain response otherwise; it is always the last piece |
| Failover.Skip | internal/gateway/handler.go:1190-1195 | The last route of the candidate's group |
| Failover.Onward | internal/gateway/handler.go:593-597 | After a candidate is given up the next route is the first of another candidate, otherwise the following one |
| Failover.TrailMore | internal/gateway/handler.go:346-362 | One more visit makes an attempt exactly if it is recorded, passes the breaker and lacks nothing, and then its candidate has been admitted |
| Failover.RelayedSoFar | internal/gateway/codex.go:150-223 | A relayed stream that completed is the whole content; any other is a beginning of it |
| Failover.ProgressDropped | internal/gateway/handler.go:1190-1195 | Giving a candidate up leaves none of its routes ahead, because routes stand together |
| Failover.RetriedOnce | internal/gateway/handler.go:499-501 | A retry uses up one OAuth key, so retries end |
| RouteLoading.LoadedGrouped | internal/store/routing.go:131-200 | Whatever rows a load reads, its routes are grouped by candidate |
| RouteLoading.LoadedServes | internal/store/routing.go:131-200 | Every open route belongs to an enabled, available candidate and uses the protocol chosen for it |
| RouteLoading.LoadedExactly | internal/store/routing.go:131-200 | Said about the rows alone: candidate by candidate in row order, an open route for each key in usage order, of the provider's kind, exactly if the candidate is wanted, enabled and available with an eligible protocol and its provider is enabled and has an endpoint for it and keys; otherwise one blocked route |
| RouteLoading.ChosenFirst | internal/store/routing.go:202-219 | The chosen entry is the first eligible one of the request's own protocol, or without any the first eligible one |
| ConfigCache.LoadsDatabase | internal/store/routing.go:131-200 | The answer of an undisturbed load is the one the database has: each candidate with its own provider's rows |
| RouteLoading.ChosenBest | internal/store/routing.go:202-240 | The chosen protocol is eligible, is the request's own when that is eligible, and is missing only when none is |
| RouteLoading.ChooseProtocol | internal/store/routing.go:202-219 | The two loops choose it |
| RouteLoading.ByUsageOrdered | internal/store/routing.go:390-398 | Keys come longest unused first, never used ones before all, none lost |
| RouteLoading.ByUsageStable | internal/store/routing.go:390-398 | Keys last used at the same time keep their order |
| Routes.FilterGrouped | internal/gateway/handler.go:305-321 | Leaving incompatible routes out keeps the rest grouped |
| Affinity.ServedGrouped | internal/gateway/handler.go:281-327 | From the load through availability, affinity and history filter, the loop gets grouped routes |
| Affinity.ReorderedPermutes | internal/gateway/affinity.go:22-41 | Affinity permutes only inside groups: same routes, same candidate at every place |
| Affinity.ReorderedExactly | internal/gateway/affinity.go:22-41 | Group by group: without a live binding nothing moves; with one the bound account's routes come first and both parts keep their order |
| Affinity.BoundFirst | internal/gateway/affinity.go:34-35 | In the group of a live binding the bound account's routes come first |
| Affinity.Handler.AffinityRoutes | internal/gateway/affinity.go:22-41 | The in-place sort yields that order and drops only expired bindings |
| Affinity.Handler.RememberAffinity | internal/gateway/affinity.go:43-82 | The first route of the candidate and account that served is looked up and its session key bound for an hour; a request nobody served or a route not offered binds nothing; the table never exceeds 10000 bindings, and a live one goes only when none had expired and it would expire first |
| Affinity.Handler.Bind | internal/gateway/affinity.go:62-79 | Binding into a full table drops the expired bindings, and the one that expires first only if there are none |
| Affinity.ServedComesFirst | internal/gateway/affinity.go:34-76 | For an hour the account that served comes first in its candidate's group |
| Breaker.RefusedOnlyIf | internal/gateway/handler.go:634-651 | A request is refused only after three failures at its revision since the last reset, within thirty seconds of the last or while a probe is out |
| Breaker.RefusedIff | internal/gateway/handler.go:634-672 | Over every history a request is refused if and only if three failures have been counted at its revision and the last is less than thirty seconds old or a probe is out |
| Breaker.ThreeFailuresRefuse | internal/gateway/handler.go:653-672 | Once no newer revision is counted and as long as nothing resets this one, three more failures have every request at it refused for thirty seconds from the last |
| Breaker.NewerCounts | internal/gateway/handler.go:634-641 | While a newer revision is counted nobody asking for an older one is refused |
| Breaker.OneProbe | internal/gateway/handler.go:648-650 | Between a probe and the next outcome at its revision, or news of a newer one, no other request at that revision is admitted |
| Breaker.HistoryRecorded | internal/gateway/handler.go:653-672 | The stored count, cooldown and probe flag say what the history says |
| Breaker.StaleIgnored | internal/gateway/handler.go:657-659 | Calls with an older revision than the stored one change nothing |
| Breaker.OthersUntouched | internal/gateway/handler.go:634-680 | Candidates do not influence each other |
| Breaker.Handler.CandidateReady | internal/gateway/handler.go:634-651 | The breaker's question, as a step of the history |
| Breaker.Handler.CandidateFailed | internal/gateway/handler.go:653-672 | A reported failure, as a step of the history |
| Breaker.Handler.CandidateSucceeded | internal/gateway/handler.go:674-680 | A reported success, as a step of the history |
| ConfigCache.CacheCoherent | internal/store/routing.go:103-129 | Over every interleaving, a cached answer equals a fresh load up to the last use of an access key, or a writer that matters to it has committed and must still invalidate |
| ConfigCache.CacheHasDatabase | internal/store/routing.go:103-129 | Over every interleaving, what is cached is what the database has, up to the last use of an access key, or a writer that matters to it has committed and must still invalidate |
| ConfigCache.StepCoherent | internal/store/store.go:59-78 | Every step of loaders, writers, invalidations and touches keeps that |
| ConfigCache.StoreCoherent | internal/store/routing.go:123-127 | Storing only under an unchanged version keeps it |
| ConfigCache.ReadCoherent | internal/store/routing.go:131-200 | A load of several queries keeps it at every query |
| ConfigCache.InvalidateCoherent | internal/store/store.go:59-78 | Clearing everything, or only route lists, keeps it |
| ConfigCache.LoadsOnce | internal/store/routing.go:340-398 | An undisturbed load has one answer |
| ConfigCache.ProgramAlike | internal/store/access_keys.go:234-261 | No load depends on an access key's last use, beyond repeating it |
| ConfigCache.Cache.Lookup | internal/store/routing.go:103-116 | A hit is the cached answer; a miss hands out the version |
| ConfigCache.Cache.StoreLoaded | internal/store/routing.go:119-128 | A loaded answer is kept only when nothing was invalidated since |
| ConfigCache.Cache.InvalidateConfig | internal/store/store.go:59-71 | Bumps the version and clears all caches |
| ConfigCache.Cache.InvalidateRoutes | internal/store/store.go:73-78 | Bumps the version and clears route lists only |
| Antigravity.PersistBeforeEmit | internal/protocol/antigravity_response.go:251-272 | With a tool store, a tool event is returned only after the one turn with its call, all calls and all parts was stored |
| Antigravity.NothingLost | internal/protocol/antigravity_response.go:265-273 | When the stream is done the returned events are exactly the generated ones, in order |
| Antigravity.RunKept | internal/protocol/antigravity_response.go:145-274 | After every document, returned and held-back events together are the generated ones |
| Antigravity.RunHeard | internal/protocol/antigravity_response.go:177-223 | A client that assembles the events has the stored calls and the parts' text |
| AntigravityMeaning.RunMeans | internal/protocol/antigravity_response.go:145-274 | Over every run the events of the documents mean what the documents carry, in order: each part's call, numbered on, then its text or thought; the end with its reason; the usage |
| AntigravityMeaning.ReturnedMeans | internal/protocol/antigravity_response.go:145-274 | So do the events a finished run has returned |
| AntigravityMeaning.RunAccepted | internal/protocol/antigravity_response.go:145-274 | A stream is accepted if and only if every document fits where it stands: none after the end, at most one candidate, complete calls, no calls together with signatures unless turns are stored, a known finish reason, and a stored turn if one was due |
| Antigravity.FinishReported | internal/protocol/antigravity_response.go:224-242 | The ending document reports length, tool calls or a plain stop |
| Antigravity.Decoder.DecodeStored | internal/protocol/antigravity_response.go:145-274 | The decoder object takes one document as the decoding function prescribes |
| Antigravity.Decoder.DecodePart | internal/protocol/antigravity_response.go:177-223 | One part: its signature, call and text |
| AntigravityHistory.EchoRestored | internal/protocol/antigravity_history.go:71-141 | An echo of what an accepted run returned is accepted and stands for the stored turn with every part of the stream; arguments are compared as the first JSON value of their text |
| AntigravityHistory.EchoLeaves | internal/protocol/antigravity_request.go:58-135 | In any accepted conversation the echoed message leaves as the stored turn with every part of the stream, at its place among what the other messages send |
| AntigravityHistory.RestoredRepeats | internal/protocol/antigravity_history.go:95-139 | A message given stored content repeats the turn in count, order, IDs, names, JSON arguments and text, and carries its upstream IDs |
| AntigravityHistory.RestoreMessage | internal/protocol/antigravity_history.go:71-141 | The loops over one message accept exactly the messages that repeat the turn |
| AntigravityHistory.RestoreHistory | internal/protocol/antigravity_history.go:71-141 | The loop over the messages restores each on its own, or fails at the first that does not repeat its turn |
| AntigravityHistory.TurnsSentWhole | internal/protocol/antigravity_request.go:62-75 | Stored turns go upstream whole, unchanged and in message order |
| AntigravityHistory.MessageTokens | internal/protocol/antigravity_request.go:123-135 | Each message adds its turn or its parts in order; merging answers loses and moves nothing |
| AntigravityHistory.RequestExactly | internal/protocol/antigravity_request.go:58-135 | An accepted request has one entry for each message, except that consecutive messages of answers only share one; each entry holds what its messages send, whole if restored and under the role of the first of them otherwise; all entries together hold what all messages send, in order, answers under the upstream's ID of the call |
| AntigravityHistory.RequestAccepted | internal/protocol/antigravity_request.go:58-121 | A request is accepted if and only if no call ID stands in it twice and every message that is not a restored turn has only text, inline pictures, complete calls with JSON arguments, and answers to calls before them |
| AntigravityHistory.RolesKeptIff | internal/protocol/antigravity_request.go:76-79 | Every message is sent under its own role if and only if answers that stand together agree on whether they are the assistant's |
| AntigravityHistory.AnswerRoleLost | internal/protocol/antigravity_request.go:127-135 | An assistant's answers right after a user's answers leave under user |
| AntigravityHistory.CallsTabled | internal/protocol/antigravity_request.go:62-107 | The calls of an accepted request are known by the name and upstream ID their own blocks give |
| AntigravityHistory.CallsDistinct | internal/protocol/antigravity_request.go:66-107 | An accepted request names every call once, restored or not |
| AntigravityHistory.AnswersKnown | internal/protocol/antigravity_request.go:109-113 | Every answer sent answers a call that stands before it |
| AntigravityHistory.EncodeContents | internal/protocol/antigravity_request.go:58-135 | The loop over messages builds exactly these entries |
| CallIDs.RequestRenaming | internal/protocol/request.go:390-425 | Over all IDs of a request the renaming is injective, leaves IDs within 64 characters alone and keeps within 64 |
| CallIDs.RoundTrip | internal/protocol/request.go:390-442 | Decoding an encoded request returns its calls and answers in order up to the renaming |
| CallIDs.Renamer.FreshNumber | internal/protocol/request.go:412-422 | The search for an unused name ends for every history |
| CallIDs.Renamer.CallID | internal/protocol/request.go:406-424 | A long ID gets one name for good; a short one stays |
| CallIDs.EncodeRequest | internal/protocol/request.go:390-448 | All IDs are reserved first, then every item is encoded under one renaming |
| CallIDs.DecodedPieces | internal/protocol/request.go:213-265 | Decoding keeps the calls and answers of any readable item list in order |
| CallIDs.DecodeRequest | internal/protocol/request.go:213-265 | The item loop decodes exactly so, or fails at the first bad item |
| CallIDs.AppendPieces | internal/protocol/request.go:872-878 | Appending a block adds it after all others |
| LoginFlows.ManagerSafe | internal/oauthlogin/login.go:76-148 | Over every interleaving each flow starts at most one exchange and saves at most one account, an ended flow keeps no secrets, and an owner has at most one active registered flow |
| LoginFlows.EndedForever | internal/oauthlogin/login.go:138-148 | An ended flow stays as it ended: no later save or exchange |
| LoginFlows.LoginCompletes | internal/oauthlogin/login.go:214-263 | A login that gets the result of its own authorization and that nobody ends meanwhile saves its account exactly once when the exchange works out, whatever other logins do, and ends by how the save ended |
| LoginFlows.StepSafe | internal/oauthlogin/login.go:76-297 | Every step keeps every flow in order, wakes none and saves only for an exchanging, unexpired one |
| LoginFlows.ExchangeNeedsOwnState | internal/oauthlogin/login.go:214-240 | An exchange starts if and only if the result has exactly the flow's state, a fitting issuer, a code and no error, while the flow is pending |
| LoginFlows.Manager.Start | internal/oauthlogin/login.go:76-134 | Sweeps stale flows and refuses only an owner with an active one or a callback that cannot be prepared |
| LoginFlows.Manager.AcceptLocked | internal/oauthlogin/login.go:214-240 | Callback and manual submission take the same step |
| LoginFlows.Manager.CompleteLocked | internal/oauthlogin/login.go:242-263 | A finished exchange saves only for a flow still wanted |
| LoginFlows.Manager.CancelAll | internal/oauthlogin/login.go:289-297 | Cancelling an owner ends its active registered flows |
| Credentials.NothingOldReturns | internal/store/oauth_credentials.go:100-142 | After any refresh, new login, switch, reset or deletion of an account, and any switch, edit or deletion of its provider, no refresh or mark computed before ever takes effect, in any later run |
| Credentials.SupersedesExactly | internal/store/catalog.go:346-371 | Exactly these actions, when they apply, bring an account a newer revision or remove it |
| Credentials.RunGrows | internal/store/oauth_credentials.go:100-142 | Over every run revisions only grow, any change of the secret or of the use of an account, by its own switch or its provider's, brings a newer one, and a removed account number never returns |
| Credentials.OneSavePerRevision | internal/store/oauth_credentials.go:100-118 | At most one refresh is stored from each revision |
| Credentials.StaleMark | internal/store/oauth_credentials.go:120-126 | A mark computed at an old revision never alters a newer credential |
| Credentials.RefreshKeepsCooldowns | internal/store/antigravity.go:99-132 | A refresh keeps exactly the model cooldowns in force |
| Credentials.RefreshStands | internal/store/oauth_credentials.go:100-118 | A stored refresh is what is used from then on, under the next revision, until something concerns the account or its provider |
| Credentials.MarkStands | internal/store/oauth_credentials.go:120-126 | A mark computed for the current revision of an account in use stands |
| Credentials.ModelCools | internal/store/antigravity.go:134-143 | A marked model is unavailable with the account until exactly the time of the mark |
| Credentials.EditEndsCooldowns | internal/store/antigravity.go:134-143 | Any other newer revision starts without cooldowns in force |
| Credentials.RunExclusive | internal/store/oauth_credentials.go:56-62 | No two standing accounts of one kind ever share an identity |
| Credentials.OthersUntouched | internal/store/antigravity.go:99-143 | An action on an account touches only that account, an action on a provider only its accounts |
| Credentials.Store.ImportCredential | internal/store/oauth_credentials.go:32-76 | An import is refused for an archived provider and for an identity already standing, and gets a number never used before |
| Credentials.Store.SaveCredential | internal/store/oauth_credentials.go:100-118 | The guarded update succeeds exactly for an account in use at this revision and identity |
| Credentials.Store.ReplaceCredential | internal/store/oauth_relogin.go:9-61 | A new login succeeds exactly for a standing account at this revision and identity, and for Antigravity the same project |
| Credentials.Store.MarkUpstreamKeyRevision | internal/store/oauth_credentials.go:120-126 | The guarded mark |
| Credentials.Store.MarkAntigravityModel | internal/store/antigravity.go:134-137 | The guarded model cooldown |
| Credentials.Store.SetUpstreamKeyEnabled | internal/store/oauth_credentials.go:128-142 | Enabling or disabling brings a newer revision |
| Credentials.Store.ResetUpstreamKeyRuntime | internal/store/routing.go:297-313 | A reset brings a newer revision unless the account has to log in again |
| Credentials.Store.DeleteCredential | internal/store/oauth_credentials.go:144-173 | Deleting an account clears it, archives it and brings a newer revision |
| Credentials.Store.SetProviderEnabled | internal/store/catalog.go:346-371 | Switching a provider brings all its standing accounts a newer revision |
| Credentials.Store.UpdateProvider | internal/store/catalog.go:373-438 | So does editing an OAuth provider |
| Credentials.Store.DeleteProvider | internal/store/catalog.go:506-555 | A provider in use stays; one that is named elsewhere is archived with its accounts, any other removed with them |
| Cleanup.Store.CleanupLogs | internal/store/storage.go:78-144 | The count is always the number of requests cleaned; without failure it is the previewed number, nothing eligible remains and the rest is untouched |
| Cleanup.BusyUntouched | internal/store/storage.go:66-76 | A request or attempt in progress survives any clean-up |
| Cleanup.CleanedRest | internal/store/storage.go:116-143 | Each batch shrinks the eligible set by its size |
| Cleanup.Store.PruneLogs | internal/store/retention.go:11-58 | Retention prunes outdated requests and drops old events, all of them unless a transaction fails; of the requests with an attempt in progress it spares exactly the young, running or pruned ones |
| Cleanup.RetentionSparesIff | internal/store/retention.go:20-24 | For every table and cutoff, retention spares a request with an attempt in progress if and only if the request is young, itself in progress or already pruned |
| Cleanup.RetentionTakesBusyAttempt | internal/store/retention.go:20-24 | A finished request with an attempt in progress that retention takes |

## Left out

- CallIDs.RequestRenaming: that a made-up name has at most 64 characters is stated while the IDs of the request and the names made up so far number fewer than about 10^56, because the program's counter is unbounded in the model and the name grows with it.
- StreamEncoder.Encoder.Encode: minted response and item IDs, the model name and the creation time are not part of the frames; frames carry indexes, call IDs, names and content.
- Failover.Exchange.Write: a piece the client took in part counts as taken; the bytes inside a piece are not divided.
- ConfigCache.CacheCoherent: a cached access key is compared without the time of its last use, which the program does not refresh in the cache.
- LoginFlows.ManagerSafe: the exchange runs between two steps and its answer, like that of the save, is an input of the step that ends it; the network call itself is not modelled.
- StreamEncoder.Encoder.Tool: the table of tools maps keys to values that are written back, where the program keeps pointers in it; aliasing between a tool and its entry is not modelled.
- JSON text, number formats, HTTP headers, status texts, time-outs, idle readers and the length of the back-off with its jitter.
- The summary of a logged stream (internal/protocol/stream_summary.go): its content is the content the round trip is stated about, its warnings are not modelled.
- The flag that marks a chunk as semantic content is an input of the failover loop, and the time of the first content is not kept.
- IDs that a Start event carries, and the rewriting of the model name in passed-through lines.
- The failover loop does not feed the breaker in this model: admission is an input of each pass. Some exits of the program report no outcome, so that a probe is always answered is not claimed.
- The Antigravity retry delay, the routing decisions shown to administrators and the status a request is logged with.
- Throttling of last-use updates beyond their being steps of the cache model, and the mutexes that keep two identical loads from running at once.
- Antigravity usage arithmetic over several documents, and arguments that are the word null with blanks around it.
- Generic upstream keys and their marks, which carry no revision; only OAuth accounts are rows of the credential model.
- The network side of an OAuth refresh and the lock per key around it, the PKCE challenge, the callback listener and its server.
- The order of text and images inside one message, instructions, and the error flag of a tool result in a Responses request.
- The order in which rows with equal times are taken by a clean-up batch.
- SQL text, migrations, catalogue editing, paging, statistics, the administrator's interface and configuration files.
