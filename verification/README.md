# Verified model of the Anthropic bridge and compatibility proxy

A Dafny model of the two packages that carry an Anthropic client's traffic to other upstreams, with
proofs about all inputs, all runs and all interleavings. `dafny verify dfyconfig.toml` checks it.

What is modelled, one module a file:

- **The Responses-to-Messages translator** (`Protocol`, `Translation`, `SseTranslators`): a transducer with a
  block table, one open slot and a queue of deferred events. `Translation` is the state machine on
  values; the class `SseTranslator` updates its fields in place and is proved to follow it.
  `Bracketing` accepts its traces by an independent grammar, `Endings` reads the end off them,
  `Deferral` follows the queue, `ReasoningOrder` the place of reasoning among the other items,
  `ItemViews`, `Interleaving` and `Payloads` look at one item among others, `TextConservation` at its text.
- **The round trip of a response** (`JsonBodies`, `MessageCollectors`, `RequestItems`, `RoundTrip`): a complete
  response through the translator and the collector into a message, and from the message back to input items.
- **The streaming loop** (`EventStreams`): lines of the decoded body to events, and how the stream ends.
- **Tool-use ids** (`ToolUseIds`, `ToolUseIdRewrite`, `ToolUseIdChunking`, `ToolUseIdSamples`): choosing a free id,
  the bounded cache that concurrent streams share, and the byte-stream transform that rewrites lines;
  `ToolUseIdChunking` says exactly when its two promises hold, `ToolUseIdSamples` runs it past its limits.
- **One proxied request** (`StreamGates`, `Forwards`, `ForwardObjects`): the validity gate with its incremental SSE
  scanner, and `forward` as a system of event handlers with the transparent retry and the local handler that may
  answer in its place; `ForwardObjects` is the same as objects that share the client's response. `EventTexts` says
  which event streams the gate lets through, on their lines; `ForwardAnswers` what the client and the observers get,
  as a function of the events that came in.
- **WebSocket tunnels** (`WebSocketTunnels`, `WebSocketOutcomes`): settling, reconnecting and establishing.
- **The SOCKS5 client** (`Socks5`, `Ipv6`): reader, handshake and address codec (sections 3, 4 and 6 of RFC 1928,
  section 2 of RFC 1929, section 2.2 of RFC 4291).
- **The error search** (`ErrorGraph`): breadth-first search over an object graph that may be cyclic.

`JsText` and `Bytes` hold the few string and byte operations in common. JSON parsing and printing, UTF-8, and
`isIPv6` are function parameters: nothing is assumed of them except where a lemma says so in its `requires`.

Where code and comments differ, the model follows the code:

- The thread cache of `addThreadMintedId` is described as approximately least-recently-used; a thread already
  present is not moved to the end, so threads leave in the order in which they entered.
- `push` does not look at `finished`; `Bracketing.SpeaksExactly` says which events still produce output.
- The gate's 64 KiB cap is applied at chunk boundaries, so a headerless response whose field prefix comes later
  than that is committed or rejected depending on its chunks; `StreamGates.InferenceExactly` says when.
- A response that the gate turns down on its bytes, or for which no adapter can be built, is answered without
  any terminal lifecycle callback; `Forwards.ToldExactly` says that these are the only ones.
- The defensive finish behind a local handler does not ask whether the client is still there;
  `Forwards.OneResponse` counts the calls that meet a response already over.
- A tool_use frame whose marker lies past the 512-byte window passes unrenamed;
  `ToolUseIdSamples.LateMarkerPassesTwice` shows a duplicate.
- What follows the raw push of an over-long line is read as a line of its own, so bytes in the middle of a line
  can be renamed; `ToolUseIdChunking.ChunkingExactly` says for which streams that cannot happen.

## Model

| member | source | states |
|---|---|---|
| SseTranslators.SseTranslator.Push | packages/anthropic-responses-bridge/src/translate-sse.ts:127-141 | one upstream event takes the fields exactly where the state machine `Translation.Push` takes the state: deferred behind an uninterruptible block, or handled and the queue drained; it returns exactly the events added to the trace |
| SseTranslators.SseTranslator.DrainReady | packages/anthropic-responses-bridge/src/translate-sse.ts:151-174 | the "first processable event" loop ends in the state of the recursive drain, whatever it re-opens on the way |
| SseTranslators.SseTranslator.FindReady | packages/anthropic-responses-bridge/src/translate-sse.ts:161-169 | finds the first queued event that is not deferred in the current state |
| SseTranslators.SseTranslator.DrainAll | packages/anthropic-responses-bridge/src/translate-sse.ts:151-174 | the forced drain handles the whole queue first in, first out |
| SseTranslators.SseTranslator.OnAdded | packages/anthropic-responses-bridge/src/translate-sse.ts:363-403 | `onItemAdded`: message_start first, duplicates ignored, a function call closes another item's block and opens its own at the next index |
| SseTranslators.SseTranslator.OnText | packages/anthropic-responses-bridge/src/translate-sse.ts:406-442 | `onTextDelta`: blank text waits in the pending buffer, the first non-blank text opens a block with the buffered blanks in front |
| SseTranslators.SseTranslator.OnSummary | packages/anthropic-responses-bridge/src/translate-sse.ts:445-483 | `onReasoningSummaryDelta`: any delta claims the open slot, only non-blank text opens the block |
| SseTranslators.SseTranslator.OnArgs | packages/anthropic-responses-bridge/src/translate-sse.ts:486-500 | `onFunctionArgsDelta`: counted and passed on while the block is open, dropped otherwise |
| SseTranslators.SseTranslator.OnDone | packages/anthropic-responses-bridge/src/translate-sse.ts:503-571 | `onItemDone`: signature or sealed block for reasoning, the missing tail of the arguments for a function call, the slot released |
| SseTranslators.SseTranslator.CloseAllOpenBlocks | packages/anthropic-responses-bridge/src/translate-sse.ts:635-643 | the loop over the block table stops every open block and clears the slot |
| SseTranslators.SseTranslator.OnEnd | packages/anthropic-responses-bridge/src/translate-sse.ts:574-601 | `onCompleted`: start, forced drain, close, message_delta with the stop reason, message_stop; nothing when already finished |
| SseTranslators.SseTranslator.Fail | packages/anthropic-responses-bridge/src/translate-sse.ts:235-240 | `fail`: forced drain, close and one error event, or nothing when finished |
| SseTranslators.SseTranslator.PushJson | packages/anthropic-responses-bridge/src/translate-sse.ts:254-312 | a complete response runs the state machine on its synthesised events; each malformed shape fails with its own message |
| Bracketing.RunIsBracketed | packages/anthropic-responses-bridge/src/translate-sse.ts:315-403 | every run, interleaved, force-drained, aborted or fed after its end, is accepted by an independent acceptor of the Messages stream grammar |
| Bracketing.EveryMoment | packages/anthropic-responses-bridge/src/translate-sse.ts:406-571 | at every position of every trace: block indices count 0, 1, 2, …, never two blocks open, none open at a terminal event, message_start before every block, and the start of a text or thinking block is followed by its own delta with non-blank text, never by the end of the trace |
| Bracketing.AcceptedCounts | packages/anthropic-responses-bridge/src/translate-sse.ts:574-632 | an accepted trace has at most one message_start and at most one terminal event, and as many stops as starts up to the open block |
| Bracketing.CloseAllStopsTheOpenBlock | packages/anthropic-responses-bridge/src/translate-sse.ts:635-643 | the loop over all blocks stops exactly the one that is open: the single-open-block invariant at work |
| Bracketing.ForceDrainKeeps | packages/anthropic-responses-bridge/src/translate-sse.ts:151-174 | the forced drain terminates, empties the queue and handles it in queue order |
| Bracketing.SpeaksExactly | packages/anthropic-responses-bridge/src/translate-sse.ts:127-141 | `push` does not check `finished`: after the end, in every state, blocks reopened and events queued included, an event is followed by output if and only if it is not deferred and it or a queued event that it lets through is one of the listed ones |
| Bracketing.EndsAtRest | packages/anthropic-responses-bridge/src/translate-sse.ts:574-632 | the call that ends a run leaves no block open and nothing queued |
| Bracketing.SilentAfterEnd | packages/anthropic-responses-bridge/src/translate-sse.ts:574-632 | if only terminal or ignored events follow, nothing follows the terminal event |
| Bracketing.OutputAfterStop | packages/anthropic-responses-bridge/src/translate-sse.ts:127-141 | a concrete run with a content_block_start behind message_stop |
| Endings.CompletionSays | packages/anthropic-responses-bridge/src/translate-sse.ts:574-656 | a completed response ends a run with message_delta and message_stop; the stop reason, read off the trace, is max_tokens if and only if the response was incomplete for its output limit, and otherwise tool_use if and only if a tool_use block was started before |
| Endings.FailureSays | packages/anthropic-responses-bridge/src/translate-sse.ts:235-240 | a failed response or an abort ends a run with one error event carrying its message, behind what was sent and the stop of an open block |
| Deferral.DrainConserves | packages/anthropic-responses-bridge/src/translate-sse.ts:151-174 | a drain loses and repeats nothing: per item, handled followed by queued events are the same sequence before and after; and afterwards a non-empty queue means an uninterruptible item is open and no queued event is its own |
| Deferral.RunConserves | packages/anthropic-responses-bridge/src/translate-sse.ts:113-174 | after every run, for each item, the events handled and then those still queued are exactly those received, in arrival order; and the queue invariant holds |
| Deferral.HandledOnce | packages/anthropic-responses-bridge/src/translate-sse.ts:117-173 | as a multiset nothing is lost and nothing is handled twice |
| Deferral.RunUnfinished | packages/anthropic-responses-bridge/src/translate-sse.ts:143-174 | the open uninterruptible item has not received its done event in the handled history |
| ReasoningOrder.ReasoningKeepsItsPlace | packages/anthropic-responses-bridge/src/translate-sse.ts:449-465 | from the first summary delta of a reasoning item on, a blank one too, however many events of other items come, nothing is sent until its own done event, and then its own sealed block or signature first |
| ReasoningOrder.LateSummaryIsItsOwn | packages/anthropic-responses-bridge/src/translate-sse.ts:546-550 | after its done event a late summary delta opens a thinking block with its own text alone |
| ItemViews.OthersOnlyInterrupt | packages/anthropic-responses-bridge/src/translate-sse.ts:352-360 | handling one item's event leaves every other item's block and its events alone, except for closing its open text or tool block |
| ItemViews.UninterruptibleIsLeftAlone | packages/anthropic-responses-bridge/src/translate-sse.ts:143-149 | an event that is not deferred never interrupts an open tool_use or thinking item |
| TextConservation.RunText | packages/anthropic-responses-bridge/src/translate-sse.ts:406-442 | for every item and run, the text emitted followed by the pending buffer is the concatenation of the deltas handled after it was added, and the buffer is blank |
| TextConservation.TextIsConserved | packages/anthropic-responses-bridge/src/translate-sse.ts:406-442 | what a client reads of a message item is its text up to a run of blanks at the end, in every run |
| Interleaving.HandleOpenExact | packages/anthropic-responses-bridge/src/translate-sse.ts:486-571 | handling an own event moves an item's emitted block along a reference that sees only the item's own events |
| Interleaving.CalmExact | packages/anthropic-responses-bridge/src/translate-sse.ts:117-173 | before the terminal event every tool and reasoning item has emitted exactly what the reference makes of its own handled events |
| Payloads.DoneItemsLeaveNothing | packages/anthropic-responses-bridge/src/translate-sse.ts:143-174 | if every function call and reasoning item added ends with its done event, the queue is empty before the terminal event; a block still open is then that of a message item left hanging without output_item.done |
| Payloads.ToolIndependence | packages/anthropic-responses-bridge/src/translate-sse.ts:363-403 | what is emitted for a function call depends only on its own events, however the others interleave, if only function calls and reasoning items get their done events; message items may hang |
| Payloads.ToolsAreNamed | packages/anthropic-responses-bridge/src/translate-sse.ts:380-395 | over every run before the end, a function call's block carries its name and its call id, else the item's id, else the number of its block |
| Payloads.ThinkingIndependence | packages/anthropic-responses-bridge/src/translate-sse.ts:445-483 | the same for a reasoning item |
| Payloads.TextIndependence | packages/anthropic-responses-bridge/src/translate-sse.ts:406-442 | the same for a message item, done or left hanging, up to trailing blanks |
| Payloads.ToolArguments | packages/anthropic-responses-bridge/src/translate-sse.ts:551-565 | the streamed arguments of a function call are the done arguments when the deltas are a prefix of them |
| Payloads.ReasoningPayload | packages/anthropic-responses-bridge/src/translate-sse.ts:518-550 | a reasoning item gives one thinking block with all its summary text and its blob as signature, one sealed block with the blob, or nothing |
| Payloads.MessagePayload | packages/anthropic-responses-bridge/src/translate-sse.ts:406-442 | a message item emits the concatenation of its deltas, minus a trailing blank run |
| MessageCollectors.AnthropicMessageCollector.Push | packages/anthropic-responses-bridge/src/anthropic-message-collector.ts:31-64 | one event folds into the message as the specification `Collect` says, errors and the stop included |
| MessageCollectors.AnthropicMessageCollector.Finish | packages/anthropic-responses-bridge/src/anthropic-message-collector.ts:66-90 | the result in its four forms: error, incomplete, no content, or the blocks sorted by index |
| MessageCollectors.CollectsInStep | packages/anthropic-responses-bridge/src/anthropic-message-collector.ts:106-164 | over every accepted trace the collector's blocks are the trace's cells, one for each started block |
| MessageCollectors.VerdictAtStop | packages/anthropic-responses-bridge/src/anthropic-message-collector.ts:66-90 | at a message_stop the collection succeeds if and only if some block was streamed and every tool's text is empty or valid JSON, with the stop reason of the message_delta in front of it; otherwise it fails with the message of the case |
| MessageCollectors.VerdictAtError | packages/anthropic-responses-bridge/src/anthropic-message-collector.ts:66-90 | at an error event it fails with the message of the event, or of the malformed arguments before it |
| MessageCollectors.CollectorVerdict | packages/anthropic-responses-bridge/src/anthropic-message-collector.ts:31-178 | for every run, `finish` succeeds exactly when the first terminal event is message_stop, a block came before it and every tool's arguments parse; the content is then the streamed blocks in order, the stop reason the streamed one, and each rejection says its cause |
| RequestItems.BlobRoundTrip | packages/anthropic-responses-bridge/src/translate-request.ts:117-123 | splitting the blob recovers id and encrypted content if and only if the id has no `#`, or there is no id and the content does not look like a marked one |
| RequestItems.MessageToInputItems | packages/anthropic-responses-bridge/src/translate-request.ts:131-229 | the loop with its pending buffer and `flush`, for any role and any mix of blocks: the function outputs sent are the id and content pairs of the tool_result blocks, the calls those of the tool_use blocks, the message parts the texts and usable images, each in order, with output_text if and only if the role is Assistant |
| RequestItems.ItemsHold | packages/anthropic-responses-bridge/src/translate-request.ts:131-229 | those projections of the items, read off the fields of the blocks |
| RequestItems.StretchIsOneMessage | packages/anthropic-responses-bridge/src/translate-request.ts:147-152 | blocks without a tool or reasoning block among them become one message with all their parts, or none if they have no part |
| RequestItems.SplitsAtBlock | packages/anthropic-responses-bridge/src/translate-request.ts:147-152 | a tool or reasoning block splits the items there: no message item crosses it |
| RequestItems.NoForeignReasoning | packages/anthropic-responses-bridge/src/translate-request.ts:187-221 | whatever the mix of blocks, a reasoning item sent to a provider comes from a block issued under its prefix and under no other segment |
| RequestItems.ReplaysOwnReasoning | packages/anthropic-responses-bridge/src/translate-request.ts:187-221 | the reasoning replayed is that of the blocks issued under the own prefix, all of it and in order, or none when replay is off |
| RequestItems.SegmentsDoNotNest | packages/anthropic-responses-bridge/src/translate-request.ts:100-109 | one `segment/` prefix is never a prefix of another's blob |
| RoundTrip.ResponseTrace | packages/anthropic-responses-bridge/src/translate-sse.ts:254-312 | the trace of a complete response up to its message_stop has exactly the cells of its items, in order |
| RoundTrip.ResponseStops | packages/anthropic-responses-bridge/src/translate-sse.ts:645-656 | the stop reason of a complete response, read off the response: max_tokens if and only if it was cut at its output limit, otherwise tool_use if and only if it has a function call |
| RoundTrip.BodyFails | packages/anthropic-responses-bridge/src/translate-sse.ts:254-312 | a body that is no complete response becomes one error event, with the message of its shape |
| RoundTrip.ResponseRoundTrip | packages/anthropic-responses-bridge/src/translate-request.ts:131-229 | translator, collector and request conversion together: the collection succeeds if and only if all arguments parse and some block was made, and then the stop reason is the one the response calls for and the input items are the item-wise echo of the response |
| RoundTrip.FaithfulRoundTrip | packages/anthropic-responses-bridge/src/translate-request.ts:131-229 | for faithful items the input items are the response's own items in order, with adjacent message items merged |
| RoundTrip.NothingToMerge | packages/anthropic-responses-bridge/src/translate-request.ts:147-152 | without adjacent messages merging changes nothing, so the items come back one for one |
| EventStreams.ReadsDoNotMatter | packages/anthropic-responses-bridge/src/handler.ts:599-628 | for every cutting of the decoded body the translator is fed the same events, those of the terminated lines; an unterminated last line is never processed |
| EventStreams.StreamingAgreesWithWhole | packages/anthropic-responses-bridge/src/handler.ts:170-183 | on a newline-terminated body with at most one data line per event the streaming loop hands `JSON.parse` exactly what `parseSsePayloads` does |
| EventStreams.AlwaysEndsOnce | packages/anthropic-responses-bridge/src/handler.ts:573-643 | whatever arrived and however the body ended, the client gets a well-bracketed stream with exactly one terminal event and no open block |
| EventStreams.StreamingResponse.OnRead | packages/anthropic-responses-bridge/src/handler.ts:599-628 | one read: the cursor scan over the buffer takes the translator and the unfinished line where the specification says |
| EventStreams.StreamingResponse.FinalizeStream | packages/anthropic-responses-bridge/src/handler.ts:573-597 | after a clean end: the synthesised error if nothing was written, else `finish` |
| EventStreams.ParseSsePayloads | packages/anthropic-responses-bridge/src/handler.ts:170-183 | the two loops over blocks and lines compute the payloads of the recursive splitter |
| ToolUseIds.Resolved | packages/anthropic-compat-proxy/src/tool-use-id-stream-rewrite.ts:119-137 | the id passed on is never taken, is the given one if and only if that was free, and otherwise has the least free suffix from `_dup2` on |
| ToolUseIds.LeastFree | packages/anthropic-compat-proxy/src/tool-use-id-stream-rewrite.ts:125-131 | the search for a suffix ends, by pigeonhole on the finite set of taken ids, at the least free number |
| ToolUseIds.StreamIdsDistinct | packages/anthropic-compat-proxy/src/tool-use-id-stream-rewrite.ts:115-137 | for any id sequence and whatever the cache holds at each moment, one stream's results are pairwise distinct and disjoint from its history |
| ToolUseIds.ThreadMintedIdCache.AddThreadMintedId | packages/anthropic-compat-proxy/src/server.ts:238-261 | the cache after adding is the one of the specification: threads leave in order of insertion, ids in order of insertion |
| ToolUseIds.AddIdKeepsBounds | packages/anthropic-compat-proxy/src/server.ts:137-140 | both bounds hold after every addition, the id just added is kept, and another thread loses its ids only as the oldest of a full cache |
| ToolUseIds.ConcurrentIdsDistinct | packages/anthropic-compat-proxy/src/server.ts:1481-1512 | over every interleaving of arriving requests and streams, ids passed on by one stream are pairwise distinct, and so are ids passed on for one thread if no step makes the cache drop an id of that thread |
| ToolUseIds.ResultsAreNew | packages/anthropic-compat-proxy/src/server.ts:1481-1512 | and differ from every id the stream had used and, under that condition, from every id cached for the thread beforehand |
| ToolUseIds.HistoryIsAvoided | packages/anthropic-compat-proxy/src/server.ts:2549-2569 | a request's arrival merges the cached ids into its stream's seeds and its own into the cache: the stream passes on none of its history and none of what the cache held for its thread then |
| ToolUseIds.HistoryIsShared | packages/anthropic-compat-proxy/src/server.ts:2549-2569 | with that room, no stream of a thread passes on an id of the history of any request of the thread that arrived before |
| ToolUseIds.DropsExactly | packages/anthropic-compat-proxy/src/server.ts:238-261 | a resolving step drops an id of a thread if and only if that thread's own set is full, or the thread is the oldest of a full cache that a new thread enters |
| ToolUseIds.EnoughRoomKeeps | packages/anthropic-compat-proxy/src/server.ts:137-140 | a condition to check beforehand: if all threads, cached and to come, number at most 1024, and the thread's ids, cached, resolved or brought by requests, at most 8192, the cache drops none of them |
| ToolUseIds.UnnamedThreadsCollide | packages/anthropic-compat-proxy/src/server.ts:1504-1512 | two streams without a thread id pass the same id if and only if the second had not used it |
| ToolUseIds.EvictionForgets | packages/anthropic-compat-proxy/src/server.ts:254-259 | so an evicted id is passed on again by a stream that had not used it |
| ToolUseIds.AvoidedExactly | packages/anthropic-compat-proxy/src/tool-use-id-stream-rewrite.ts:119-137 | the exact limit: an id is never passed on by a stream, whatever ids it is given, if and only if the stream has used it or the cache holds it for its thread |
| ToolUseIdRewrite.ToolUseIdDedupeRewriter.Resolve | packages/anthropic-compat-proxy/src/tool-use-id-stream-rewrite.ts:119-137 | `resolve` with the live cache as `sharedSeen` and `onObserved` returns the specified id and records it in the stream and the cache |
| ToolUseIdRewrite.ToolUseIdDedupeRewriter.FindJson | packages/anthropic-compat-proxy/src/tool-use-id-stream-rewrite.ts:156-181 | the byte gate: prefix, blanks, byte order mark, brace and the marker within 512 bytes |
| ToolUseIdRewrite.ToolUseIdDedupeRewriter.RewriteSseLine | packages/anthropic-compat-proxy/src/tool-use-id-stream-rewrite.ts:144-195 | one line: unchanged unless it is a start frame of a tool_use whose id was taken |
| ToolUseIdRewrite.ToolUseIdRewriteTransform.OnData | packages/anthropic-compat-proxy/src/tool-use-id-stream-rewrite.ts:214-236 | `_transform`: complete lines rewritten and pushed, the rest kept or, past the limit, pushed raw |
| ToolUseIdRewrite.ChunkingDoesNotMatter | packages/anthropic-compat-proxy/src/tool-use-id-stream-rewrite.ts:206-249 | if no line is longer than the limit, every chunking pushes the line-by-line rewrite of the whole stream and leaves the same rewriter |
| ToolUseIdRewrite.PendingIsBounded | packages/anthropic-compat-proxy/src/tool-use-id-stream-rewrite.ts:224-231 | the pending buffer never exceeds the limit |
| ToolUseIdRewrite.NoRenameNoChange | packages/anthropic-compat-proxy/src/tool-use-id-stream-rewrite.ts:206-249 | a stream without a rename passes byte for byte, over-long lines included |
| ToolUseIdRewrite.LinesAreSteps | packages/anthropic-compat-proxy/src/tool-use-id-stream-rewrite.ts:144-195 | rewriting a stream line by line is that stream's part in the world of concurrent streams: same ids taken, same cache left |
| ToolUseIdChunking.SafeStreamByLine | packages/anthropic-compat-proxy/src/tool-use-id-stream-rewrite.ts:214-248 | and under that condition every chunking leaves the same rewriter |
| ToolUseIdChunking.ChunkingExactly | packages/anthropic-compat-proxy/src/tool-use-id-stream-rewrite.ts:214-248 | every chunking passes on the bytes of the line-by-line rewrite, whatever ids are taken, if and only if no id is found in a line over the pending limit nor in a rest of such a line that a raw push can leave |
| ToolUseIdChunking.WithinLimitIsSafe | packages/anthropic-compat-proxy/src/tool-use-id-stream-rewrite.ts:224-231 | a stream without a line over the pending limit is safe |
| ToolUseIdChunking.OutputIdsDistinct | packages/anthropic-compat-proxy/src/tool-use-id-stream-rewrite.ts:182-195 | for every chunking of a safe stream: a client that parses every data line of the bytes passed on finds no tool_use id twice and none of the history, whatever the history, if and only if every line that has such an id passes the byte gate |
| ToolUseIdSamples.SampleReserializes | packages/anthropic-compat-proxy/src/tool-use-id-stream-rewrite.ts:186-198 | the hypothesis on JSON can be met: a codec for start frames whose type comes last |
| ToolUseIdSamples.LateMarkerPassesTwice | packages/anthropic-compat-proxy/src/tool-use-id-stream-rewrite.ts:179-185 | the promise needs its condition: start frames whose marker lies past the window pass twice with the same id |
| ToolUseIdSamples.LongLineSplits | packages/anthropic-compat-proxy/src/tool-use-id-stream-rewrite.ts:224-231 | a concrete line of more than 4 MiB for which the bytes passed on depend on the chunking |
| ToolUseIdSamples.FlushedLineRenamed | packages/anthropic-compat-proxy/src/tool-use-id-stream-rewrite.ts:224-231 | a concrete line in which the gate finds nothing, whose end is renamed once its front has been pushed raw |
| StreamGates.StreamGate.NextBoundary | packages/anthropic-compat-proxy/src/server.ts:1674-1680 | the earliest of the four delimiters is the first match of the blank-line pattern |
| StreamGates.StreamGate.Scan | packages/anthropic-compat-proxy/src/server.ts:1673-1710 | the incremental scan with its event start and search offset finds the end of the first data event of all bytes so far, or knows there is none |
| StreamGates.StreamGate.OnData | packages/anthropic-compat-proxy/src/server.ts:1649-1756 | the verdict after each chunk is the one the bytes received so far call for, the first decision standing |
| StreamGates.InferenceIgnoresChunking | packages/anthropic-compat-proxy/src/server.ts:1658-1728 | with the field prefix in the first 64 KiB, every cutting commits exactly if the first data event ends within 8 MiB |
| StreamGates.InferenceExactly | packages/anthropic-compat-proxy/src/server.ts:1658-1728 | for all bytes and cuttings: the verdict of the whole bytes, unless a cut falls past 64 KiB and before the end of the prefix; then a rejection |
| StreamGates.LatePrefixDependsOnChunking | packages/anthropic-compat-proxy/src/server.ts:1712-1726 | with a later prefix one chunk commits what two chunks reject |
| StreamGates.LatePrefixExample | packages/anthropic-compat-proxy/src/server.ts:1712-1726 | such bytes: a comment of 64 KiB in front of the first data field |
| StreamGates.DeclaredExactly | packages/anthropic-compat-proxy/src/server.ts:1745-1755 | with a declared type: commit exactly if a marker is there, unless a cut falls past 64 KiB before it |
| EventTexts.TextCommits | packages/anthropic-compat-proxy/src/server.ts:1658-1728 | for events given as lists of lines, printed with LF or CRLF, with or without byte order mark, under every chunking: a headerless stream commits if and only if its first line but comments is an event or data field that no chunk past 64 KiB precedes, and the events up to the first one with a `data:` line fit in 8 MiB |
| EventTexts.DataEventOfText | packages/anthropic-compat-proxy/src/server.ts:1536-1536 | the scan of the bytes ends behind the first event that has a data line, wherever in the event that line stands |
| EventTexts.PreambleOfText | packages/anthropic-compat-proxy/src/server.ts:1535 | the byte pattern for the field prefix finds the first event or data field that only comments and blank lines precede |
| EventTexts.PlainDataCommits | packages/anthropic-compat-proxy/src/server.ts:1658-1728 | a single event of one data line commits under every chunking |
| EventTexts.DeclaredTextCommits | packages/anthropic-compat-proxy/src/server.ts:1745-1755 | a stream declared as SSE commits if and only if some line of some event is an event or data field and no chunk past 64 KiB precedes the first |
| Forwards.OneResponse | packages/anthropic-compat-proxy/src/server.ts:1043-1112 | over every order of events, retry and local handler included: at most two upstream requests, writeHead at most once, failure finished at most once, no byte before the head; the calls on a response already over are exactly those of a local handler after its client or its own end, and of the defensive finish behind it |
| Forwards.FinishBehindTheClient | packages/anthropic-compat-proxy/src/server.ts:566-593 | a concrete run: a handler that settles without ending, behind a client that has gone, makes the proxy write a head and end |
| Forwards.DeliveredInOrder | packages/anthropic-compat-proxy/src/server.ts:1545-1605 | a commit hands on all buffered chunks once and in order; until then all of them are held back |
| Forwards.ObserversSeeOneEnd | packages/anthropic-compat-proxy/src/server.ts:532-556 | the guarded observer sees one start and then at most one terminal note; the response observer one terminal call and nothing after it |
| Forwards.CommittedOnTheGatesWord | packages/anthropic-compat-proxy/src/server.ts:1523-1544 | over every run a gated response is committed if and only if the gate commits on the chunks shown to it, all that came before the attempt ended, and its adapter can be built; for a headerless response with its prefix in the first 64 KiB, if and only if the first data event ends within 8 MiB |
| Forwards.NobodyWaits | packages/anthropic-compat-proxy/src/server.ts:1416-1454 | once the last upstream is done the client's response is over, or a transform has to flush, or the retry gate, its local handler included, has not answered |
| Forwards.ToldExactly | packages/anthropic-compat-proxy/src/server.ts:1613-1628 | once the response is over the lifecycle observer has been told so, if and only if the gate did not reject the chunks shown to it and the adapter to commit with could be built; while a local handler holds the response, if and only if the client hung up before it was ended |
| Forwards.TurnedDownExactly | packages/anthropic-compat-proxy/src/server.ts:1545-1560 | an attempt is turned down if and only if it streams, is uncommitted, and the gate rejected its pending chunks or the adapter at its commit point cannot be built |
| Forwards.HandlerEndsUntold | packages/anthropic-compat-proxy/src/server.ts:1256-1270 | a concrete run in which a handler has ended the response and the observer is told only when it settles |
| Forwards.TurnedDownIsSilent | packages/anthropic-compat-proxy/src/server.ts:1729-1737 | a concrete run in which it is not told |
| Forwards.FrozenStays | packages/anthropic-compat-proxy/src/server.ts:1177-1285 | a retried attempt does nothing any more, whatever its late events are |
| ForwardAnswers.BodyIsUpstream | packages/anthropic-compat-proxy/src/server.ts:1582-1605 | over every run, once committed, the client's body is the chunks of the upstream, or behind transforms the chunks the last of them puts out, that came before the response was over: all of them, in order, nothing else |
| ForwardAnswers.NothingIsMissing | packages/anthropic-compat-proxy/src/server.ts:1582-1605 | a committed response that was ended was ended behind the end of the upstream and of every transform, with everything in it; what the response said and whether the request timed out stays noted |
| ForwardAnswers.WhatCanCome | packages/anthropic-compat-proxy/src/server.ts:1114-1140 | which events of an attempt can still come, by those that have |
| ForwardAnswers.ResponseSays | packages/anthropic-compat-proxy/src/server.ts:1114-1140 | over every run, what a response does: unread if too late, held for the recovery rules, held for the gate, turned down, or its head sent at once |
| ForwardAnswers.DataSays | packages/anthropic-compat-proxy/src/server.ts:1638-1756 | what a chunk does: heard by the observer until the attempt is decided, passed to the client or the transform once committed, and before that held, committed with all chunks so far, or answered with a bare failure, as the gate judges those chunks |
| ForwardAnswers.EndSays | packages/anthropic-compat-proxy/src/server.ts:1177-1350 | what the end does: a second attempt, or the question for one, if and only if the rules strip something and this is the first; a buffered error passed on whole, or answered without a body if unrecoverable; a stream ended, or left to its transforms, or answered with a bare failure; and what each observer is told |
| ForwardAnswers.FailureSays | packages/anthropic-compat-proxy/src/server.ts:1416-1454 | what a failure does to an undecided attempt: a bare answer before the head and a torn connection behind it, the reason told to the lifecycle observer and an error to that of a stream |
| ForwardAnswers.FlushSays | packages/anthropic-compat-proxy/src/server.ts:1582-1605 | behind the end of the upstream each chunk of a transform goes to the client, the last transform to end ends the response, an error tears it, and the observers hear nothing more |
| ForwardAnswers.OutputSays | packages/anthropic-compat-proxy/src/server.ts:1599-1602 | a transform's chunk goes to the client before the upstream's end, too |
| ForwardAnswers.DecidedIsQuiet | packages/anthropic-compat-proxy/src/server.ts:1097-1296 | once the response is over, or the retry gate has the attempt, no event of it is seen by client or observer |
| ForwardAnswers.QuietEvents | packages/anthropic-compat-proxy/src/server.ts:1357-1361 | a request timeout is noted and a response that closes complete ignored; neither is seen |
| ForwardAnswers.EarlierIsQuiet | packages/anthropic-compat-proxy/src/server.ts:1177-1285 | no event of a retried attempt is seen |
| ForwardAnswers.ClientCloseSays | packages/anthropic-compat-proxy/src/server.ts:1097-1112 | a closed client is told as an abort if and only if no end was told and the response was not ended |
| ForwardAnswers.GateSays | packages/anthropic-compat-proxy/src/server.ts:1252-1296 | the retry gate's answer: the second attempt unless the client has gone, the bare failure, or a handler that takes over |
| ForwardAnswers.HandlerSays | packages/anthropic-compat-proxy/src/server.ts:566-593 | a local handler's calls on a response that is not over, and its end: ended, torn if it threw behind a head, and told as a rejected retry |
| ForwardObjects.ServeRequest | packages/anthropic-compat-proxy/src/server.ts:906-951 | a request served by objects that share one response and one guard, two calls of `forward`, a stream gate each and the retry gate, ends for every sequence of inputs where the event system ends; its response got at most one head |
| ForwardObjects.ForwardRequest.Receive | packages/anthropic-compat-proxy/src/server.ts:1097-1296 | one input of any kind takes all the objects together along the run |
| ForwardObjects.ClientResponse.Local | packages/anthropic-compat-proxy/src/server.ts:566-593 | a local handler's call, and the defensive finish once it has settled |
| ForwardObjects.ForwardCall.CheckGate | packages/anthropic-compat-proxy/src/server.ts:1649-1756 | the incremental gate decides on the new bytes as the specification decides on all pending ones |
| ForwardObjects.LifecycleGuard.OnTerminal | packages/anthropic-compat-proxy/src/server.ts:532-556 | the terminal callback passes once, and only after the start |
| ForwardObjects.ForwardCall.FinishClientAfterUpstreamFailure | packages/anthropic-compat-proxy/src/server.ts:1066-1095 | a 502 if no head was sent, else the response is destroyed; guarded by the five conditions |
| ForwardObjects.ForwardCall.CommitStreamResponse | packages/anthropic-compat-proxy/src/server.ts:1545-1605 | head, transforms and buffered chunks, or a turn-down if no adapter can be built |
| ForwardObjects.ForwardCall.OnResponse | packages/anthropic-compat-proxy/src/server.ts:1114-1140 | unread, buffered for recovery, gated, or committed at once |
| ForwardObjects.ForwardCall.OnData | packages/anthropic-compat-proxy/src/server.ts:1638-1756 | observer, incremental gate and pipe on one chunk |
| ForwardObjects.ForwardCall.OnBufferedEnd | packages/anthropic-compat-proxy/src/server.ts:1177-1350 | the end of a buffered 400 or 422: retry, or pass it on |
| ForwardObjects.ForwardCall.OnStreamEnd | packages/anthropic-compat-proxy/src/server.ts:1757-1823 | the end of a streamed response, with the structured rejection if nothing was committed |
| ForwardObjects.ForwardCall.FailStreamingResponse | packages/anthropic-compat-proxy/src/server.ts:1416-1454 | a response failure, a pending transform's included |
| ForwardObjects.ForwardCall.OnRequestError | packages/anthropic-compat-proxy/src/server.ts:1832-1866 | a request failure, folded into the active response's if there is one |
| ForwardObjects.ForwardCall.OnClientClose | packages/anthropic-compat-proxy/src/server.ts:1097-1112 | a client that goes away is noted once and told as an abort |
| Socks5.SocketReader.Read | packages/anthropic-compat-proxy/src/socks5.ts:171-183 | a read gets its bytes, waits, or is refused; nothing received is lost or repeated |
| Socks5.SocketReader.OnData | packages/anthropic-compat-proxy/src/socks5.ts:157-167 | arriving bytes wake the waiter exactly when it has enough |
| Socks5.SocketReader.Release | packages/anthropic-compat-proxy/src/socks5.ts:191-199 | what is put back is exactly what no read has delivered |
| Socks5.Socks5Client.OnData | packages/anthropic-compat-proxy/src/socks5.ts:252-321 | the chain of reads, frames and checks that one chunk sets off |
| Socks5.HandshakeIgnoresChunking | packages/anthropic-compat-proxy/src/socks5.ts:145-201 | for every chunking: same phase, same frames written, and reads plus the bytes put back are the bytes received |
| Socks5.WillingServerConnects | packages/anthropic-compat-proxy/src/socks5.ts:252-321 | a willing server's replies are consumed exactly, every tunnel byte is left, and greeting, credentials and request were written |
| Socks5.OnlyWillingServersConnect | packages/anthropic-compat-proxy/src/socks5.ts:252-321 | and only such streams connect |
| Socks5.ConnectRoundTrip | packages/anthropic-compat-proxy/src/test-socks5-stub.ts:101-113 | a decoder of the CONNECT frame recovers port and host of every destination that can be encoded |
| Socks5.FrameDecodes | packages/anthropic-compat-proxy/src/socks5.ts:301-305 | the frame is decoded to its address and port and nothing of what follows |
| Socks5.AuthRoundTrip | packages/anthropic-compat-proxy/src/socks5.ts:280-288 | the credentials in the subnegotiation frame are those configured |
| Socks5.GreetingOffers | packages/anthropic-compat-proxy/src/socks5.ts:261-262 | the greeting comes first and offers username and password if and only if a user is configured |
| Socks5.EncodableExactly | packages/anthropic-compat-proxy/src/socks5.ts:118-130 | the hosts that can be asked for: every IPv4 address, every readable IPv6 address, every name of 1 to 255 bytes |
| Socks5.BracketsComeOff | packages/anthropic-compat-proxy/src/outbound-proxy.ts:66-70 | one pair of brackets comes off, anything else stays |
| Ipv6.CollectGroups | packages/anthropic-compat-proxy/src/socks5.ts:79-98 | the group loop computes the groups of a text, or rejects it |
| Ipv6.Ipv6RoundTrip | packages/anthropic-compat-proxy/src/socks5.ts:72-107 | `ipv6ToBytes` inverts printing for every eight groups, every spelling, every compressed zero run or none, with or without IPv4 tail and zone |
| Ipv6.IPv4IsDotted | packages/anthropic-compat-proxy/src/socks5.ts:118-123 | an accepted IPv4 text is the dotted form of its own octets |
| Ipv6.HexDigitsExactly | packages/anthropic-compat-proxy/src/socks5.ts:79-98 | the hex digits of a group, in either case |
| ErrorGraph.FindLoopbackRefusedConnection | packages/anthropic-compat-proxy/src/upstream-failure.ts:42-58 | the search ends on every finite graph, cyclic ones included; it returns a connection exactly if one is reachable, and then address and port of a nearest one |
| ErrorGraph.LoopbackExactly | packages/anthropic-compat-proxy/src/upstream-failure.ts:30-35 | the loopback addresses, trimmed and lowered: localhost, ::1, 127 with three more short numbers, and each behind the prefix of a mapped address |
| ErrorGraph.LowerExactly | packages/anthropic-compat-proxy/src/upstream-failure.ts:31-31 | lowering changes the 26 capital letters and nothing else |
| ErrorGraph.CaseDoesNotMatter | packages/anthropic-compat-proxy/src/upstream-failure.ts:30-35 | the case of an address does not matter |
| ErrorGraph.MappedCounts | packages/anthropic-compat-proxy/src/upstream-failure.ts:30-35 | a mapped address counts if and only if the address behind the prefix does |
| WebSocketTunnels.CounterIsSetSize | packages/anthropic-compat-proxy/src/server.ts:2713-2765 | at every event boundary the counter is the size of the set, which holds exactly the unsettled tunnels; each settles and is established at most once, with at most one timer or attempt under way |
| WebSocketTunnels.SettledStaysQuiet | packages/anthropic-compat-proxy/src/server.ts:2748-2764 | after a tunnel has settled no timer or late event makes another request, establishes it or settles it again |
| WebSocketTunnels.DelayGrows | packages/anthropic-compat-proxy/src/server.ts:2807-2828 | the back-off starts at 250 ms, doubles up to 4 s at the fifth attempt, never shrinks, and is 5 s from the sixth on |
| WebSocketTunnels.ServeUpgrades | packages/anthropic-compat-proxy/src/server.ts:2713-2765 | for every sequence of upgrades and events the tunnel objects and their shared registry end where the event system ends; the counter is the size of the set of unsettled tunnels |
| WebSocketTunnels.WebSocketServer.Receive | packages/anthropic-compat-proxy/src/server.ts:2713-2765 | one upgrade, or one event of one tunnel, takes all tunnels and the registry they share along the run |
| WebSocketTunnels.WebSocketTunnel.SettleOnce | packages/anthropic-compat-proxy/src/server.ts:2748-2764 | `settle`: once, with the counter, the set and the timer |
| WebSocketTunnels.WebSocketTunnel.OnUpgrade | packages/anthropic-compat-proxy/src/server.ts:2900-2996 | the upstream's 101: joined, or dropped when the client is gone or the negotiation changed |
| WebSocketTunnels.WebSocketTunnel.FailTransientAttempt | packages/anthropic-compat-proxy/src/server.ts:2876-2890 | a failed attempt is retried for a locally accepted client and settles any other |
| WebSocketTunnels.WebSocketTunnel.OnResolved | packages/anthropic-compat-proxy/src/server.ts:2830-2835 | after the await no request is made for a tunnel that is settled or whose client is gone |
| WebSocketOutcomes.UpgradeSays | packages/anthropic-compat-proxy/src/server.ts:2900-2996 | over every run, the 101 of an attempt that is not spent establishes the tunnel if and only if it was unsettled, both sockets are alive and the negotiation is the one a local answer promised; otherwise the tunnel is settled and its client destroyed |
| WebSocketOutcomes.SpentIsIgnored | packages/anthropic-compat-proxy/src/server.ts:2876-2890 | a second word about an attempt that is over changes nothing |
| WebSocketOutcomes.PlainUpgrade | packages/anthropic-compat-proxy/src/server.ts:2900-2996 | after any run, a tunnel that is opened, resolved and answered by a 101 is established and unsettled |
| WebSocketOutcomes.FailureSays | packages/anthropic-compat-proxy/src/server.ts:2876-2890 | a failed attempt leaves a locally answered tunnel waiting with one more timer, and settles any other |
| WebSocketOutcomes.HeldClientRetries | packages/anthropic-compat-proxy/src/server.ts:2807-2828 | a locally answered client is retried after a failure |
| WebSocketOutcomes.OpeningSays | packages/anthropic-compat-proxy/src/server.ts:2713-2765 | an accepted upgrade starts one attempt, or is settled at once if its local answer cannot be written |
| WebSocketOutcomes.ResolvedSays | packages/anthropic-compat-proxy/src/server.ts:2830-2835 | a resolved attempt makes its request if and only if the tunnel is unsettled and its client alive |
| WebSocketOutcomes.AnswerSays | packages/anthropic-compat-proxy/src/server.ts:2999-3020 | an ordinary answer settles the tunnel and destroys a client that was answered locally |
| WebSocketOutcomes.TimerSays | packages/anthropic-compat-proxy/src/server.ts:2807-2828 | a timer that fires starts one more attempt |
| WebSocketOutcomes.ClosingSays | packages/anthropic-compat-proxy/src/server.ts:2948-2970 | what ends a tunnel, and which ends leave the client to itself |
| WebSocketOutcomes.DestroyedSays | packages/anthropic-compat-proxy/src/server.ts:2769-2783 | a client socket that is destroyed stays in its tunnel until its close is heard |

## Left out

- Header fields, compression, logging, timeouts as durations, TLS and real sockets of the proxy: only events and bytes are modelled.
- `message_start` and `message_delta` carry no id, model, usage or service tier; a `Failed` event carries the assembled message.
- Events without a numeric `output_index`, and output items whose `id` is neither a string nor absent.
- Strings are sequences of characters, one for each UTF-16 unit; lone surrogates and decoding errors do not occur.
- The other fields of `translateRequest` (tools, tool choice, effort, instructions), messages whose content is a plain string, and the parts of tool results and images.
- The recovery rules' matching and stripping: an `End` event carries what they decide. The two-transform pipeline is a count of transforms still to flush.
- Whether a request's history turns response rewriting on (`collectToolUseIdsForResponseRewrite`); a request that does not brings no ids.
- A local handler that goes on writing after its promise has settled, and loggers that throw.
- Observer callbacks that throw, and a `retry()` that throws after its upstream request exists.
- Client and upstream sockets of a WebSocket tunnel after it is established (piping, half-close), and the proof of a handshake kept for reconnects.
- The SOCKS5 timer and socket errors are the reader's `Fail`; the failure texts are constructors.
- StreamGates.DeclaredExactly: takes the marker on bytes where the source tests UTF-8 text; the marker is ASCII.
- ToolUseIds.ConcurrentIdsDistinct: across streams of one thread assumes that the cache drops none of its ids, because a dropped id can be passed on again.
- ToolUseIdChunking.OutputIdsDistinct: assumes that a printed frame is one line in which a parser finds the id that was set, because JSON is a parameter, and a safe stream, because in others the bytes depend on the chunks.
- EventStreams.StreamingAgreesWithWhole: assumes at most one data line per event, because the streaming loop parses each line by itself.
- Outbound proxy selection, browser control, wire diagnostics, the desktop and mobile applications, and login fixtures.
