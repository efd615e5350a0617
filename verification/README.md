# A verified model of Buzz

Buzz is a proxy in front of language model providers. This project models the four parts of it
that hold state, arithmetic or round trips, and proves what they keep.

- **Streams.** An upstream event stream is read into canonical events through a per-index tool
  tracker; an encoder writes them as OpenAI Responses or Anthropic frames. `Canonical` says what a
  canonical stream means, without mentioning a reader or an encoder. `ToolTracker` is the tracker,
  `ChatReader`, `GeminiReader`, `ResponsesReader` and `AnthropicReader` are the readers,
  `ResponsesEncoder` and `AnthropicEncoder` the encoders. `ResponsesGrammar` and
  `AnthropicEncoderSpec` say what frames every run writes, `ResponsesItems` which items, read off
  the events; `ResponsesRoundTrip` (with `ResponsesFollows`) and `AnthropicRoundTrip` that reading
  them back gives the stream, `ResponsesIDs` for which call ids; `ResponsesBody` is the same for
  whole responses, and `Envelopes` what surrounds the items of a stream. `Gatherings` says what an
  upstream sends about a call, fragment by fragment, and what it says; on it `ChatStream`,
  `GeminiStream`, `AnthropicStream` and `ResponsesStream` tell, from the lines or frames alone,
  what every upstream is read as. `LockStep` and `GeminiStream` go on to the client.
- **The ledger.** `Ledger` holds the tables and what one usage record does to them, `LedgerStore`
  the transaction, `LedgerSummary` the aggregates against the log, `LedgerPools` the weekly and the
  lifetime pool, `Quota` the periods, the status and the cost, `Admission` the protocol of
  checking first and charging later.
- **The scheduler.** `KeyRing` is the ring of provider keys with its cooldowns, `RoundRobin` its
  fairness, `KeyMarks` what marking, healing and removing a key come to, `SharedCursor` what is left
  of the fairness among two targets, `KeySearch` the search across the ring and the shared store,
  `RouteRotation` the turns of route targets, `Attempts` the two retry loops with one budget.
- **Histories.** `GeminiHistory` reads and writes the parts of a Gemini history,
  `GeminiHistoryRead` says what they are read as, `GeminiHistoryTrip` and `GeminiHistoryTwice`
  prove the round trip; `ResponsesInput` groups and flattens the items of a Responses request,
  `ResponsesInputRuns` says into which messages, `ResponsesInputTrip` proves that nothing is lost,
  and `JsonStrings` that a quoted output is read as it was.

A part of the program that changes fields is a class here, with the same fields and methods; a
loop is a loop. Each such method is tied by its contract to a function of the values it started
from (`View()` is the value of an object), and the theorems are lemmas about these functions, for
every input and every run. Streams are sequences of frames, of any length.

Some obvious claims are false of the code. They are stated with the exact condition under which
they hold, and some with a run that breaks it: a finished reasoning item repeats the reasoning of
earlier ones (`ResponsesReasoning.ReasoningIsOwnExactly`); calls whose ids are empty or blank may
come back under another id or twice (`ResponsesRoundTrip.ResponsesRoundTrips`,
`ResponsesBlankID.BlankIDIsReadTwice`); the daily summary is filtered by the hour
(`LedgerSummary.DailyIsExactIff`); a lifetime pool turned on late is not charged for what is
already over the limit (`LedgerPools.TermsChange`, `LedgerPools.LateLifetimePool`); keys go round
for one target but not for two (`SharedCursor.FairIff`, `SharedCursor.SharedCursorStarves`); a key
whose shared cooldown expires exactly now is cooling in one store and free in the other
(`KeySearch.SearchEndsIff`); the outputs of functions come back quoted
(`ResponsesInputTrip.SameIffNoOutputs`).

`dafny verify dfyconfig.toml` checks the project.

## Model

| member | source | states |
|---|---|---|
| `Canonical.ExactlyOneDone` | internal/stream_convert.go:1446-1535 | in a stream that repeats nothing, a closed index has one Done and every other Done of that index is the same one |
| `Canonical.ToolOrderIsSeen` | internal/stream_convert.go:1446-1463 | an index is in the order of first mention exactly when it was mentioned, and once |
| `ToolTracker.ToolCallTracker.EnsureState` | internal/stream_convert.go:1446-1463 | creates a missing entry and its place in the order, never overwrites an id or name, takes the newest signature |
| `ToolTracker.ToolCallTracker.FindCallID` | internal/stream_convert.go:1465-1475 | the first index in creation order with that id; none for the empty id |
| `ToolTracker.ToolCallTracker.StartCall` | internal/stream_convert.go:1477-1489 | a Start is told only when it creates the entry |
| `ToolTracker.ToolCallTracker.AddDelta` | internal/stream_convert.go:1491-1501 | the delta is appended to its index and told under the known id and name |
| `ToolTracker.ToolCallTracker.FinishCall` | internal/stream_convert.go:1503-1521 | a Done is told once per index, with the given arguments or those gathered |
| `ToolTracker.ToolCallTracker.FinishAll` | internal/stream_convert.go:1523-1535 | every entry is done afterwards, in creation order |
| `ToolTracker.TracksStart` | internal/stream_convert.go:1477-1489 | after a Start the tracker still agrees with the events it told: same calls, order without repeats, nothing told twice |
| `ToolTracker.TracksDelta` | internal/stream_convert.go:1491-1501 | the same after a delta |
| `ToolTracker.TracksDone` | internal/stream_convert.go:1503-1521 | the same after a Done |
| `ToolTracker.TracksDoneAll` | internal/stream_convert.go:1523-1535 | the same after closing all, and every entry is then done |
| `ToolTracker.OrderMatchesMap` | internal/stream_convert.go:1437-1463 | in every tracked state the order lists exactly the keys of the map, each once |
| `ToolTracker.AllDoneMeansExactlyOnce` | internal/stream_convert.go:1428-1535 | when all entries are done, each index mentioned has exactly one Done, and at most one Start, which is its first event |
| `ToolTracker.DoneFirstQuiet` | internal/stream_convert.go:1503-1535 | closing what is closed tells nothing and keeps it closed |
| `ResponsesFrames.ResponseToCanonical` | internal/protocol/openai_responses.go:353-417 | the loop gathers text, refusal, reasoning, signature and calls of the output list as the fold over its items does, with the finish reason of the status, or reports an error status |
| `ResponsesFrames.ConcatPieces` | internal/protocol/openai_responses.go:365-386 | the parts of one type, concatenated in order |
| `ResponsesEncoder.ResponsesStreamEncoder.constructor` | internal/stream_convert.go:59-83 | a new encoder has written response.created and nothing else |
| `ResponsesEncoder.ResponsesStreamEncoder.Write` | internal/stream_convert.go:85-89 | one frame more, with the next sequence number |
| `ResponsesEncoder.ResponsesStreamEncoder.OpenText` | internal/stream_convert.go:125-162 | open reasoning is closed, and the message item opened at the next index, unless it is open |
| `ResponsesEncoder.ResponsesStreamEncoder.OpenReasoning` | internal/stream_convert.go:164-190 | the reasoning item is opened at the next index unless it is open; its text is not reset |
| `ResponsesEncoder.ResponsesStreamEncoder.CloseOpenReasoning` | internal/stream_convert.go:212-246 | the open reasoning item is finished with all reasoning gathered so far |
| `ResponsesEncoder.ResponsesStreamEncoder.AddReasoning` | internal/stream_convert.go:192-210 | reasoning and signature are gathered, the delta is written |
| `ResponsesEncoder.ResponsesStreamEncoder.AddText` | internal/stream_convert.go:248-265 | text is gathered in the message item, text or refusal as it was opened |
| `ResponsesEncoder.ResponsesStreamEncoder.StartTool` | internal/stream_convert.go:267-303 | a new call takes the next index; a known one only gains what it lacked |
| `ResponsesEncoder.ResponsesStreamEncoder.AddArguments` | internal/stream_convert.go:305-326 | arguments are gathered and written until the call is done |
| `ResponsesEncoder.ResponsesStreamEncoder.FinishTool` | internal/stream_convert.go:328-377 | a call is done once, with the given arguments or those gathered |
| `ResponsesEncoder.ResponsesStreamEncoder.FinishText` | internal/stream_convert.go:402-446 | the message item is finished with everything said |
| `ResponsesEncoder.ResponsesStreamEncoder.FinishTools` | internal/stream_convert.go:447-458 | calls not yet done are done in ascending order of their tool index |
| `ResponsesEncoder.ResponsesStreamEncoder.SortedToolIndexes` | internal/stream_convert.go:482-489 | the tool indices in ascending order, each once |
| `ResponsesEncoder.ResponsesStreamEncoder.SortOutput` | internal/stream_convert.go:491-499 | the finished items in ascending order of their output index |
| `ResponsesEncoder.ResponsesStreamEncoder.Finish` | internal/stream_convert.go:379-470 | the whole of finish, with status, incomplete reason and terminal frame |
| `ResponsesEncoder.ResponsesStreamEncoder.Fail` | internal/stream_convert.go:112-121 | an error is written if it has data, and the encoder is finished |
| `ResponsesEncoder.ResponsesStreamEncoder.WriteEvent` | internal/stream_convert.go:91-123 | one step of the encoder, after which its frames are a disciplined stream, whatever events it was given |
| `ResponsesGrammar.RunLive` | internal/stream_convert.go:91-377 | after any events before an end, every reserved output index is in a phase that its frames show and the fields agree with |
| `ResponsesGrammar.StepDisciplined` | internal/stream_convert.go:91-123 | one more event of any kind keeps the frames disciplined |
| `ResponsesGrammar.RunDisciplined` | internal/stream_convert.go:85-123 | in every run sequence numbers count from 0 without a gap; each output index has one added, then only its own deltas, then at most one done; nothing follows the terminal or error frame |
| `ResponsesGrammar.EncodeStops` | internal/stream_convert.go:91-95 | after a terminal event no event writes anything |
| `ResponsesGrammar.FinishCompletes` | internal/stream_convert.go:379-470 | finishing a live encoder leaves every reserved index done, and the terminal frame lists each finished item once, in index order |
| `ResponsesGrammar.FinishedRunComplete` | internal/stream_convert.go:379-499 | so does every run that ends with a finish |
| `ResponsesGrammar.ReservedIndicesPartition` | internal/stream_convert.go:125-377 | in every reachable state the indices 0..next-1 split, without overlap, into finished items, open text, open reasoning and calls not yet done |
| `Envelopes.BeginsInProgress` | internal/stream_convert.go:59-83 | every Responses stream begins with its own response in progress, without output |
| `Envelopes.EndsAsTold` | internal/stream_convert.go:379-470 | the terminal frame of every finished run has the id, time and model of the first one, the usage last reported, and is incomplete, with its reason, if and only if the status says so or, where the status leaves it open, the finish reason does |
| `Envelopes.MessageHasStatus` | internal/stream_convert.go:402-470 | the message listed in it has the status of the response |
| `Envelopes.FailsAsTold` | internal/stream_convert.go:112-121 | an error is told in one frame more, numbered next, or ends the stream without a word |
| `ResponsesReasoning.ReasoningIsCumulative` | internal/stream_convert.go:164-246 | in every run a finished reasoning item says all reasoning of the stream so far, not only its own |
| `ResponsesReasoning.ReasoningIsOwnExactly` | internal/stream_convert.go:164-246 | a finished reasoning item says exactly its own deltas if and only if, in the events before the one that closes it, no first words and no first mention of a call come between one non-empty reasoning delta and a later delta or signature; and it is closed by such an event or by the finish |
| `ResponsesReasoning.WrittenSomewhere` | internal/stream_convert.go:85-131 | every frame but the first is written at some event of the run |
| `ResponsesItems.RunPlaces` | internal/stream_convert.go:133-330 | in every run the number of items, whether reasoning is open, and the output index of every call are read off the events alone |
| `ResponsesMeaning.EncodeMeans` | internal/stream_convert.go:91-377 | after any events before an end, the encoder holds what the events mean: text, refusal, reasoning, usage, every call and the order of calls |
| `ResponsesReader.ReadStream` | internal/stream_convert.go:1035-1247 | the reader loop tells the events, usage and success of the fold over the frames, stopping at the first terminal one |
| `ResponsesReader.ReadAdded` | internal/stream_convert.go:1095-1111 | an added frame opens a message or starts a call |
| `ResponsesReader.ReadDone` | internal/stream_convert.go:1129-1164 | a done frame tells late reasoning, a signature, or the Done of a call |
| `ResponsesReader.ReadEnd` | internal/stream_convert.go:1165-1222 | the terminal frame tells what no delta has told, then closes all calls, then usage and finish |
| `ResponsesReader.ReadEndCalls` | internal/stream_convert.go:1184-1207 | a call of the terminal frame is found by its id, or placed behind the tracked ones |
| `ResponsesReader.ResponsesExactlyOnce` | internal/stream_convert.go:1035-1247 | for every upstream: a Start is the first event of its index, no index is done twice, and after success every index mentioned has exactly one Done |
| `ResponsesStream.ContentSays` | internal/protocol/openai_responses.go:353-394 | a list of output items says its texts, refusals and reasoning each in order, the last signature that is not empty, and all its calls |
| `ResponsesStream.TerminalSays` | internal/protocol/openai_responses.go:395-417 | a terminal response has the finish its status, its incomplete reason and its calls decide, or is an error |
| `ResponsesStream.ResponsesTold` | internal/stream_convert.go:1035-1247 | for every upstream, told on its frames alone, up to the one that ends it: the words of the deltas of either reasoning kind, text and refusal, those of the terminal response where none was told, reasoning late if it came late; usage and finish of the terminal response; each call started at most once, done once when it ended, with the ids, names and arguments its frames gave, in order of first mention |
| `ResponsesRoundTrip.ResponsesRoundTrips` | internal/stream_convert.go:85-499 | the round trip, of any stream that finishes without error: the reader finishes, with the usage of the stream and its finish last; and the same text or refusal, reasoning, signature and calls come back in order, each call with one Start and one Done, if and only if the call ids return: a call that came without an id ends with its item id, and either every call that came with an id of spaces finds its item id given to another call, or some call stands at the output index equal to the number of calls |
| `ResponsesRoundTrip.NonBlankRoundTrips` | internal/stream_convert.go:1102-1207 | ids that are not blank always return |
| `ResponsesIDs.PlainReturn` | internal/stream_convert.go:1184-1198 | where no first id is empty or an item id of the encoder, the ids return if and only if none is blank or a call stands at the output index equal to the number of calls |
| `ResponsesFollows.EncodeFollows` | internal/stream_convert.go:1035-1167 | along a run the reader of the frames so far knows exactly what the encoder holds, each call under the id it came with or, without one, its item id |
| `ResponsesRoundTrip.FinishReasonSurvives` | internal/protocol/openai_responses.go:395-478 | the finish reason comes back if and only if the terminal status can carry it |
| `ResponsesBlankID.BlankIDIsReadTwice` | internal/stream_convert.go:1102-1207 | a run on which ids do not return: a single call with the id of one space is read twice |
| `ResponsesBlankID.BlankIDAlone` | internal/stream_convert.go:1184-1198 | its id does not return |
| `ResponsesBlankID.BlankIDAfterText` | internal/stream_convert.go:1184-1198 | with words before it the same call comes back as it was |
| `ResponsesBody.ResponseFromCanonical` | internal/protocol/openai_responses.go:419-478 | writes the response of a canonical one: status, incomplete reason, reasoning, one message, calls |
| `ResponsesBody.SpokenOutput` | internal/protocol/openai_responses.go:439-464 | the reasoning item and the message item, numbered in place |
| `ResponsesBody.AddCalls` | internal/protocol/openai_responses.go:465-476 | one function call item per call, numbered behind the others |
| `ResponsesBody.BodyWrites` | internal/protocol/openai_responses.go:419-486 | the output is the reasoning if any, one message if there are words, and one item per call, each named after the response, its kind and its place, with its status; the message has the status of the response |
| `ResponsesBody.BodyReadsBack` | internal/protocol/openai_responses.go:353-478 | a written response reads back as the same but for text beside a refusal, blank call ids and what its status cannot carry |
| `ResponsesBody.BodyReturnsIff` | internal/protocol/openai_responses.go:353-478 | it reads back unchanged if and only if it does not both speak and refuse, its calls have ids, its status is completed or incomplete and its finish reason is one that status carries |
| `AnthropicFrames.FinishReasonReturns` | internal/protocol/anthropic.go:654-682 | a finish reason survives both tables if and only if it is not empty and not the name of an Anthropic stop reason; both pass unknown reasons through |
| `AnthropicEncoder.AnthropicStreamEncoder.constructor` | internal/stream_convert.go:516-538 | a new encoder has written message_start |
| `AnthropicEncoder.AnthropicStreamEncoder.StopReasoning` | internal/stream_convert.go:639-658 | an open thinking block gets its signature and is stopped |
| `AnthropicEncoder.AnthropicStreamEncoder.StopText` | internal/stream_convert.go:675-684 | an open text block is stopped |
| `AnthropicEncoder.AnthropicStreamEncoder.StartText` | internal/stream_convert.go:581-597 | a text block is open, and no thinking block |
| `AnthropicEncoder.AnthropicStreamEncoder.StartReasoning` | internal/stream_convert.go:599-617 | a thinking block is open, and no text block |
| `AnthropicEncoder.AnthropicStreamEncoder.AddText` | internal/stream_convert.go:660-673 | text goes to the open text block |
| `AnthropicEncoder.AnthropicStreamEncoder.AddReasoning` | internal/stream_convert.go:619-637 | thinking goes to the open thinking block, signatures are kept for its end |
| `AnthropicEncoder.AnthropicStreamEncoder.FinishTool` | internal/stream_convert.go:686-724 | a call is written as one whole block when it is done |
| `AnthropicEncoder.AnthropicStreamEncoder.FinishMessage` | internal/stream_convert.go:726-768 | open blocks are stopped, then stop reason and usage, then message_stop |
| `AnthropicEncoder.AnthropicStreamEncoder.Fail` | internal/stream_convert.go:567-577 | an error is written if it has data, and the encoder is finished |
| `AnthropicEncoder.AnthropicStreamEncoder.WriteEvent` | internal/stream_convert.go:540-579 | one step of the encoder, after which its frames are a prefix of the grammar |
| `AnthropicEncoderSpec.RunLive` | internal/stream_convert.go:540-724 | after any events before an end, the frames are at a place of the grammar the open flags and the block index agree with |
| `AnthropicEncoderSpec.RunKeepsGrammar` | internal/stream_convert.go:516-768 | every run: message_start, blocks 0..n-1 each started, fed and stopped with never two open, message_delta, message_stop if it finishes; an error adds one error frame; anything after the first end writes nothing |
| `Envelopes.BeginsMessage` | internal/stream_convert.go:516-538 | every Anthropic stream begins with an assistant message of its id and model, nothing counted |
| `Envelopes.KindIsDecided` | internal/stream_convert.go:1015-1033 | the kind of an error is that of the first word of a table found in its code, whatever its case |
| `Envelopes.AnthropicFailsAsTold` | internal/stream_convert.go:567-577 | an error is told in one frame more, under that kind, or ends the stream without a word |
| `AnthropicReader.ReadStream` | internal/stream_convert.go:1249-1407 | the reader loop tells the events, usage and success of the fold over the frames |
| `AnthropicReader.ReadBlockDelta` | internal/stream_convert.go:1315-1341 | a delta becomes text, reasoning, a signature or arguments of its block |
| `AnthropicReader.ReadMessageEnd` | internal/stream_convert.go:1349-1372 | the stop reason, the refusal it stands for and the usage |
| `AnthropicReader.AnthropicExactlyOnce` | internal/stream_convert.go:1249-1407 | for every upstream: a Start is the first event of its index, no index is done twice, and unless reading aborts every index mentioned has exactly one Done |
| `AnthropicStream.AnthropicTold` | internal/stream_convert.go:1249-1426 | for every upstream, told on its frames alone, up to the one that ends it: words, thinking and signatures piece for piece, the refusal, the finish of the last stop reason; the usage by the last report of message_start or message_delta that counts: the prompt its input and both caches, completion, cached and reasoning each the last count that is not 0, the total prompt and completion; unless reading is broken off each block index mentioned is done once with the id and name of its block and the arguments received for it |
| `AnthropicRoundTrip.AnthropicRoundTrips` | internal/stream_convert.go:540-768 | the round trip: any stream that finishes without error with at most one Done per tool index comes back with the same interleaved text, reasoning and calls (of started indices), signatures, mapped finish reason, and the refusal and usage the protocol carries |
| `AnthropicRoundTrip.UsageReturns` | internal/stream_convert.go:1409-1426 | usage comes back unchanged if and only if nothing was reasoned, the total is the sum and no more was cached than prompted |
| `ChatReader.MapChunk` | internal/protocol/openai_chat_response.go:82-152 | the nested loops tell the events of all choices in order, then the usage |
| `ChatReader.MapDelta` | internal/protocol/openai_chat_response.go:86-138 | role, content, refusal, reasoning and call fragments of one delta |
| `ChatReader.MapFragments` | internal/protocol/openai_chat_response.go:115-138 | a fragment with an id or name starts its call, one with arguments feeds it |
| `ChatReader.HandleEvent` | internal/stream_convert.go:894-914 | one event of a chunk: starts and deltas go through the tracker, a finish closes all calls and is held back |
| `ChatReader.ReadStream` | internal/stream_convert.go:842-933 | the reader loop tells the events, usage and success of the fold over the lines, the finish held back to the end |
| `ChatStream.ChatStreamOnce` | internal/stream_convert.go:842-933 | for every upstream, told on its lines alone: content, refusals, reasoning and signatures of the choices in order, the last usage, the last finish reason once and last; nothing started or done twice, and each index mentioned done once with the first id and name that are not empty and the argument fragments of that index, all of them in order, up to the first finish reason; only a line that does not decode leaves calls open |
| `ChatStream.SucceedsIff` | internal/stream_convert.go:842-933 | reading succeeds if and only if [DONE] ends the stream, or it just ends after a finish reason |
| `LockStep.InLockStep` | internal/stream_convert.go:267-377 | fed by a tracker, the encoder has the same calls, done at the same time, with the same arguments for every call not done |
| `LockStep.FinishDelivers` | internal/stream_convert.go:328-470 | a finished Responses stream delivers each call of its events with exactly the id, name and arguments they give |
| `LockStep.ChatToResponses` | internal/canonical_proxy.go:490-503 | from Chat to Responses: every successful upstream finishes the client stream complete, each call of its lines delivered with the first id and name and exactly the fragments the lines carry for it up to the first finish reason |
| `GeminiReader.MapParts` | internal/protocol/gemini_response.go:36-87 | text and thoughts in order, each named call as Start, arguments and Done under the next index |
| `GeminiReader.MapCall` | internal/protocol/gemini_response.go:53-85 | the trimmed id or one made of request and index; blank or null arguments become an empty object |
| `GeminiReader.InsertUsage` | internal/protocol/gemini_response.go:111-120 | the usage stands directly before the first finish, or last |
| `GeminiReader.MapChunk` | internal/protocol/gemini_response.go:33-122 | content, then usage, then finish of a chunk, with a blocked prompt as a refusal |
| `GeminiReader.ReadChunk` | internal/stream_convert.go:987-1001 | the inner loop counts the calls, keeps the usage and turns a stop after a call into tool_calls |
| `GeminiReader.ReadStream` | internal/stream_convert.go:935-1013 | the reader loop tells the events, usage and success of the fold over the lines |
| `GeminiStream.GeminiTold` | internal/stream_convert.go:935-1013 | for every upstream, told on its lines alone: the same words piece for piece, a blocked prompt as a refusal; the k-th call of all chunks under index k with one Start and one Done, under its trimmed id or else one of request and index, with its own arguments or else {}; finishes by the table of reasons, told as tool_calls once there was a call; usage the last |
| `GeminiStream.SucceedsIff` | internal/stream_convert.go:935-1013 | reading succeeds if and only if the input ends without a read error after [DONE] or, with every line a chunk, after a finish |
| `GeminiStream.GeneratedIDsDiffer` | internal/protocol/gemini_response.go:53-57 | calls without an id get different ids |
| `GeminiStream.GeminiToResponses` | internal/canonical_proxy.go:490-503 | whatever a successful Gemini stream says before its first finish, or before [DONE] when the driver has to finish it, a client of the Responses protocol reads back |
| `GeminiStream.GeminiToAnthropic` | internal/canonical_proxy.go:507-520 | and its interleaved content a client of the Anthropic protocol |
| `Ledger.BucketsAreMultiples` | internal/store_usage.go:560-587 | for the widths of the tables and of the series the bucket floor is the nearest multiple below; for the hourly and daily ones the ceiling the nearest above |
| `Ledger.InWindow` | internal/store_usage.go:520-527 | a bucket starts in a window if and only if its members lie between the ceilings of the ends |
| `Ledger.BatchesJoin` | internal/store_usage.go:86-155 | cutting a run into batches does not change what it does |
| `LedgerStore.Store.InsertLog` | internal/store_usage.go:93-117 | one row more in the log, or a failure |
| `LedgerStore.Store.UpsertHourly` | internal/store_usage.go:118-121 | counters added, names replaced, or a failure when a counter no longer fits |
| `LedgerStore.Store.UpsertDaily` | internal/store_usage.go:122-125 | the same by day |
| `LedgerStore.Store.UpsertPeriod` | internal/store_usage.go:58-75 | the used microcredits of the period after the charge, or a failure for a missing user or an overflow |
| `LedgerStore.Store.ChargeLifetime` | internal/store_usage.go:76-84 | the user's lifetime usage grows by the amount, or a failure when it no longer fits |
| `LedgerStore.Store.ChargeRecord` | internal/store_usage.go:126-152 | the period grows by the cost and the lifetime pool by the growth of the overage |
| `LedgerStore.Store.InsertRecord` | internal/store_usage.go:86-153 | all statements of one record, or a failure |
| `LedgerStore.Store.InsertUsageBatch` | internal/store_usage.go:10-155 | a batch is applied whole or leaves every table as it was, and fails only by a failed statement |
| `LedgerSummary.RunKeepsAggregates` | internal/store_usage.go:86-125 | after any run of batches both aggregate tables are the aggregates of the log |
| `LedgerSummary.AggregateIsSums` | internal/store_usage.go:164-217 | every aggregate row counts the rows of the log in its bucket, of its user, key and model: how many, how many with status 400 and above, and the sums of their latency, prompt, completion, total, cached and reasoning fields, with the names of the latest; there is no other row |
| `LedgerSummary.SummaryIsScan` | internal/store_usage.go:219-316 | whichever table a summary reads, each counter is a sum over the fields of the records of the log that match the user, key and model asked for, in a fixed window: as given, by the hour, or by the day |
| `LedgerSummary.DailyIsExactIff` | internal/store_usage.go:509-529 | the daily summary equals the scan from hour to hour on every log if and only if both hours are midnights |
| `LedgerSummary.BuildSeries` | internal/store_usage.go:378-480 | the series loop sums its rows by bucket |
| `LedgerSummary.SeriesSplits` | internal/store_usage.go:378-480 | each bucket of a series sums its own rows and together they sum to all of them |
| `LedgerPools.PoolsConserve` | internal/store_usage.go:126-162 | conservation: over any run of batches lifetime usage grows by exactly the growth of the weekly overage, and each microcredit charged with the lifetime pool on lands in exactly one pool |
| `LedgerPools.PeriodIsSum` | internal/store_usage.go:58-72 | a period's usage is the sum of the charges to it; it exists if and only if it has one |
| `LedgerPools.OrderDoesNotMatter` | internal/store_usage.go:86-155 | the balances after two successful runs of the same records are the same in any order |
| `LedgerPools.TermsChange` | internal/store_usage.go:142-152 | when the terms of periods change between runs, lifetime usage still is the overage if and only if the change itself moves none |
| `LedgerPools.LateLifetimePool` | internal/store_users.go:251-264 | a run that breaks it: a lifetime pool turned on in a period with 15 credits used of 10; 5 credits later 20 are used and 5 are on the lifetime pool |
| `LedgerPools.TakenIff` | internal/store_usage.go:86-155 | a record is taken if and only if every counter of its hour and its day, summed over the log with it, fits 64 bits, and where it is charged its user is known and both pools can hold the charge |
| `LedgerPools.RunTakenIff` | internal/store_usage.go:86-155 | and a run if and only if each of its records is, after those before it |
| `Quota.PeriodHoldsIff` | internal/store_quota.go:59-68 | a weekly period is 7 days long and holds the time it was asked for if and only if the time is not before the anchor and less than 292 years after |
| `Quota.PeriodsTile` | internal/store_quota.go:59-68 | two times have the same period if and only if one lies in the period of the other |
| `Quota.AdmittedIff` | internal/quota.go:8-22 | a request is admitted unless its user has a quota, and then if and only if the period or the lifetime pool has something left; only a user who is missing fails the check |
| `Quota.StatusSplits` | internal/store_quota.go:15-56 | used and left of a period add up to the weekly limit, and nothing beyond it counts as used; nothing less than zero is left of the lifetime pool |
| `Quota.ChargedWhereAdmitted` | internal/usage.go:55-128 | a request is charged to the period its user was in when it was recorded, with the weekly limit and the lifetime pool of its token, and that of a user without quota to none |
| `Quota.QuotaMicrocredits` | internal/usage.go:124-136 | the cost is the sum of the three prices, capped once, whatever the steps |
| `Quota.CostByKind` | internal/usage.go:124-136 | which rate is for what: input that was not cached, input that was, and output, each alone costs its tokens times its rate, to the nearest microcredit |
| `Quota.CostIsCapped` | internal/usage.go:138-147 | capping every step is capping the sum |
| `Admission.StepKeeps` | internal/quota.go:8-22 | every move of the protocol keeps the overdraft invariant |
| `Admission.OverdraftBound` | internal/store_usage.go:126-152 | in every interleaving of checks and charges the usage of a period, with all requests under way still to be charged, stays below the budget plus width times the most a request costs |
| `Admission.BoundIsReached` | internal/usage.go:55-128 | no smaller bound would do |
| `KeyRing.KeyState.Next` | internal/key_state.go:14-37 | the first eligible key from the cursor on, if any; its stale entry is dropped and the cursor goes past it |
| `KeyRing.KeyState.Available` | internal/key_state.go:39-50 | the number of keys that serve the target |
| `KeyRing.KeyState.MarkExhaustedUntil` | internal/key_state.go:66-109 | the key cools, from the second hit on for long |
| `KeyRing.KeyState.TakeOver` | internal/key_state.go:81-95 | an expiry that has not passed is taken over |
| `KeyRing.KeyState.Heal` | internal/key_state.go:179-192 | cooldown, hits and errors of the key are forgotten |
| `KeyRing.KeyState.Delete` | internal/key_state.go:127-159 | the key goes, and every cooldown under its name; the cursor stays in the ring |
| `RoundRobin.FailsIff` | internal/key_state.go:14-37 | no key is returned if and only if none is eligible |
| `RoundRobin.TurnGoesLast` | internal/key_state.go:18-34 | a call takes the first turn and puts it last |
| `RoundRobin.CallReturnsTurn` | internal/key_state.go:14-37 | the k-th consecutive call returns the key at turn k modulo the number of eligible keys |
| `RoundRobin.EachKeyOnce` | internal/key_state.go:14-60 | of any m consecutive calls, m the number of eligible keys, exactly one returns each eligible position |
| `RoundRobin.TurnsCount` | internal/key_state.go:18-34 | there are as many turns as eligible keys |
| `KeyMarks.EligibleIff` | internal/key_state.go:14-60 | a key is eligible if and only if neither its provider name nor its provider id contradicts the target and no entry under its model and name lies in the future |
| `KeyMarks.AvailableIs` | internal/key_state.go:39-50 | what is counted is the number of keys that serve the target |
| `KeyMarks.NextDropsStale` | internal/key_state.go:18-34 | a call drops the entry of the key it returns and no other |
| `KeyMarks.MarksInARow` | internal/key_state.go:66-109 | a key marked on its first hit expires at the mark plus the jitter and the short cooldown, on every later hit plus the long one, or an hour without one; hits are counted, and no other entry has moved |
| `KeyMarks.StoredInARow` | internal/runtime_cache.go:328-376 | the same of the shared store, where an entry once long stays long, the short cooldown is a minute where none is set, and the stored expiry is cut to the second |
| `KeyMarks.ExhaustedIsSkipped` | internal/key_state.go:66-109 | a marked key is eligible again exactly from its expiry on, under its model, and the keys of other names are as before |
| `KeyMarks.HealthyIsEligible` | internal/key_state.go:179-192 | a healed key is eligible, its next hit a first one, its errors gone in every model; the entries of others stay |
| `KeyMarks.WithoutKeepsOthers` | internal/key_state.go:127-166 | removing takes out the records of the key, known by the number of its provider key or else its own, and no other |
| `KeyMarks.RemoveForgets` | internal/key_state.go:127-159 | with a key go its cooldowns in every model and none that could not be one of its name; the cursor stays where it is, taken round the smaller ring |
| `KeyMarks.OwnEntries` | internal/key_cooldown.go:46-64 | for one target, two keys of one provider share an entry of the shared store if and only if they have the same number, or without numbers the same name, or without either the same id |
| `KeyMarks.OwnProviders` | internal/key_cooldown.go:46-64 | for a target that names no provider, keys of different numbered providers share none |
| `KeyMarks.OwnModels` | internal/key_cooldown.go:46-64 | a key has an entry of its own for every upstream model |
| `SharedCursor.FairIff` | internal/key_state.go:14-37 | on a fixed ring with a frozen clock, every m consecutive keys returned to one asker are its m eligible keys once each, in every interleaving with the calls of another, if and only if m is at most one or the other has no eligible key |
| `SharedCursor.SharedCursorStarves` | internal/key_state.go:18-34 | a run that breaks it: two targets that take turns keep the cursor away from a key for ever |
| `KeySearch.Server.NextProviderKey` | internal/key_cooldown.go:9-21 | the loop returns what its rounds come to, and leaves the ring as they do, whenever they come to an end at all |
| `KeySearch.Server.MarkProviderKeyExhausted` | internal/key_cooldown.go:23-31 | the key is marked in both stores, and the shared expiry taken over |
| `KeySearch.Server.MarkProviderKeyHealthy` | internal/key_cooldown.go:33-36 | the key is healed in both stores |
| `KeySearch.SearchIsCorrect` | internal/key_cooldown.go:9-21 | a key found serves the target and cools in neither store; if none is found every key that serves it cools, or a namesake of it does in the shared store |
| `KeySearch.FailureMeansAllCool` | internal/key_cooldown.go:9-21 | with names of their own, every key cools in one of the stores when the search fails |
| `KeySearch.RoundTakesOut` | internal/key_cooldown.go:9-21 | each round takes at least one key out of the eligible ones |
| `KeySearch.SearchEndsIff` | internal/key_cooldown.go:9-21 | with a frozen clock, and names of their own for the keys of a provider (as internal/store_schema.go:87 demands), the search ends if and only if some eligible key is free in the shared store or no entry of an eligible one expires exactly now |
| `KeySearch.MarkedInBoth` | internal/runtime_cache.go:328-376 | after a mark the key is returned to no server while the shared entry lasts |
| `RouteRotation.ExpandWeightedTargets` | internal/provider.go:222-237 | each target as often as its clamped weight, in order |
| `RouteRotation.Router.RotateRouteTargets` | internal/provider.go:179-197 | the list from the counter on, and the counter one further |
| `RouteRotation.Router.RotateWeightedRouteTargets` | internal/provider.go:199-220 | the list from the first target with the id the wheel shows |
| `RouteRotation.SelectionRotates` | internal/provider.go:179-220 | every list returned is a rotation of the targets, from any counter value, and no counter of another model moves |
| `RouteRotation.WheelIsRound` | internal/provider.go:222-237 | the wheel is one round long: the weights added up, each taken as at least 1 and at most 100 |
| `RouteRotation.ExactShares` | internal/provider.go:199-237 | with distinct ids, in any round of consecutive selections each target comes first exactly as often as its weight, taken as at least 1 and at most 100; without weights, in any n selections once |
| `Attempts.Proxy.DoAttemptLoop` | internal/provider.go:380-508 | the attempts at one target: result, chain and status |
| `Attempts.Proxy.DoTargetLoop` | internal/provider.go:510-548 | the attempts at all targets with one budget |
| `Attempts.PreferRouteSessionTarget` | internal/route_session.go:11-34 | the first target of the session leads, the others follow in their order; without one nothing moves |
| `Attempts.AttemptLoopAccounts` | internal/provider.go:380-508 | one target uses at most its share of the budget, and if it fails has used it up, run out of keys or has no provider |
| `Attempts.SharedBudget` | internal/provider.go:510-548 | over all targets and keys at most max(1, MaxAttempts) requests are sent, and the chain has one link per attempt but a successful last one, plus one per target that ended with all keys cooling or no provider |
| `Attempts.OkIsSettled` | internal/provider.go:447-491 | over all targets and keys the n requests sent take the first n replies; success is the last of them being a response that is not 429, below 500, not 401 or 403 and not 400 with an invalid key, and none before it was |
| `Attempts.AttemptLoopExplained` | internal/provider.go:395-508 | the chain of one target has a link for each reply in turn, the key and the status it failed or was disabled with, and all keys cooling at its end if none was found |
| `Attempts.FailureStatus` | internal/provider.go:380-548 | a request that fails has the status of the last reply of 400 or more its last target gave, 429 if there was none, 502 without a provider; and it fails only when no target or no request is left |
| `GeminiHistory.ToolCallResolver.AddCall` | internal/protocol/gemini.go:386-393 | the id, or one of its place, waits under its name |
| `GeminiHistory.ToolCallResolver.TakeCall` | internal/protocol/gemini.go:395-422 | the waiting call of the id, or without one the oldest under the name, is taken out |
| `GeminiHistory.PartsToCanonical` | internal/protocol/gemini.go:424-494 | the loop over the parts of a message, or its error |
| `GeminiHistory.ReadOne` | internal/protocol/gemini.go:427-491 | one part: appended, or merged into the last one |
| `GeminiHistory.PartsToGemini` | internal/protocol/gemini.go:552-610 | the parts written out, without empty unsigned text, or an error |
| `GeminiHistoryRead.ReadIsHeard` | internal/protocol/gemini.go:424-494 | a message is accepted if and only if each part says something after those before it: a named call, a response with a call of its name waiting, data that is not a thought, text or a signature; and is read as a list that says exactly that, letter by letter, with no two loose texts of a kind side by side |
| `GeminiHistoryRead.RefusedFor` | internal/protocol/gemini.go:424-494 | a message that is not accepted is refused for the first part that says nothing: no name of a call or response, no call to match, data in a thought, or an empty part |
| `GeminiHistoryRead.TightIsUnique` | internal/protocol/gemini.go:480-488 | there is only one such list |
| `GeminiHistoryRead.WrittenAs` | internal/protocol/gemini.go:552-626 | which parts can be written and as what, responses that are no objects under the name result |
| `GeminiHistoryTrip.ResponsesAreMatched` | internal/protocol/gemini.go:378-422 | in any accepted history every response is matched to an earlier call of its name, no two to the same |
| `GeminiHistoryTrip.ResponsesAreInOrder` | internal/protocol/gemini.go:395-422 | responses without ids take the calls of their name first in, first out |
| `GeminiHistoryTrip.MessageTrips` | internal/protocol/gemini.go:424-626 | a message written and read, after what was seen, comes back if and only if it can be written and each response has a waiting call; then settled: tidied, a call without an id with that of its written place, a response without one with that of the oldest waiting call of its name |
| `GeminiHistoryTwice.HistoryTrips` | internal/protocol/gemini.go:242-308 | the same for whole histories, with calls waiting across messages, if and only if every message can be written and every response has an earlier call of its own |
| `GeminiHistoryTwice.SecondTrip` | internal/protocol/gemini.go:424-626 | of any accepted history, a second trip changes nothing |
| `GeminiHistoryTwice.SettledIsTidy` | internal/protocol/gemini.go:480-488 | after a trip nothing is left to drop, merge or trim, and every call and response has an id |
| `GeminiHistoryTwice.SettledWithIDs` | internal/protocol/gemini.go:424-626 | where calls and responses bring their ids, settling is dropping empty unsigned text, merging unsigned text of a kind and trimming, nothing else |
| `ResponsesInput.InputToCanonical` | internal/protocol/openai_responses.go:500-585 | the grouping loop, with names filled in, or its error |
| `ResponsesInput.GroupOne` | internal/protocol/openai_responses.go:503-577 | one item: a message of its own, a call added to the last message, or reasoning that waits |
| `ResponsesInput.ReadReasoning` | internal/protocol/openai_responses.go:548-566 | summary and content texts of a reasoning item |
| `ResponsesInput.PopulateNames` | internal/protocol/canonical.go:172-188 | names of tool responses filled in, message by message |
| `ResponsesInput.MessageToInput` | internal/protocol/openai_responses.go:616-666 | a message flattened: reasoning, content, then calls and responses |
| `ResponsesInputTrip.RejectedIff` | internal/protocol/openai_responses.go:500-580 | a history is rejected if and only if an item is bad, or a non-empty run of reasoning is not followed directly by an assistant message or a function call |
| `ResponsesInputRuns.RunsAreMessages` | internal/protocol/openai_responses.go:500-580 | an accepted history is read as one message for each run: reasoning and what it leads to, calls joined to the calls before them, a message or an output alone; of the role and the parts its items say |
| `ResponsesInputTrip.GroupingIsLossless` | internal/protocol/openai_responses.go:488-666 | whatever is accepted comes back flattened item for item in the same order, function outputs quoted |
| `JsonStrings.QuotedIsRead` | internal/protocol/openai_responses.go:965-968 | a quoted output is a JSON string that reads as the output |
| `ResponsesInputTrip.SameIffNoOutputs` | internal/protocol/openai_responses.go:538-547 | plain items come back the same if and only if none is the output of a function |
| `ResponsesInputTrip.NamedByLatestCall` | internal/protocol/canonical.go:172-188 | a response without a name gets that of the latest call of its id before it; every other part stays |

## Left out

Of the streams:

- The bytes of server-sent events and JSON: a frame is one `data:` line of an event stream
  (section 9.2 of the WHATWG HTML Living Standard), and a line that does not decode is one
  constructor.
- The Gemini stream encoder and the OpenAI Chat stream writer: they keep no state a theorem would
  be about.
- Thought signatures of Gemini text parts and tool signatures in Responses items: no round trip
  carries them.
- `GeminiReader.MapParts`: the thought signature of a text part is dropped; only the Gemini stream
  encoder, not modelled, would write it.
- Letter case outside ASCII in `strings.ToLower`, and the width of Go's indices and counters in
  frames: integers are unbounded there.
- `ResponsesReader.ReadStream` and `AnthropicReader.ReadStream`: a read error of the connection
  shows as a stream that has not finished; the error value itself is not modelled.
- `ResponsesRoundTrip.ResponsesRoundTrips`: calls are compared by id, name and arguments; the index
  under which the client sees a call is the output index and differs from the sender's.

Of the ledger:

- `LedgerSummary.BuildSeries`: buckets start in UTC; the source floors them in the location asked for.
- The provider columns and the raw usage of a log row, which no query modelled here reads, average
  latencies, labels and the counts by key name.
- `LedgerPools.OrderDoesNotMatter`: compares runs that both succeed. Whether a run succeeds can
  depend on the order where counters overflow.
- `Quota.QuotaMicrocredits`: rates and products are reals here; the source's are doubles, and
  compare with the cap after rounding to one.
- `Admission.OverdraftBound`: the credits and the anchor of the user stay fixed in the period; a
  reset or a new quota starts another period and another bound.
- Resetting quotas, users and their sessions, the queue in front of the store for users without a
  quota.

Of the scheduler:

- The mutexes: a method is one step.
- Clocks and the random part of a cooldown: both are inputs, and `KeySearch`, `RoundRobin` and
  `SharedCursor` hold the clock still during a search or a run of calls.
- The retention of entries in the shared store: an entry that is gone is one that is not there.
- `Attempts.Proxy.DoAttemptLoop`: what the key search and the upstream answer is given as two lists,
  so the effect of an attempt on the key ring is not part of the loop; bodies of replies are left
  out but for whether they call the key invalid.
- Choosing among the endpoints of a route before rotation (`selectRouteTargets`), and where route
  sessions are stored.

Of the histories:

- Parsing of JSON, base64 and data URLs: content is decoded already, and a part that does not decode
  is one constructor. A response is an object or another value; how its bytes are laid out is not
  modelled.
- Tools, tool choices, schemas, generation settings and other options of a request.
- Roles of Gemini messages, the system instruction, and dropping messages of blank text:
  `GeminiHistoryTwice.HistoryTrips` is about the parts of messages and the resolver they share.
- Joining system messages into the instructions of a Responses request: every message is flattened
  by the same function here.
- In-place filtering in `Remove` and appending to shared slices: lists are values, so what aliasing
  would do to a caller's slice is not modelled.

The admin API, authentication, the catalog, presets and the front end are left out as a whole.
