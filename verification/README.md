# rho-llm: the protocols under the adapters

A Dafny model of the stateful core of rho-llm, a Go client library for language model providers, with
proofs about every history, stream or transcript. `dafny verify dfyconfig.toml` checks it all.

Code that the Go source runs step by step is modelled step by step: as classes whose methods update
their fields, or as methods with loops. Each such method is proved against a specification function,
and the theorems are lemmas about those functions. Code that runs on many goroutines at once is
modelled as a state machine whose steps are the source's lock sections, channel operations and atomic
counter changes; its theorems hold in every interleaving.

| module | component |
|---|---|
| `ClientRotation`, `AuthPool` | the reference-counted client of a key pool and the pool's cooldowns (pool.go) |
| `CircuitBreaker` | the breaker and its probe tokens (circuitbreaker.go) |
| `Normalize`, `NormalizeLaws` | replaying a transcript to another provider (normalize.go) |
| `ChatStream`, `ChatParser`, `ChatStreamLaws` | streamed chat completions (provider/openaicompat) |
| `ResponsesStream`, `ResponsesLaws` | streamed Responses API turns (provider/openairesponses) |
| `AnthropicBlocks`, `AnthropicStream`, `AnthropicLaws` | streamed Anthropic turns (provider/anthropic) |
| `StreamFold`, `Boundaries` | folding a neutral stream, and block boundaries around it (streamfold.go, streamevents.go) |
| `Session` | turns on a shared conversation (session.go) |
| `BatchSubmit` | batch submission under ambiguous failures (provider/openaibatch) |
| `Race`, `Transport` | racing a host's addresses and resending requests (egress.go, transport.go) |
| `Redact`, `Cost` | scrubbing keys from text, and cost estimates (types.go, registry.go) |

The JSON decoder, the clock, the network, a stream's consumer and a batch provider are parameters: the
proofs use nothing about them but what a lemma's `requires` says. A consumer may stop at any item;
calling it again after that would break Go's iterator contract, so it is a precondition of
`Streams.Consumer.Yield` and is proved at every call. A byte is one `char`.

## Where the code and its comments or names promise more

- The Responses parser's byte counter is the bytes of all calls ever buffered, not of the calls the map
  still reaches: announcing another item at an index drops the only key of a call buffered under that
  index. `ResponsesLaws.CounterIsExactIff` says exactly when the two agree and
  `ResponsesLaws.CounterCanLeak` gives streams on which they do not.
- A streamed Anthropic turn equals the non-streamed one unless a text block starts with citations (the
  stream path drops those) or a client tool call streams no decodable input (the stream path reports the
  raw text). `AnthropicLaws.StreamAgreesWithWhole` has both directions.
- `EstimateCost` promises an estimate monotonic in every count, with the audio share raised together with
  the input it is a share of. That holds if the one-hour share of the cache writes, which the promise
  does not mention, is raised together with the writes as well (`Cost.CountsMonotone`). A share raised
  alone lowers the estimate when its price is below the plain one: `Cost.OneHourShareMonotoneIff`,
  `Cost.IterationShareMonotoneIff` and `Cost.AudioShareMonotoneIff` say exactly when. A first iteration
  replaces top-level tokens that may have cost more (`Cost.FirstIterationMonotoneIff`).
- A rotation checks profile names, not clients, before it swaps. When the last swap since a goroutine
  began its call picked that goroutine's profile again, the goroutine replaces the new client, not
  the one that failed (`ClientRotation.ReplacesAnotherIff`; `ClientRotation.HealthyClientIsReplaced` is a run).
- A key of eight or more bytes is replaced wherever it occurs, but the mark's own letters can complete
  a new occurrence. `Redact.LongKeyIsGoneIff` says exactly for which keys it can, a condition on the
  key alone; for whole-token redaction of shorter keys it is impossible
  (`Redact.ShortKeyIsGone`).
- Turns never deadlock unless code that a turn runs, its client or the consumer of its stream, starts
  another turn or an append of the same session (`Session.UnfinishedCanMoveIff`); after that nothing is
  ever recorded again (`Session.NothingFollowsReentry`).
- Submitting a batch at most once fails exactly when a call creates one while an earlier create for its
  key, reported failed, has yet to land (`BatchSubmit.AtMostOneBatchIff`); every such overlap ends in
  duplicates (`BatchSubmit.OverlapDuplicates`).
- A response rebuilt from its message loses a signature without thinking, and the tool calls' thought
  signatures (`StreamFold.FlatFieldsRoundTrip`).

## Model

| member | source | states |
|---|---|---|
| `ClientRotation.NoUseAfterClose` | pool.go:238-275 | in every interleaving no goroutine calls a closed client, the client it calls is the one of the profile whose outcome it will book, no client is closed twice, and the reference count is the pool's reference plus the holders plus the releases still pending |
| `ClientRotation.NoLeakAfterClose` | pool.go:754-849 | once Close has run and every goroutine is done, every client ever created, also one built by a rotation that lost to Close, has been closed exactly once |
| `ClientRotation.CloseIsFinal` | pool.go:836-849 | in every continuation of a run no client comes back after Close, no client is forgotten, and a close is never undone |
| `ClientRotation.RotationReplacesTheFailed` | pool.go:754-800 | a rotation swaps out a client of the profile that failed, for one of the profile it picked, and releases the old one; the check is by name only |
| `ClientRotation.PassesCheckIff` | pool.go:754-768 | over every run a goroutine finds another client in place exactly when a swap happened since its Begin, and passes the name check exactly when there was none or the last one picked the failed profile again |
| `ClientRotation.ReplacesAnotherIff` | pool.go:754-800 | over every run a rotation replaces a client other than the one that failed exactly when a swap happened since its goroutine's Begin and the last such swap picked the failed profile again |
| `ClientRotation.HealthyClientIsReplaced` | pool.go:761-800 | a run in which two goroutines share a failed client, the first rotates to a new client of the same profile, and the second swaps that one out |
| `ClientRotation.RotationsAreSerialized` | pool.go:754-757 | two goroutines are never inside a rotation at once |
| `ClientRotation.BusyCanMove` | pool.go:754-800 | no interleaving deadlocks: while a goroutine is busy, it or the rotating one can finish a step |
| `AuthPool.Pool.constructor` | pool.go:43-66 | one profile per key, all healthy, with pairwise distinct names |
| `AuthPool.AuthProfile.MarkUsed` | types.go:975-977 | stamps the time of use, and nothing else |
| `AuthPool.AuthProfile.MarkFailed` | types.go:983-988 | records the error and starts the cooldown, and nothing else |
| `AuthPool.AuthProfile.MarkHealthy` | types.go:991-995 | clears health, error and cooldown, and nothing else |
| `AuthPool.Pool.Rotate` | pool.go:91-107 | going round once finds the first available profile after the current one, or leaves the cursor where it was when none is available |
| `AuthPool.Pool.Soonest` | pool.go:108-118 | the earliest cooldown among healthy profiles, or none exactly when no profile is healthy |
| `AuthPool.Pool.GetAvailable` | pool.go:80-125 | succeeds exactly when some profile is healthy and out of cooldown, with the first such one going round, stamping only that one; on failure nothing changes and the three errors are told apart exactly |
| `AuthPool.WaitIsLeast` | pool.go:107-124 | the reported wait is the least one: a call succeeds once that long has passed and not before |
| `AuthPool.Pool.MarkFailedByName` | pool.go:136-175 | changes exactly the first profile of that name, by the kind of error |
| `AuthPool.Pool.MarkSuccessByName` | pool.go:178-188 | re-enables exactly the first profile of that name |
| `AuthPool.HealthFollowsLastOutcome` | pool.go:130-188 | over any run of outcomes a key is disabled exactly when its last auth error came after its last success |
| `AuthPool.CooldownFollowsLastOutcome` | pool.go:136-188 | over any run of outcomes a key's cooldown is the one its last success or non-auth error set |
| `AuthPool.AvailableIff` | types.go:964-995 | after any run of outcomes a key is available exactly when its last auth error or success was a success, and its last success or other error was a success or has cooled down |
| `AuthPool.FailedComesBack` | pool.go:136-188 | a key that failed is available again once it has cooled down, after an auth error never on its own, and at once after another call's success |
| `CircuitBreaker.Switch.BumpProbeGen` | circuitbreaker.go:106-112 | the next token is never 0 nor the wildcard |
| `CircuitBreaker.Switch.Allow` | circuitbreaker.go:120-165 | who is admitted, with which token, and the state it leaves |
| `CircuitBreaker.Switch.RecordSuccess` | circuitbreaker.go:182-203 | a success closes a half-open circuit only for the probe's token or the wildcard |
| `CircuitBreaker.Switch.RecordFailure` | circuitbreaker.go:217-245 | a failure opens by threshold, re-opens for the probe's token or the wildcard, and is ignored from strangers |
| `CircuitBreaker.Switch.ReleaseProbe` | circuitbreaker.go:285-296 | re-arms the half-open circuit for its own current token only |
| `CircuitBreaker.Switch.Reset` | circuitbreaker.go:311-322 | closes and clears the failures, keeping the token generation |
| `CircuitBreaker.Switch.SetState` | circuitbreaker.go:327-346 | fires the callback exactly on a change |
| `CircuitBreaker.OnlyTheOwnerResolves` | circuitbreaker.go:182-245 | over every call history, whatever token resolves a half-open circuit is the current probe's; any call it was handed to less than a full token cycle ago is that probe |
| `CircuitBreaker.StrangersAreIgnored` | circuitbreaker.go:182-296 | outcomes and releases with token 0 or a superseded token leave a half-open circuit exactly as it was |
| `CircuitBreaker.TheOwnerDecides` | circuitbreaker.go:120-296 | the current probe's success closes, its failure re-opens, and its release lets the next caller in |
| `CircuitBreaker.ProbesAreSpaced` | circuitbreaker.go:120-165 | two probes less than one cooldown apart were admitted only if the first one's own token was released between them |
| `CircuitBreaker.TokensRepeatLate` | circuitbreaker.go:106-112 | two probes share a token only 2^64 - 2 admissions apart |
| `CircuitBreaker.TokensReturnAfterACycle` | circuitbreaker.go:106-112 | that bound is exact |
| `CircuitBreaker.GenerationCountsProbes` | circuitbreaker.go:106-165 | the stored generation is the token of the last probe admitted in the whole history |
| `Normalize.UniqueToolId` | normalize.go:189-198 | the search for a free ID ends, with the first free candidate, never one in use |
| `Normalize.LeastFreeIsFirstFree` | normalize.go:189-198 | among the numbered candidates the one chosen is the only one that is free with all smaller ones taken |
| `Normalize.NormalizePart` | normalize.go:73-135 | one part is kept, changed or dropped as the transcript so far and the target decide |
| `Normalize.NormalizeTranscript` | normalize.go:58-166 | the two passes compute the forward pass and the repair, in loops over growing slices and maps |
| `Normalize.CollectAnswered` | normalize.go:138-147 | the IDs some tool result answers |
| `Normalize.RepairOrphans` | normalize.go:148-166 | a synthetic result follows each message with unanswered calls |
| `NormalizeLaws.NormalizedWellFormed` | normalize.go:58-166 | in every normalized transcript the non-empty tool call IDs are pairwise distinct (a call with an empty ID is kept as it is), every result follows a call with its ID, every assistant call is answered later, everything kept is acceptable to the target, and no message is empty |
| `NormalizeLaws.ResultsPairWithLatestCall` | normalize.go:73-113 | a tool result is kept exactly when a kept call with its original ID precedes it, and targets the ID the latest such call was given, even when generated names collide with original ones |
| `NormalizeLaws.PassIsFaithful` | normalize.go:62-135 | exactly when the pass drops, changes or renames a call, a thought, a text, a provider's block or any other part, and to what |
| `NormalizeLaws.NormalizeIdempotent` | normalize.go:58-166 | normalizing a normalized transcript for the same target returns it unchanged |
| `NormalizeLaws.RepairAddsExactlyTheMissing` | normalize.go:138-166 | repair adds one result for each unanswered assistant call and none for any other ID |
| `ChatParser.Parser.EmitCall` | provider/openaicompat/openaicompat.go:673-687 | a call is emitted once, its bytes are released, and a second attempt does nothing |
| `ChatParser.Parser.EmitEverything` | provider/openaicompat/openaicompat.go:689-697 | all open calls are emitted in first-seen order and every reference to them is dropped |
| `ChatParser.Parser.StartStreamingCall` | provider/openaicompat/openaicompat.go:699-704 | a call is started behind the ones already open |
| `ChatParser.Parser.SelectByIndex` | provider/openaicompat/openaicompat.go:785-798 | an index names its open call, unless it is reused under another ID, which completes the old call and starts a new one |
| `ChatParser.Parser.OnToolDelta` | provider/openaicompat/openaicompat.go:782-827 | one tool call delta: which call it goes to, what it completes, and the input limit |
| `ChatParser.ParseStream` | provider/openaicompat/openaicompat.go:633-886 | the heap-allocated, aliased parser yields exactly the items of the specification, or the part of them up to where its consumer stopped, and never calls the consumer again |
| `ChatStreamLaws.ParserIsSound` | provider/openaicompat/openaicompat.go:657-845 | whatever is sent, neither `latest` nor `byIndex` reaches an emitted call, and the byte counter is the bytes of the calls not emitted, within the limit |
| `ChatStreamLaws.ExactlyOneFinalItem` | provider/openaicompat/openaicompat.go:840-886 | a consumer that goes on sees exactly one final item, a Done or an error, and it is the last |
| `ChatStreamLaws.CallsAreWhole` | provider/openaicompat/openaicompat.go:781-827 | when each index keeps one ID, each call comes out once, in first-seen order, with its own deltas' arguments joined in order |
| `ChatStreamLaws.InterleavingIsIrrelevant` | provider/openaicompat/openaicompat.go:781-827 | every reordering that keeps each index's deltas in order and the first-seen order gives the same calls |
| `ChatStreamLaws.StreamCallsAreWhole` | provider/openaicompat/openaicompat.go:705-886 | the same for whole streams, whatever text, usage or malformed lines lie between the deltas and however the stream ends, segment by segment between lines with a finish reason, up to the first segment past the limit |
| `ChatStreamLaws.FailsExactlyPastTheLimit` | provider/openaicompat/openaicompat.go:781-827 | when each index keeps one ID, the deltas end in the input-too-large error exactly when their arguments pass the limit, and then no call has come out |
| `ChatStreamLaws.StreamFailsExactlyPastTheLimit` | provider/openaicompat/openaicompat.go:705-886 | the same for whole streams: the last item is that error exactly when a segment's arguments pass the limit |
| `ChatStreamLaws.OneSegment` | provider/openaicompat/openaicompat.go:705-886 | when no delta comes after a finish reason the whole stream is one segment: all its deltas' calls, or none past the limit |
| `ChatStream.SplitPrompt` | provider/openaicompat/openaicompat.go:272-276 | the uncached and cached parts are non-negative and add up to the prompt |
| `ResponsesStream.Parser.FindOrMake` | provider/openairesponses/responses.go:208-218 | the call an event is about, under its item ID or else its index, made on first mention |
| `ResponsesStream.Parser.ReleaseCall` | provider/openairesponses/responses.go:220-227 | the call gives its bytes back and both its keys are forgotten |
| `ResponsesStream.Parser.OnItemAdded` | provider/openairesponses/responses.go:268-286 | an announced call is named and can be reached by index as well |
| `ResponsesStream.Parser.OnArgsDelta` | provider/openairesponses/responses.go:288-306 | a delta is buffered and counted, or ends the stream at the limit |
| `ResponsesStream.Parser.OnArgsDone` | provider/openairesponses/responses.go:308-350 | the call is emitted from the event's own fields, or the buffered ones, and released |
| `ResponsesStream.ParseStream` | provider/openairesponses/responses.go:188-450 | the parser over a map with aliased heap cells yields exactly the items of the specification, or the part of them up to where its consumer stopped |
| `ResponsesStream.Split` | provider/openairesponses/responses.go:566-576 | a reported total is split into two non-negative parts that add up to it |
| `ResponsesLaws.CounterCountsEveryCell` | provider/openairesponses/responses.go:204-227 | for arbitrary events the counter is the bytes the map can reach plus the bytes it lost, and never exceeds the limit |
| `ResponsesLaws.CounterIsExactIff` | provider/openairesponses/responses.go:204-310 | the counter equals the bytes the map can reach, throughout a stream, exactly when no event takes the last key of a call holding bytes |
| `ResponsesLaws.CounterCanLeak` | provider/openairesponses/responses.go:268-306 | streams on which it does not: a delta by index, then another item announced at that index |
| `ResponsesLaws.OrderlyIsExact` | provider/openairesponses/responses.go:204-350 | when IDs and indices match one to one and items are announced first, the counter is exact throughout |
| `ResponsesLaws.DoneYieldsOwnDeltas` | provider/openairesponses/responses.go:268-350 | in such a stream a done event without arguments yields exactly its own item's deltas joined, under the announced name, even if some events omit the item ID |
| `ResponsesLaws.ExactlyOneFinalItem` | provider/openairesponses/responses.go:368-450 | a consumer that goes on sees exactly one final item, and it is the last |
| `AnthropicStream.StreamBlocks.Start` | provider/anthropic/streamblocks.go:48-73 | a block begins, in place of any earlier one at its index, complete at once unless its content is streamed |
| `AnthropicStream.StreamBlocks.AddText` | provider/anthropic/streamblocks.go:75-77 | appends to the block at the index, making a text block if there is none |
| `AnthropicStream.StreamBlocks.AddCitation` | provider/anthropic/streamblocks.go:79-82 | likewise for a citation |
| `AnthropicStream.StreamBlocks.AddThinking` | provider/anthropic/streamblocks.go:84-86 | likewise for thinking |
| `AnthropicStream.StreamBlocks.AddSignature` | provider/anthropic/streamblocks.go:88-90 | likewise for a signature |
| `AnthropicStream.StreamBlocks.AddServerInput` | provider/anthropic/streamblocks.go:99-106 | appends server tool input, or refuses and changes nothing when it would exceed the limit |
| `AnthropicStream.StreamBlocks.OpenServerToolUse` | provider/anthropic/streamblocks.go:110-117 | the first open server tool call in block order, or -1 |
| `AnthropicStream.StreamBlocks.FinishServerToolUse` | provider/anthropic/streamblocks.go:121-145 | completes an open server call with its decoded input, and only an open one |
| `AnthropicStream.StreamBlocks.RecordToolUse` | provider/anthropic/streamblocks.go:166-172 | records a completed client call at its index |
| `AnthropicStream.StreamBlocks.CollectParts` | provider/anthropic/streamblocks.go:175-198 | the parts in block order, with open server calls closed on the way |
| `AnthropicStream.Parser.FlushToolCall` | provider/anthropic/anthropic.go:857-875 | the open client call, if any, is recorded and emitted, and the buffer emptied |
| `AnthropicStream.Parser.FlushServerToolUse` | provider/anthropic/anthropic.go:877-883 | an open server call at the index is completed and emitted |
| `AnthropicStream.Parser.FailWith` | provider/anthropic/anthropic.go:832-851 | the stream ends with one error, which carries usage and content once the message has started |
| `AnthropicStream.Parser.OnBlockStart` | provider/anthropic/anthropic.go:935-962 | open calls are flushed before the next block begins |
| `AnthropicStream.Parser.OnInputDelta` | provider/anthropic/anthropic.go:991-1003 | input goes to the server call at its index, or else to the client buffer, within the limit |
| `AnthropicStream.Parser.OnMessageDelta` | provider/anthropic/anthropic.go:1011-1069 | the terminal event: flush, settle the counts, emit Done, stop |
| `AnthropicStream.ParseStream` | provider/anthropic/anthropic.go:808-1105 | the parser yields exactly the items of the specification, or the part of them up to where its consumer stopped |
| `AnthropicLaws.StreamAgreesWithWhole` | provider/anthropic/blocks.go:60-91 | a well-ordered stream's Done has one part per block, in order, and they are the non-streaming parts of the completed blocks exactly when no text block started with citations and every client call's input decodes |
| `AnthropicLaws.PartAgrees` | provider/anthropic/streamblocks.go:48-222 | the same block by block, for every block type |
| `AnthropicLaws.AtMostOneCallIsOpen` | provider/anthropic/anthropic.go:857-962 | for arbitrary events at most one client or server tool call is open, and it is the only announced one not yet emitted |
| `AnthropicLaws.DoneLosesNoCall` | provider/anthropic/anthropic.go:853-1069 | a completed turn emitted every announced call exactly once, in order, even with missing stops or reused indices |
| `AnthropicLaws.InputsStayBounded` | provider/anthropic/anthropic.go:991-1003 | for arbitrary events neither the client buffer nor a server call's input outgrows the limit |
| `AnthropicLaws.ExactlyOneFinalItem` | provider/anthropic/anthropic.go:1056-1105 | a consumer that goes on sees exactly one final item, and it is the last |
| `StreamFold.StreamAccumulator.Add` | streamfold.go:25-46 | folds one event, and ignores the kinds it does not know |
| `StreamFold.StreamAccumulator.ToResponse` | streamfold.go:53-81 | the folded response, its flat fields read from the assembled parts when there are any |
| `StreamFold.CollectStream` | streamfold.go:86-98 | the fold up to the first error, with that error, or the missing-Done error, exactly when incomplete |
| `StreamFold.SetParts` | parts.go:8-29 | the flat fields of a response are those of its parts |
| `StreamFold.FlatFieldsRoundTrip` | types.go:592-632 | reading the flat fields back from the message parts made of them returns them, exactly when no signature stands without thinking and no call has a thought signature |
| `Boundaries.StreamWithBoundaries` | streamevents.go:28-113 | the consumer sees the bounded stream or a prefix of it and is never called after it stopped |
| `Boundaries.PassTool` | streamevents.go:85-97 | a tool call goes out between its own boundaries, after any open block is closed |
| `Boundaries.PassError` | streamevents.go:44-55 | an error ends the stream after any open block is closed |
| `Boundaries.OutputIsBracketed` | streamevents.go:28-113 | blocks never nest, are never empty or split without cause, hold only their own deltas and are all closed at the end or at an error, and every prefix keeps those rules |
| `Boundaries.ErasedIsInput` | streamevents.go:44-110 | without the boundary events the output is the input up to its first error |
| `Boundaries.CleanStreamComesBack` | streamevents.go:44-110 | an input without errors or boundary events comes back whole |
| `Boundaries.CollectsTheSame` | streamfold.go:86-98 | collecting the bounded stream gives the same response and the same error, for every input |
| `Session.TurnsAreLinear` | session.go:156-279 | in every interleaving the transcript is the initial messages plus whole turns and appends in the order they held turnMu, inputs as given; each reply was appended to exactly the transcript its request was built from |
| `Session.CommitSeesItsRequest` | session.go:246-279 | while a turn is in flight its thread holds turnMu and the transcript stays the one its request was built from |
| `Session.OnlyCommitsWrite` | session.go:156-242 | a failed, broken or refused turn changes nothing: over any stretch of a run the log gains one entry for each commit or append in it, the transcript exactly those entries' messages, and without one nothing is written |
| `Session.OnlyDoneStreamsAreRecorded` | session.go:204-241 | a recorded streamed turn was done, and is what its events fold to |
| `Session.SnapshotsHoldWholeTurns` | session.go:84-107 | a snapshot at any point of a run is what a prefix of the final log adds to the start |
| `Session.RequestsAreWellFormed` | session.go:246-270 | every request sent meets what normalization promises |
| `Session.TurnKeepsItsClient` | session.go:109-118 | over every continuation of a run a prepared turn stays the same turn while its thread holds turnMu, and what is logged in that tenure is its reply, under the client it was prepared with, whatever switches happen meanwhile |
| `Session.SwitchAppliesToTheNextTurn` | session.go:109-118 | a switch is possible at any point of a run, and every turn prepared after it and before the next switch runs against its client |
| `Session.UnfinishedCanMoveIff` | session.go:24-30 | over every run, while a call is unfinished some call can move on exactly as long as no turn or append was started from inside a turn of the same session |
| `Session.NothingFollowsReentry` | session.go:204-241 | after such a start no continuation changes the transcript or the usage |
| `Session.UsageIsTheTotal` | conversation.go:58-93 | over every run the usage is the exact total over the recorded replies: every token count, the one-hour share, the server tool calls and the estimated cost, unreported counts as zero, stopped at the largest int and the largest float |
| `BatchSubmit.Api.Recover` | provider/openaibatch/rest.go:180-225 | the paginated scan, on whatever the provider answers |
| `BatchSubmit.Api.CreateBatch` | provider/openaibatch/rest.go:152-166 | one create, which may fail before or after it takes effect |
| `BatchSubmit.Api.Submit` | provider/openaibatch/openaibatch.go:131-214 | look the key up, upload, create, and on an error look it up again |
| `BatchSubmit.RecoverIsSound` | provider/openaibatch/rest.go:177-225 | against an honest provider success means every batch with the key has the returned ID, and not-found means none has the key |
| `BatchSubmit.RecoverIsExact` | provider/openaibatch/rest.go:177-225 | on up to a thousand batches it succeeds exactly when one has the key, reports not-found exactly for none and a conflict exactly for several; on more it does neither |
| `BatchSubmit.AtMostOneBatchIff` | provider/openaibatch/openaibatch.go:172-214 | however often Submit runs with one key, whatever step fails and whenever a create takes effect, the provider has, or is about to have, at most one batch with the key throughout exactly when no call creates one while an earlier create for the key has yet to land |
| `BatchSubmit.AtMostOneBatch` | provider/openaibatch/openaibatch.go:172-214 | in particular the provider holds at most one batch with the key, and none of its creates overlap, if no failed create takes effect after its error |
| `BatchSubmit.OverlapDuplicates` | provider/openaibatch/openaibatch.go:195-214 | any such overlap, at any honest provider, leaves two batches or more once every create has landed |
| `BatchSubmit.SuccessNamesTheOnlyBatch` | provider/openaibatch/openaibatch.go:172-239 | a success returns the handle of the one batch with the key, with the request's digest and endpoint, as long as no creates overlap |
| `BatchSubmit.LateCreateDuplicates` | provider/openaibatch/openaibatch.go:195-214 | a whole run of an overlap, from an empty provider: a retry makes a second batch before the first lands |
| `BatchSubmit.MergeResults` | provider/openaibatch/rest.go:306-333 | the merge of output and error lines |
| `BatchSubmit.ItemsAreDistinct` | provider/openaibatch/rest.go:306-333 | no item has two results |
| `BatchSubmit.FirstLineWins` | provider/openaibatch/rest.go:283-333 | an item's result is the first line that names it, and lines that name none are all kept |
| `Race.Interleave` | egress.go:99-119 | the two lists are woven in loops |
| `Race.InterleavedIsPermutation` | egress.go:99-119 | every address is tried once for each time it is listed |
| `Race.FamiliesKeepTheirOrder` | egress.go:97-119 | the order within each family is kept |
| `Race.FamiliesAlternate` | egress.go:97-119 | families alternate, starting with the first address's, until one runs out, as section 4 of RFC 8305 asks |
| `Race.NoConnectionIsClosedTwice` | egress.go:126-176 | in every interleaving no connection is closed twice and the one returned is not closed |
| `Race.NoConnectionLeaks` | egress.go:152-163 | once every attempt has reported, every connection but the returned one was closed exactly once |
| `Race.NothingBlocks` | egress.go:134-146 | no attempt waits to hand over its result, and the receivers wait for exactly the results still to come |
| `Race.ErrorsMeanAllFailed` | egress.go:126-176 | an error is returned only after every address was tried and failed |
| `Race.OwedCanMove` | egress.go:126-176 | while a result is owed some attempt or receiver can move |
| `Transport.DoHttp` | transport.go:54-151 | the one trace the rules allow: which attempts are dispatched, which bodies are closed, and how the call ends |
| `Transport.ResendsOnlyAfterRefusal` | transport.go:26-36 | a non-idempotent request is sent again only after every earlier attempt ended in 429, 503 or a connection never made, so at most one attempt, the last, can have been acted on |
| `Transport.ResendsOnlyWhatMayPass` | transport.go:97-149 | an attempt follows only a retryable status or failure, within budget and deadline |
| `Transport.LoopAlwaysReturns` | transport.go:91-150 | attempts stay within the bound, the statement after the loop is never reached, and the result is about the last attempt |
| `Transport.BodiesAreClosedOnce` | transport.go:97-121 | every response received is either returned or has its body closed, exactly once |
| `Redact.RedactSecret` | types.go:35-71 | the output of the scan, in every branch |
| `Redact.RedactWhole` | types.go:48-71 | the scan for whole tokens, never inside a redacted span |
| `Redact.ReplaceAll` | types.go:39-41 | leftmost occurrences first, none overlapping |
| `Redact.ShortKeyIsGone` | types.go:46-71 | a key of four to seven bytes that is no placeholder never occurs as a whole token in the output |
| `Redact.ShortKeyIdempotent` | types.go:35-71 | redacting again changes nothing, for every key of fewer than eight bytes |
| `Redact.TextIsPreserved` | types.go:46-71 | message and output are the same pieces in the same order, joined by the key and by the mark |
| `Redact.ChangedOnlyByHits` | types.go:46-71 | a message is left alone exactly when the key is no whole token of it |
| `Redact.LongKeyIsCut` | types.go:39-41 | for a longer key no piece left in place contains it |
| `Redact.LongKeyIsGoneIff` | types.go:35-41 | a key of eight bytes or more occurs in no redacted message, whatever the message, exactly when it neither starts with an end of the mark nor goes on like the mark after a start that can stand before a key without an earlier occurrence |
| `Redact.LongKeyReturns` | types.go:35-41 | for every other such key a message whose redaction holds it |
| `Redact.LongKeyCanReturn` | types.go:35-41 | an instance: the mark's last seven letters and any byte |
| `Redact.LongKeyIdempotentIff` | types.go:35-41 | redacting a long key again never changes anything exactly when the mark cannot complete the key, or is the key |
| `Cost.EstimateCost` | registry.go:895-931 | the estimate is the token part plus the search part, within the float range |
| `Cost.AddIterations` | registry.go:901-921 | iterations are summed each at its own model, and the first priced one lends its search price |
| `Cost.CostNonNegative` | registry.go:888-894 | no part of a cost is negative, whatever is registered or reported |
| `Cost.CountsMonotone` | registry.go:888-1019 | more input, output, thinking, cache writes or reads, audio seconds or searches never lower the estimate, priced at the top level or by iterations, nor does a larger audio or one-hour share raised together with its count |
| `Cost.OneHourShareMonotoneIff` | registry.go:996-1008 | raising the one-hour share alone never lowers the estimate exactly when no top-level tokens are priced, or the share is capped, priced no lower, or saturates the estimate even at its largest |
| `Cost.IterationShareMonotoneIff` | registry.go:902-921 | the same for the one-hour share of one iteration, at that iteration's model |
| `Cost.AudioShareMonotoneIff` | registry.go:962-981 | the same for the audio share, which the promise asks to raise together with the input |
| `Cost.IterationsMonotone` | registry.go:902-921 | a further iteration never lowers a cost, nor an estimate, that is priced by iterations |
| `Cost.FirstIterationMonotoneIff` | registry.go:901-924 | no first iteration lowers the cost exactly when the top-level tokens cost nothing, nor the estimate exactly then or when the searches saturate it |
| `Cost.BatchHalvesTokens` | registry.go:1012-1016 | a batch pays exactly half for its tokens and in full for its searches |
| `Cost.SplitIsPricedOnce` | registry.go:835-844 | a split prompt costs the whole prompt less exactly the cache discount on its cached share |
| `Cost.AdaptersPriceOnce` | provider/openaicompat/openaicompat.go:272-276 | the OpenAI adapters' splits price every prompt token once, whatever counts are reported |

## Left out

- Request builders, capability tables, stop reason maps and model presets: field mappings and lookups that would only add easy members.
- HTTP, TLS, DNS, proxies, SSE scanning, logging, retry hooks and context plumbing: I/O; what they deliver is a parameter.
- The JSON text of a body: a decoder is a parameter, JSON objects stand for raw bytes, and Go's case-insensitive key matching and invalid UTF-8 are not modelled.
- The retry loops of PooledClient.Complete and Stream beyond acquire, release, rotate and retry: backoff lengths and the pool's own cap on attempts.
- CircuitBreaker.Execute, the callbacks' own effects, and a nil breaker.
- CircuitBreaker.ProbesAreSpaced: assumes the monotonic clock Go's time package gives, stated as a condition on the run.
- AuthPool.Pool.GetAvailable: one clock reading per call, where the Go loop reads the clock once per profile.
- AuthPool.AuthProfile.MarkFailed: the error text is stored as given; scrubbing it is in `Redact`, and a nil error is not modelled.
- Session.TurnsAreLinear: system prompt, tools and the other fields of the base request are not part of the model, nor are snapshots' deep copies.
- Session.UsageIsTheTotal: the registered prices stay the same during a run, and a resumed session's cost is not negative.
- AnthropicStream.ParseStream: model, container, stop details, server tool counts and iterations of a turn are not carried; the typed view of a server tool result, a function of the same block on both paths, is not decoded; citations are kept as JSON.
- AnthropicLaws.StreamAgreesWithWhole: a content block that is the JSON value null has type "", so the places where the source would write into it are never reached and are not modelled.
- BatchSubmit.AtMostOneBatch: the inventory keeps every batch, and calls with one key do not overlap in time.
- BatchSubmit.AtMostOneBatchIff: one lookup reads all its pages from one inventory, so another client's batch that arrives between two pages is not modelled.
- BatchSubmit.Api.Submit: the checks on options and items before the network are one flag of the request.
- Files API downloads, Get, Cancel and the parsing of result bodies of openaibatch.
- Race.NoConnectionLeaks: an attempt ends in a connection or an error, never both; the stagger timer may fire at any time.
- Transport.DoHttp: delays and their jitter; whether a wait fits the budget and the deadline is a parameter.
- Redact.ShortKeyIsGone: placeholder keys are matched after lower-casing ASCII letters only.
- Cost.CountsMonotone: real arithmetic, so float rounding and the saturation of intermediate sums are not modelled.
- ContinuePausedTurn, streaming of other modalities, the Gemini adapters, OAuth polling and realtime framing.
