# philo: a verified model of the streaming SDK core

philo is a Rust SDK for language-model providers. This project models the parts of it whose
behaviour is spread over many steps, and proves what every run of them guarantees:

- **Bytes to message.** An incremental server-sent-events decoder (`Sse*`), the driver that feeds a
  protocol machine (`ResponseStream`) and the collector that assembles a message from interleaved
  content blocks (`Events`, `Collector`, `EventProperties`). The decoder is proved
  against a one-shot, line-by-line reading of the whole input, the collector against a grammar of event
  streams.
- **One request, many attempts.** The retry decision and the wait calculation (`Retry`), the shared
  execution state as single atomic accesses (`ExecutionState`), the public stream with its lifecycle
  reports (`PublicStream`), the attempt runner, which may be suspended at every await (`Runner`), and
  both together with everything one observer is told (`Request`). The network, the clock and the random
  source are arbitrary functions (`Runner.World`).
- **Both together.** A service that answers every attempt with bytes, read through decoder, driver, runner
  and public stream into the collector (`Pipeline`): which message or error a whole request comes to, and
  how that relates to what an observer is told.
- **History to request.** The history normalizer (`History`, `NormalizeSpec`, `Normalize`), proved
  against a description of normal forms that does not run it (`Canonical`): results are canonical,
  canonical histories are exactly the fixed points, nothing visible and no call/result link is lost, and
  the diagnostics count what is dropped (`NormalizeParts`, `NormalizeTurns`, `NormalizeProperties`,
  `NormalizeMeaning`, `NormalizeDiagnostics`).
- **Usage and cost** (`Usage`, `Cost`): merging snapshots as a partial join, and exact error bounds on
  rounded prices.
- **Layering** (`Layering`, `ConfigLayers`, `Headers`): sort-then-fold merging proved to be "the highest
  layer that says something wins", independent of the order in which layers are given.

Rust strings are byte sequences; UTF-8 validity is modelled byte by byte. Integers are unbounded, and
widths are written out where the code checks or saturates them. Durations are nanoseconds. Code that
updates fields or loops is a class or method proved against a specification function; code made of
expressions is a function, and lemmas state what it means.

Seven results show where the code does less than one might expect; each comes with the failing input and
the exact condition under which the expectation holds:

- The progress byte of the execution state is not terminal for good once the request has ended: an
  operation that looked at `terminal` earlier may store last (`ExecutionState.ProgressCanRegress`). It
  stays terminal if and only if no such store is under way (`ExecutionState.ProgressStaysTerminal`).
- A refused retry is not always reported as `ReplayUnsafe` when only replay safety was missing. A possibly
  retriable provider error inside a stream is reported as `NonRetryable`
  (`Retry.ReplayUnsafeMissesProtocolErrors`). And because the clock is read once for the decision and again
  for the report, the deadline can take the blame (`Retry.ReplayUnsafeMissesLateReadings`). Outside these
  two families the report is exact (`Retry.ReplayUnsafeExplains`).
- The backoff factor is held at 32 bits, so a tiny base with a high ceiling falls short of doubling
  (`Retry.BackoffCanFallShort`). The backoff is exponential up to its ceiling if and only if there are fewer
  than 32 doublings, the base is zero, or the largest factor already reaches the ceiling
  (`Retry.BackoffIsExponential`). The hard limit of eight attempts keeps every retry inside that range
  (`Runner.HardLimitKeepsBackoffExponential`).
- The header pipeline lets an unauthenticated request through when a negotiation or identity header
  (`content-type`, `accept`, `user-agent`) is registered as an authentication header
  (`Headers.AnonymousIsAccepted`). Every accepted request is authenticated if and only if none of these is
  registered (`Headers.ResolvedRequestIsAuthentic`). The list of ineligible names at src/protected.rs:47
  keeps declared authentication schemes clear of this; the pipeline's constructor does not consult it.
- A pass over a history can change it although its diagnostics are all zero: unsealed thinking that is not
  replayed (`NormalizeDiagnostics.ThinkingVanishes`) and messages outside turns that have no part
  (`NormalizeDiagnostics.EmptyMessageVanishes`) go without a trace, and nothing else does
  (`NormalizeDiagnostics.SilentLosses`).
- A caller that gives up while a request is being started leaves an observer without an end
  (`Request.AbandonedRequest`). The end is reported, once and last, if and only if the caller did not
  (`Request.EndIsReported`).
- A request can be reported as completed although its caller gets an error
  (`Pipeline.CompletedWithoutMessage`): the public stream reports completion at `Done`, and the collector may
  still refuse that `Done`. Completion means a message if and only if it does not
  (`Pipeline.CompletedMeansMessage`).

`dafny verify dfyconfig.toml` checks the whole project.

## Model

| member | source | states |
|---|---|---|
| `SseMachine.DecoderRefinesParse` | src/transport/sse.rs:344-463 | The byte-at-a-time machine delivers, for all bytes and every kind of ending, exactly the items of the one-shot parse that splits lines first and then reads fields and events. |
| `SseMachine.RunRefinesParse` | src/transport/sse.rs:344-463 | The same from every reachable state in the middle of a line, of an event or between CR and LF. |
| `SseMachine.FinishLineStep` | src/transport/sse.rs:383-435 | Finishing a line has the limits, the UTF-8 check and the field meaning of the reference parse. |
| `SseMachine.EofRefines` | src/transport/sse.rs:454-463 | At the end of input an unterminated line is finished and an event with data is still dispatched. |
| `SseBounds.ParseBounded` | src/transport/sse.rs:336-463 | Every event's data is at least four bytes shorter than the event limit; there is at most one error and it is last. |
| `SseReference.ParseIgnoresBudgets` | src/transport/sse.rs:26-53 | Two configurations with the same four size limits parse every input alike, whatever their poll budgets. |
| `SseInvariant.StepInBounds` | src/transport/sse.rs:344-381 | Each byte keeps line length and event bytes within their limits, and line plus retained data lines within the bytes charged to the event. |
| `SseInvariant.FinishLineInBounds` | src/transport/sse.rs:383-435 | Finishing a line keeps the same bounds. |
| `SseLineEndings.LineEndingsAgree` | src/transport/sse.rs:344-381 | Replacing every LF of a CR-free input by CRLF or by CR changes neither items nor errors, also when limits bind. |
| `SseRoundTrip.RoundTrip` | src/transport/sse.rs:383-452 | Printing any encodable events and decoding them within the limits returns them, with ids carried forward. |
| `SseRoundTrip.Utf8SplitsAtLf` | src/transport/sse.rs:383-400 | Cutting valid UTF-8 at line feeds leaves valid UTF-8. |
| `SseDecoding.SseDecoder.constructor` | src/transport/sse.rs:315-334 | A new decoder is valid and will deliver the parse of everything its upstream is going to answer. |
| `SseDecoding.SseDecoder.ProcessByte` | src/transport/sse.rs:344-381 | One byte takes the fields to the machine's next state and stores the item it yields. |
| `SseDecoding.SseDecoder.FinishLineBuffer` | src/transport/sse.rs:383-435 | Finishing the line buffer is the machine's transition. |
| `SseDecoding.SseDecoder.DispatchEvent` | src/transport/sse.rs:437-452 | Dispatching joins the data lines, clears the event and keeps the last id. |
| `SseDecoding.SseDecoder.FinishEofBuffer` | src/transport/sse.rs:454-463 | The end of input yields the items the machine yields there. |
| `SseDecoding.SseDecoder.Fail` | src/transport/sse.rs:336-342 | A failure becomes the pending item and ends the stream. |
| `SseDecoding.SseDecoder.PollNext` | src/transport/sse.rs:468-534 | A ready item is the next of the remaining items; pending leaves them unchanged but has consumed input; without a wake-up the upstream itself was not ready; every poll before the end makes progress. |
| `SseDecoding.Drain` | src/transport/sse.rs:465-535 | Polling to the end delivers exactly the parse of the concatenated chunks. |
| `SseDecoding.DeliveryIsInvisible` | src/transport/sse.rs:468-534 | Two decoders with the same size limits whose upstreams carry the same counted bytes to the same ending deliver the same items, for any chunks, delays and poll budgets. |
| `SseDecoding.ChunkingIsInvisible` | src/transport/sse.rs:468-534 | Smooth upstreams with the same concatenated chunks decode to the same items, those of the parse of all their bytes, under every chunking, delay pattern and poll budget. |
| `SseDecoding.ChunksAreBytes` | src/transport/sse.rs:468-534 | When no chunk is too large and the upstream does not fail, the bytes that count are all chunk bytes. |
| `ResponseStream.SseMachineStream.PollNext` | src/protocol/response_stream.rs:60-106 | Outputs come in order; budget-caused pending makes progress; the total number of `finish` calls is fixed from the start; after the end only `None`. |
| `ResponseStream.SseMachineStream.Accept` | src/protocol/response_stream.rs:60-106 | An accepted event queues the machine's outputs; a rejection is the last item. |
| `ResponseStream.SseMachineStream.Finish` | src/protocol/response_stream.rs:60-106 | The clean end of the source runs `finish` once and ends the stream. |
| `ResponseStream.Drain` | src/protocol/response_stream.rs:22-106 | The outputs are all `accept` outputs in order, then those of `finish`, cut at the first error; `finish` runs once or never, as predicted from the decoded items. |
| `ResponseStream.OutputsIgnoreDelivery` | src/protocol/response_stream.rs:22-106 | Outputs and the number of `finish` calls are the same for two chunkings, two delay patterns and two poll budgets of the same bytes. |
| `ResponseStream.FinishNeedsCleanEnd` | src/protocol/response_stream.rs:60-106 | `finish` is reached only if no decoding error occurred. |
| `ResponseStream.ErrorsAreLast` | src/protocol/response_stream.rs:60-106 | Only the last output can be an error. |
| `Collecting.Collector.Accept` | src/domain/event.rs:361-577 | An event is accepted if and only if the grammar lets it follow the accepted ones; otherwise the error says whether the stream was already done. |
| `Collecting.Collector.AcceptStart` | src/domain/event.rs:379-480 | A block starts exactly at the next index with a free wire index and a new id; the open blocks then hold it. |
| `Collecting.Collector.AcceptMiddle` | src/domain/event.rs:382-507 | A delta is accepted exactly for an open block of its kind, and is appended to that block alone. |
| `Collecting.Collector.AcceptEnd` | src/domain/event.rs:388-533 | An end is accepted exactly for an open block it agrees with; the collected part is the one the block's steps stand for. |
| `Collecting.Collector.StartBlock` | src/domain/event.rs:579-593 | The index must be the next one, unused and not the last representable one. |
| `Collecting.Collector.MayFinish` | src/domain/event.rs:552-574 | `Done` is accepted if and only if nothing is open, something was collected, and the reason is `ToolCalls` exactly when a tool call was. |
| `Collecting.Collector.Finish` | src/domain/event.rs:602-626 | The message of the accepted events, or truncation when `Done` never came. |
| `Collecting.Collect` | src/domain/event.rs:286-301 | The result, message or error, is the verdict on the items: the first fault, or what the end of the stream comes to. |
| `Collecting.FirstFaultDecides` | src/domain/event.rs:286-301 | The error is that of the first item that is an error or does not follow the events before it: the stream's error, after-done, or a violation. |
| `Collecting.FaultlessIsComplete` | src/domain/event.rs:286-301 | Without a faulty item the result is the message of the events, or truncation exactly when `Done` is missing. |
| `Collecting.VerdictIsJustified` | src/domain/event.rs:286-301 | Collection succeeds if and only if all items are events and they form a complete stream; after-done, truncation and stream errors occur only for streams that earn them. |
| `Collecting.WellFormedPartitioned` | src/domain/event.rs:361-577 | In every accepted run open and finished blocks partition the indexes below the next one. |
| `Collecting.DoneCondition` | src/domain/event.rs:552-574 | The collector's maps pass the terminal check exactly when the grammar's condition holds. |
| `EventProperties.BlocksAreGood` | src/domain/event.rs:361-577 | Every block is one start, steps of its kind, and at most one end, last. |
| `EventProperties.ToolCallMatchesDeltas` | src/domain/event.rs:457-533 | A collected call's name and raw arguments are the concatenation of its deltas. |
| `EventProperties.CollectedIdsDistinct` | src/domain/event.rs:457-533 | Collected tool calls have pairwise distinct ids, announced at the start or only at the end. |
| `EventProperties.FinishReasonAgrees` | src/domain/event.rs:552-574 | The finish reason is `ToolCalls` if and only if some tool call was collected. |
| `EventProperties.InterleavingIsInvisible` | src/domain/event.rs:361-626 | Complete streams with the same steps per block collect to the same parts and text. |
| `EventProperties.SwapIsInvisible` | src/domain/event.rs:361-577 | Swapping adjacent steps of different blocks, unless both start one, keeps the whole stream well-formed and every block's steps the same. |
| `Retry.RetriedFailures` | src/execution/reliability/retry.rs:130-180 | Without replay safety exactly the failures are retried in which the provider did not begin to answer; safety adds exactly those that are said to require it and possibly retriable provider errors. |
| `Retry.ReplayUnsafeExplains` | src/execution/request_runner.rs:150-251 | With one clock reading for the decision and another for the report: `ReplayUnsafe` is reported exactly when only replay safety was missing, if and only if the failure is neither a possibly retriable provider error that nothing else rules out nor one for which the deadline crosses the minimum budget between the readings. |
| `Retry.ReplayUnsafeMissesProtocolErrors` | src/execution/request_runner.rs:243-251 | A concrete provider error for which the reason is misreported. |
| `Retry.ReplayUnsafeMissesLateReadings` | src/execution/request_runner.rs:224-240 | A concrete pair of clock readings for which the deadline is reported although only replay safety was missing. |
| `Retry.BackoffIsExponential` | src/execution/reliability/wait.rs:180-184 | The cap is base times a power of two up to the configured maximum, if and only if there are fewer than 32 doublings, the base is zero, or base times the largest 32-bit factor reaches the maximum. |
| `Retry.BackoffCanFallShort` | src/execution/reliability/wait.rs:180-184 | A concrete policy whose thirty-third delay falls short of doubling. |
| `Retry.JitterCoversTheCap` | src/execution/reliability/wait.rs:185-191 | The client delay never exceeds the cap, and every delay up to the cap can be drawn. |
| `Retry.WaitKeepsItsBounds` | src/execution/reliability/wait.rs:171-211 | Exactly when no wait is planned, and the bounds every planned wait keeps, including the server's delay as a lower bound. |
| `Retry.PlannerStaysWithin` | src/execution/reliability/wait.rs:194-199 | The wait calculation never plans beyond the total wait limit. |
| `Runner.PlannedWait` | src/execution/reliability/retry.rs:115-129 | A failure leads to a wait for another attempt only before the first delivery and below the attempt limit. |
| `Runner.HardLimitKeepsBackoffExponential` | src/execution/request_runner.rs:169-189 | With at most eight attempts every planned wait is drawn from an exponential cap, and without a server delay stays below it. |
| `ExecutionState.RequestExecutionState.MarkTerminal` | src/execution/reliability/lifecycle.rs:59-71 | True exactly for the call that ends the request. |
| `ExecutionState.RequestExecutionState.MarkDelivered` | src/execution/reliability/lifecycle.rs:43-49 | Delivery is recorded; the progress moves on only before the end. |
| `ExecutionState.RequestExecutionState.BeginAttempt` | src/execution/reliability/lifecycle.rs:36-41 | The progress moves to attempting only before the end. |
| `ExecutionState.TerminalIsWonOnce` | src/execution/reliability/lifecycle.rs:27-72 | Under every interleaving of the atomic accesses at most one exchange succeeds, and delivery and termination are never undone. |
| `ExecutionState.ProgressStaysTerminal` | src/execution/reliability/lifecycle.rs:36-71 | A terminal progress byte stays terminal if and only if no stale store is under way. |
| `ExecutionState.ProgressCanRegress` | src/execution/reliability/lifecycle.rs:36-71 | The concrete interleaving in which it does not. |
| `PublicStream.AssistantStream.constructor` | src/client/lifecycle.rs:170-186 | A new stream has yielded and reported nothing. |
| `PublicStream.AssistantStream.PollNext` | src/client/lifecycle.rs:255-308 | After the end only `None`; otherwise the inner answer is passed on, an early end becomes a truncation error, and state, counters and reports stay those of the items yielded; once ended, the verdict is the last report. |
| `PublicStream.AssistantStream.Deliver` | src/client/lifecycle.rs:261-292 | Delivering an event marks delivery first; `Done` completes the request with the number of events and whether usage is known. |
| `PublicStream.AssistantStream.Fail` | src/client/lifecycle.rs:293-305 | An error ends the stream with the report its class asks for. |
| `PublicStream.AssistantStream.ObserveFirst` | src/client/lifecycle.rs:205-229 | The two first-event reports are emitted once. |
| `PublicStream.AssistantStream.Drop` | src/client/lifecycle.rs:311-323 | After dropping, exactly one report has ended the request; it is the verdict on the items yielded and the last report; only an unfinished request is cancelled. |
| `PublicStream.Session` | src/client/lifecycle.rs:255-323 | For any inner stream and any number of polls followed by drop: events, then one `Done` or error, then only `None`, and exactly one truthful terminal report. |
| `Runner.FailureReportsCount` | src/execution/request_runner.rs:130-204 | The reports of a failed attempt start no attempt, and announce a delay exactly when another attempt is to follow. |
| `Runner.RequestRunner.Prepare` | src/execution/request_runner.rs:72-76 | The idempotency report comes before the first attempt, once. |
| `Runner.RequestRunner.OpenAttempt` | src/execution/request_runner.rs:101-128 | Opening an attempt reports its number, once; its response is awaited next. |
| `Runner.RequestRunner.ReachMilestone` | src/execution/executor.rs:141-214 | On the way to a response the milestones of the attempt, and no others, are reported in their fixed order, each once; the fate of the request is kept. |
| `Runner.RequestRunner.DecideNext` | src/execution/request_runner.rs:146-198 | The decision is made with the readings of the clock as they come, and every report of it, stop reason and delay included, is the specified one. |
| `Runner.RequestRunner.RetryAfterFailure` | src/execution/request_runner.rs:130-204 | After a failure exactly the specified reports are made, failure, timeout, decision, schedule or exhaustion, and either the planned wait begins or the request ends with that error. |
| `Runner.RequestRunner.Resume` | src/execution/request_runner.rs:199-203 | A completed wait is added to the total and starts the next attempt; an interrupted one ends the request with the interruption. |
| `Runner.RequestRunner.Advance` | src/execution/request_runner.rs:261-346 | Completing any one await, be it a step towards a response, an event or a wait, keeps the fate of the request or meets it; after the first delivery it hands out the next event or error of the same attempt. |
| `Runner.RequestRunner.Start` | src/execution/request_runner.rs:70-99 | Starting fails with the preflight error or the request's fate, leaves an open attempt on the way to it, or is given up at any await, still on the way; with enough completed awaits it is not pending. |
| `Runner.RequestRunner.PollActive` | src/execution/request_runner.rs:261-346 | One poll during which any number of awaits complete: before the first delivery the fate of the request is kept across suspensions and then met; after it, items of the same attempt are handed out and no attempt is opened; it is pending only if fewer awaits completed than lie ahead. |
| `Request.OneAttemptDelivers` | src/execution/request_runner.rs:261-346 | Every delivered event comes from the one attempt that won, in its order and without gaps. |
| `Request.FateIsBounded` | src/execution/request_runner.rs:70-99 | Attempts stay within the limit, waits within the total limit, and the winner is the first attempt that does not fail before its first event. |
| `Request.RequestStaysBounded` | src/execution/reliability/wait.rs:197-199 | With the wait calculation as planner, the attempts of a whole request stay within the attempt limit and its waits within the total wait limit. |
| `Request.Poll` | src/client/lifecycle.rs:255-308 | One poll of the public stream over the runner yields the next item of the request's fate, or is pending for want of completed awaits; reports are only added, and none after the end. |
| `Request.Told` | src/execution/request_runner.rs:206-210 | One observer gets the reports of the runner, milestones of attempts included, and of the stream in one sequence that loses, repeats and reorders none of either. |
| `Request.RunRequest` | src/client/lifecycle.rs:464-585 | A whole request against any world, with any number of awaits completed while it is started and during each poll: a refusal before the first attempt comes back as it is; otherwise the caller sees the stream of the winning attempt or the final error; attempts are numbered from one without gaps; the time waited is the saturating sum of the announced delays that led to another attempt; pending polls mean outstanding awaits; an observer is told everything from the start, and, unless the request was given up before it had a stream, exactly one report ends it, truthfully and last. |
| `Request.EndIsReported` | src/client/lifecycle.rs:483-496 | An end is reported, once, if and only if the caller did not give up before there was a stream. |
| `Request.AbandonedRequest` | src/client/lifecycle.rs:474-482 | For a caller that gives up while the first attempt is being executed no end is ever reported. |
| `Request.CollectEnded` | src/client/lifecycle.rs:504-513 | Collecting a stream that has ended never fails with the collector's own after-done or truncation error. |
| `Pipeline.Complete` | src/client/lifecycle.rs:504-533 | A whole request from the service's bytes to the result, for any delays of the caller: the result is the verdict on what the winning attempt shows up to the first closing output, or the final error; items are read up to the first fault; attempts, waits and reports are those of the request. |
| `Pipeline.AnswerBegins` | src/client/lifecycle.rs:255-308 | What a public stream over a service yields is always a beginning of the answer of the winning attempt, and the stream closes exactly where the answer ends. |
| `Pipeline.ShownToTheEnd` | src/client/lifecycle.rs:255-308 | An uninterrupted response is shown up to its first closing output, whatever the machine puts out after it; without one it is truncated. |
| `Pipeline.MessageIgnoresDelivery` | src/client/lifecycle.rs:504-533 | The message or the exact error of a whole request depends on the bytes of the responses and their endings, not on chunks, delays or poll budgets. |
| `Pipeline.CallerAndObserver` | src/client/lifecycle.rs:255-323 | A message is reported as completed; a failed stream as the failure the caller gets; a stream that breaks the grammar as cancelled, unless its `Done` breaks it; no other errors occur. |
| `Pipeline.CompletedMeansMessage` | src/client/lifecycle.rs:271-288 | A request is reported as completed exactly when its caller gets a message, if and only if its `Done` is not refused after faultless events. |
| `Pipeline.CompletedWithoutMessage` | src/domain/event.rs:552-574 | A concrete stream that is reported as completed and collected as a violation. |
| `Normalizing.NormalizeHistory` | src/domain/history/normalize.rs:43-257 | The loop computes the specified pass, limits included. |
| `Normalizing.NormalizeAll` | src/domain/history/normalize.rs:60-241 | Consuming one head after the other accumulates output, mappings, text and diagnostics. |
| `Normalizing.NormalizeAssistantTurn` | src/domain/history/normalize.rs:115-239 | An assistant message with its results, or its removal when nothing is left. |
| `Normalizing.NormalizeToolTurn` | src/domain/history/normalize.rs:158-239 | The block of results after a turn with calls, and the check that none is missing. |
| `Normalizing.NormalizeResults` | src/domain/history/normalize.rs:183-225 | Each result is resolved, taken from the pending ids and remapped, up to the first error. |
| `Normalizing.ExpectedIds` | src/domain/history/normalize.rs:158-177 | The set of normalized call ids, or the duplicate error. |
| `Normalizing.RemapToolResult` | src/domain/history/normalize.rs:595-626 | A result keeps everything but its id, must be one non-empty text, and is charged to the text budget. |
| `Normalizing.NormalizePlainMessage` | src/domain/history/normalize.rs:259-297 | Any message outside turns is filtered part by part and dropped when empty; a payload that is a tool result is refused. |
| `Normalizing.NormalizeAssistantMessage` | src/domain/history/normalize.rs:299-360 | Parts are filtered and calls renamed; content after a call is an error. |
| `Normalizing.CollectToolCalls` | src/domain/history/normalize.rs:432-452 | The calls of a message, or the duplicate error. |
| `NormalizeParts.FilterMeans` | src/domain/history/normalize.rs:362-430 | Filtering keeps exactly the parts the policy keeps, in order, within the text budget. |
| `NormalizeParts.NormalizedIdFits` | src/domain/history/normalize.rs:454-548 | A normalized id is free, and under the OpenAI rule has 1 to 40 characters of its alphabet. |
| `NormalizeParts.FittingIdStays` | src/domain/history/normalize.rs:516-548 | Ids that are free and fit are fixed points. |
| `NormalizeParts.TurnMeans` | src/domain/history/normalize.rs:299-360 | A processed turn is the kept parts with calls renamed to distinct fitting ids, and records exactly the changed ids. |
| `NormalizeParts.ExpectedMeans` | src/domain/history/normalize.rs:158-177 | The expected ids are the new ids of the calls, and the duplicate check never fires. |
| `NormalizeTurns.ResolveFinds` | src/domain/history/normalize.rs:561-593 | A result that carries a call's original id is assigned that same call's normalized id. |
| `NormalizeTurns.AnswerMeans` | src/domain/history/normalize.rs:183-225 | Every result is its message's result under the resolved id, ids are taken one by one, and text is charged. |
| `NormalizeTurns.AllAnswered` | src/domain/history/normalize.rs:227-238 | When nothing is pending, the results answer each call of the turn exactly once. |
| `Canonical.AnswersArePermutation` | src/domain/history/normalize.rs:183-239 | The ids of a turn's results are a permutation of its call ids. |
| `NormalizeProperties.OutputIsCanonical` | src/domain/history/normalize.rs:43-257 | A successful pass yields a history in normal form: tool messages only as one block after their turn, answering its distinct, well-formed calls, within the limits. |
| `NormalizeProperties.FixedPointsAreCanonical` | src/domain/history/normalize.rs:43-257 | A history passes unchanged and without diagnostics if and only if it is in normal form. |
| `NormalizeProperties.NormalizationIsIdempotent` | src/domain/history/normalize.rs:43-257 | A second pass succeeds with the same messages, no mappings and no diagnostics. |
| `NormalizeProperties.SecondLimitCheckIsIdle` | src/domain/history/normalize.rs:243-250 | A pass never grows a history, so the message limit on the output cannot fail. |
| `NormalizeMeaning.NormalizationPreservesContent` | src/domain/history/normalize.rs:43-257 | What the policy lets a reader see, in order and ids aside, is the same before and after. |
| `NormalizeMeaning.NormalizationPreservesLinks` | src/domain/history/normalize.rs:115-239 | Afterwards every result is linked to a call of its turn, and results linked before are linked to the same call. |
| `NormalizeDiagnostics.DiagnosticsCountLosses` | src/domain/history/normalize.rs:43-257 | The counts are exactly the sealed thinking dropped, the images dropped and the assistant messages removed, and one sanitized id per recorded mapping. |
| `NormalizeDiagnostics.SilentLosses` | src/domain/history/normalize.rs:259-430 | A pass without diagnostics leaves the history unchanged if and only if no thinking without a seal was dropped and no message outside turns was empty. |
| `NormalizeDiagnostics.ThinkingVanishes` | src/domain/history/normalize.rs:395-401 | An answer with unsealed thinking comes out without it, with no mapping and no diagnostic. |
| `NormalizeDiagnostics.EmptyMessageVanishes` | src/domain/history/normalize.rs:259-297 | A message outside turns without any part comes out as nothing, with no diagnostic. |
| `Usage.ValidateMeansConsistent` | src/domain/usage.rs:114-177 | Validation passes exactly for consistent counters. |
| `Usage.ForgettingKeepsConsistency` | src/domain/usage.rs:114-177 | Counters stay consistent when some become unknown. |
| `Usage.MergeMeans` | src/domain/usage.rs:203-264 | Two snapshots merge exactly when their known values agree and both the new one and the union of what is known are consistent; the result is that union. |
| `Usage.FoldMeans` | src/domain/usage.rs:203-284 | Folding snapshots succeeds exactly when their known values agree and the join is consistent; the result is that join. |
| `Usage.OrderIsIrrelevant` | src/domain/usage.rs:203-284 | Success and result do not depend on the order of the snapshots. |
| `Usage.MergeOutcome` | src/domain/usage.rs:203-264 | Every outcome but `Unchanged` adds a known counter. |
| `Usage.OutcomesBounded` | src/domain/usage.rs:203-264 | The core usage is emitted once if it becomes complete and never otherwise, and at most six outcomes report a change. |
| `Cost.RoundMicrosMeans` | src/domain/usage.rs:544-568 | Rounding succeeds exactly when the product fits 128 bits, and is within half a micro. |
| `Cost.PricedTokensMeans` | src/domain/usage.rs:531-542 | A line item is unknown without a count, and otherwise its price to the nearest micro. |
| `Cost.UncachedMeans` | src/domain/usage.rs:470-493 | After validation the subtraction cannot fail, and uncached, cached and written tokens add up to the input. |
| `Cost.SumMeans` | src/domain/usage.rs:495-517 | The total of four items cannot overflow. |
| `Cost.EstimateMeans` | src/domain/usage.rs:443-529 | An estimate succeeds exactly for consistent counters whose items fit, and every amount is priced as stated. |
| `Cost.TotalWithinTwoMicros` | src/domain/usage.rs:443-529 | A known total is within two micros of the exact price. |
| `Cost.NoPriceNoClaim` | src/domain/usage.rs:447-459 | Without a price profile all five amounts are unknown, and inconsistent usage is still refused. |
| `ConfigLayers.NoObjection` | crates/philo-config/src/merge.rs:346-363 | Layers pass the checks exactly when each is admitted and their sources are distinct. |
| `ConfigLayers.CheckLayers` | crates/philo-config/src/merge.rs:346-363 | The loop reports the first objection in the given order. |
| `ConfigLayers.MergeLayers` | crates/philo-config/src/merge.rs:342-386 | Checking, sorting and folding compute the specified merge. |
| `ConfigLayers.HighestLayerWins` | crates/philo-config/src/merge.rs:342-386 | Merging succeeds exactly for acceptable layers with a valid outcome; then each field's value and provenance are those of the greatest layer that sets or removes it, else the base's. |
| `ConfigLayers.MergeIgnoresOrder` | crates/philo-config/src/merge.rs:342-386 | Permuting the layers changes neither success nor result. |
| `ConfigLayers.MergeInStages` | crates/philo-config/src/merge.rs:342-386 | Merging low layers first and high layers later equals merging all at once, errors included. |
| `ConfigLayers.RestrictedSourcesStayInBounds` | crates/philo-config/src/merge.rs:199-237 | In every success an environment layer decides nothing but its own secret reference, and a per-request layer decides nothing. |
| `Layering.SortWorks` | crates/philo-config/src/merge.rs:364-370 | Sorting orders by key, keeps every element and keeps the order within a key. |
| `Layering.SortIgnoresOrder` | src/provider/headers.rs:320 | Order and stability determine the result of sorting. |
| `Headers.ResolveInOrder` | src/provider/headers.rs:319-342 | The nested loops compute the specified resolution. |
| `Headers.ApplyOperation` | src/provider/headers.rs:323-340 | One operation is refused with its objection, or changes the header and adds a step. |
| `Headers.FirstObjectionFails` | src/provider/headers.rs:344-375 | Resolution succeeds exactly when no operation is objectionable; otherwise the first objection is the error. |
| `Headers.LastWriteDecides` | src/provider/headers.rs:319-342 | A final header has the value of its last write in priority order, and is absent if that write removes it. |
| `Headers.FinalSource` | src/provider/headers.rs:170-179 | The backward search finds the last step that leaves the header present. |
| `Headers.FinalSourceIsLastWriter` | src/provider/headers.rs:170-179 | The reported source is that of the last write to the header. |
| `Headers.LayerOrderIsIrrelevant` | src/provider/headers.rs:319-342 | Only the order of layers with the same source matters. |
| `Headers.DistinctSourcesCommute` | src/provider/headers.rs:319-342 | Layers with distinct sources give the same headers, steps or error in every order. |
| `Headers.ProtectedHasOneOwner` | src/provider/headers.rs:240-263 | A protected header can be written by one source only, never by an override layer or the transport. |
| `Headers.AuthOwnsItsHeaders` | src/provider/headers.rs:240-263 | In every success a registered authentication header, unless it is a negotiation or identity header, is written by authentication layers alone, always as a secret, and is present. |
| `Headers.SecretsHaveOwners` | src/provider/headers.rs:344-375 | Sensitive values come from authentication layers, or from the provider for headers it registered. |
| `Headers.ResolvedRequestIsAuthentic` | src/provider/headers.rs:285-402 | Every request accepted by the public entry point carries JSON and, when authentication headers are registered, a secret written by an authentication layer, if and only if no negotiation or identity header is registered as an authentication header. |
| `Headers.AnonymousIsAccepted` | src/provider/headers.rs:285-402 | For each policy that registers such a header, layers without any authentication that are accepted. |

## Left out

- SseDecoding.SseDecoder.ProcessByte: `event_bytes` and `field_count` are unbounded counters here; their saturation at the word size is not modelled.
- Runner.RequestRunner.ReachMilestone: a request may be suspended before each milestone, which is more often than the code awaits; the header steps reported with resolved headers are not part of the report.
- Runner.RequestRunner.DecideNext: which errors the executor and the timers produce is up to the world; await stages and their budgets are not modelled.
- PublicStream.AssistantStream.Fail: a failed request is reported with the error itself instead of its category.
- Retry.WaitKeepsItsBounds: reading a delay out of response headers is not part of the model.
- ConfigLayers.MergeIgnoresOrder: which error is reported does depend on the order of the layers, so errors are compared only by whether there is one.
- ConfigLayers.MergeLayers: the validation of the final snapshot is an arbitrary function; endpoint, audience and identity values are opaque.
- Layering.SortWorks: the library's sorting algorithm is represented by a stable insertion sort.
- Collecting.Collect: structured-output validation after collection is not modelled; JSON is outside the model.
- Normalizing.NormalizeHistory: the hash behind rewritten ids is an arbitrary function of the id, rendered as twelve hexadecimal digits.
- ResponseStream.SseMachineStream.PollNext: the concrete OpenAI and Anthropic response machines are replaced by any deterministic machine.
- Texts of errors, debug output and redaction.
- Transport, TLS, proxies, DNS, timers and wakers.
- Provider definitions, profiles, presets, the registry and credential types: field copying and lookups.
- Request and tool-schema validation: long lists of independent checks.
- Raw protocol options, rate-limit headers and the bounded body reader.
