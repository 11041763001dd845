# otelgenai-go: a verified model

A Dafny model of the parts of otelgenai-go that keep state or transform data,
with proofs of what they guarantee. `dafny verify dfyconfig.toml` checks the
whole project.

The model follows the Go code, not its comments. Locked methods are atomic
steps; what a callback or a finalization does after it has released a lock is a
step of its own, each of a callback's calls on the instrumenter included, and
every other call may run in between. Clocks, classifier
and resolver results, projector answers and JSON decoding are inputs. Calls on
spans, metrics and events are entries of an append-only log.

| file | what it models |
|---|---|
| `Types.dfy`, `Sequences.dfy` | shared values; sums and collections over lists |
| `RegistrySpec.dfy`, `Registry.dfy` | the ADK lifecycle registry: on values, and as objects updated in place |
| `RegistryRuns.dfy`, `RegistryHistory.dfy` | what holds over any run of registry steps; what a stored state holds, in terms of the steps since its start |
| `Callbacks.dfy`, `Plugin.dfy`, `PluginRuns.dfy` | the ADK callbacks: as interruptible threads, as methods, and whole runs of the methods as runs of the threads |
| `CallbackRuns.dfy`, `Reports.dfy`, `ReportCounts.dfy`, `Isolation.dfy`, `Details.dfy`, `Overlap.dfy` | what holds under any interleaving of callbacks |
| `Streaming.dfy`, `Stream.dfy`, `StreamObjects.dfy`, `StreamRuns.dfy` | stream timing and the two finalization latches: as interruptible calls, as objects, whole runs of the objects, and over all interleavings |
| `GoogleStream.dfy`, `AnthropicStream.dfy` | the two provider streams on top |
| `CallTree.dfy` | counting calls against the nearest enclosing agent |
| `Content.dfy`, `Attributes.dfy`, `AdkContent.dfy` | the content pipeline, its two encodings and the ADK normalizer |
| `Pricing.dfy` | token partition and cost estimate |

## Results worth reading first

- Any number of invocations share one registry without observing each other
  (`Isolation.InvocationsAreIsolated`), exactly if no two of them start tools
  under the same valid span (`Isolation.IsolatedIffNoSharedSpan`).
- Every model or tool call is reported, held, on its way, or lost in one of
  three named ways (`CallbackRuns.CallsAreConserved`).
- In every interleaving each call that follows the end of an agent, a model
  operation or a tool says what the start, the steps since and the ending
  callback brought, duration included (`Reports.AgentReported`,
  `ModelReported`, `ToolReported`), and is made exactly as often as such turns
  call for it (`ReportCounts.CallsAreMade`). Each error is marked as pending
  exactly once, for the agent it belongs to (`ReportCounts.MarksAreMade`).
- Each model operation is reported once (`CallbackRuns.ReportedExactlyOnce`),
  and with serialized callbacks its details event says exactly what that
  operation's callbacks said (`Details.DetailsDescribeOperations`). Callbacks
  that overlap can do worse: `Overlap.CanActOnOtherIff` says, from the list of
  callbacks alone, exactly which of them can come to change or end an operation
  that is not the one they were given.
- The `continued_after_error` events carry exactly the pending errors that were
  taken (`CallbackRuns.ContinuationsReported`), each the first since the last
  reset (`ContinuationCarriesFirstError`). They need not come in the order of the
  takes (`EventsOutOfOrder`); they do in every interleaving exactly if in none
  two callbacks have different errors to report at once (`AlwaysInOrderIff`).
- Operation IDs strictly increase exactly until the 64-bit counter wraps
  (`RegistryRuns.OperationIDsIncreaseUntilWrap`).
- A stream finalizes at most once on every path (`StreamRuns.FinalizedOnce`).
  The fields that are read without its lock are frozen exactly if the operation
  is not a streaming one, or nobody calls `End` on it directly, or it has no
  output (`StreamRuns.ReadsAreFrozenIff`); otherwise `End` can read
  `hasFirstChunk` and `firstChunkTime` while they change.
- What a finalized stream records is fixed by the chunks before it and the one
  ending call: tokens and duration in every interleaving
  (`StreamRuns.TokensRecorded`, `EndRecorded`), the whole log for the provider
  streams (`AnthropicStream.ContentIsObserved`, `GoogleStream.TextIsObserved`).
- Each agent counts exactly the starts it is nearest to, in any execution order
  (`CallTree.Run`).
- A valid projection is exactly what a projector returned in valid shape within
  the limit; the bad-JSON branch is dead (`Content.ProjectContent`). The text
  tells the whole value: messages, parts and payloads can be read back from it
  (`Content.DocumentReadsBack`), and from what is logged (`LoggedAsProjected`).

Where code and comments differ the model follows the code:

- `agentState.pendingError` is introduced as the most recently observed error
  (`instrumentation/adk/state.go:36-40`); the code keeps the first one
  (`168-174`), as `RegistryRuns.PendingIsFirstMark` states.
- `beforeModel` is said to preserve existing state on a collision
  (`instrumentation/adk/inference.go:12-14`); it has taken the pending error by
  then, and so has `Plugin.Plugin.BeforeModel`.
- `StartTool` is said to record the enclosing agent's name (`tool.go:36-37`); it
  only counts against that agent.

## Model

| member | source | states |
|---|---|---|
| Registry.Registry.StartAgent | instrumentation/adk/state.go:109-120 | files a new agent state under its key, silently replacing any other |
| Registry.Registry.GetAgent | instrumentation/adk/state.go:123-127 | finds a state iff the registry has a record for the key, and then the very object filed there, which holds that record |
| Registry.Registry.EndAgent | instrumentation/adk/state.go:132-143 | removes and returns the live state, terminalized, or nothing |
| Registry.Registry.IncrementAgentInference | instrumentation/adk/state.go:147-153 | counts on the live agent of the key, if any, and changes nothing else |
| Registry.Registry.IncrementAgentTool | instrumentation/adk/state.go:157-163 | the same for tool calls |
| Registry.Registry.MarkPendingError | instrumentation/adk/state.go:168-174 | keeps the first pending error only |
| Registry.Registry.TakePendingError | instrumentation/adk/state.go:178-188 | returns and clears the pending error |
| Registry.Registry.UpdateModelRequest | instrumentation/adk/state.go:192-200 | writes provider and request content on the active model, by key |
| Registry.Registry.UpdateModelUsage | instrumentation/adk/state.go:204-211 | replaces the usage, accumulates the streaming flag |
| Registry.Registry.SetToolArguments | instrumentation/adk/state.go:215-221 | writes the arguments on the active tool state |
| Registry.Registry.StartModel | instrumentation/adk/state.go:226-245 | refuses on an active model; otherwise files a fresh state whose ID is the advanced 64-bit counter |
| Registry.Registry.GetModel | instrumentation/adk/state.go:248-252 | the very object filed under the key, which holds the key's record |
| Registry.Registry.EndModel | instrumentation/adk/state.go:257-268 | removes and returns the active model, terminalized, or nothing |
| Registry.Registry.StartTool | instrumentation/adk/state.go:273-290 | fails closed on an invalid span, otherwise files a fresh state, replacing any other |
| Registry.Registry.GetTool | instrumentation/adk/state.go:293-297 | finds a tool iff the registry has a record for the span, and then the very object filed there, which holds that record |
| Registry.Registry.EndTool | instrumentation/adk/state.go:302-313 | removes and returns the active tool state, terminalized, or nothing |
| Registry.Registry.CleanupInvocation | instrumentation/adk/state.go:319-338 | deletes exactly the invocation's agents, models and tools; the operation counters stay |
| Registry.Registry.Replay | instrumentation/adk/state.go:109-338 | any run on the real objects follows the specification, keeps every stored state live, filed under its own key and distinct, a stored model's operation ID equal to its key's counter, and never changes a state already terminalized |
| RegistrySpec.RunKeepsConsistent | instrumentation/adk/state.go:226-268 | in every reachable state no stored state is terminalized, each is under its own key, and a live model's serial is its key's counter |
| RegistryRuns.StartsIncrease | instrumentation/adk/state.go:226-245 | successive operations of one key get larger serials, across any cleanup |
| RegistryRuns.TerminalizedOnce | instrumentation/adk/state.go:257-268 | no operation is terminalized twice |
| RegistryRuns.OperationIDsIncreaseUntilWrap | instrumentation/adk/state.go:234-240 | the 64-bit IDs of one key strictly increase exactly as long as its counter has not wrapped |
| RegistryRuns.PendingIsFirstMark | instrumentation/adk/state.go:165-188 | a live agent's pending error is the first error marked since the later of its start and the last take |
| RegistryRuns.ContinuationHasItsError | instrumentation/adk/state.go:165-188 | every pending error a take returns was marked earlier with that very type, first since the preceding reset |
| RegistryRuns.ErrorBetweenContinuations | instrumentation/adk/state.go:165-188 | between two successful takes of one agent there is a new mark, of the type the second one returns |
| RegistryRuns.CountsSinceStart | instrumentation/adk/state.go:145-163 | a live agent has counted exactly the increments since it was started |
| RegistryRuns.CountsAreConserved | instrumentation/adk/state.go:109-163 | increments = counts emitted by endAgent + held by the live agent + overwritten + cleaned up + without an agent |
| RegistryHistory.AgentHistory | instrumentation/adk/state.go:109-143 | a live agent has the name and the time of the last start of its key, and was neither ended nor cleaned up since |
| RegistryHistory.ModelHistory | instrumentation/adk/state.go:192-245 | an active model operation is the one its last accepted start filed, with the last request and the last usage written by key since, streaming iff one of these usages said so |
| RegistryHistory.ToolHistory | instrumentation/adk/state.go:215-290 | a live tool state is the one the last start under its span filed, with the arguments stored since |
| RegistryHistory.AgentLiveIff | instrumentation/adk/state.go:109-143 | an agent is live iff it was started and neither ended nor cleaned up since |
| RegistryHistory.ModelLiveIff | instrumentation/adk/state.go:226-268 | a model operation is active iff a start was accepted and it was neither ended nor cleaned up since |
| RegistryHistory.ToolLiveIff | instrumentation/adk/state.go:273-313 | a tool with a valid span is live iff it was started and neither ended, started anew nor cleaned up since |
| CallbackRuns.CallsAreConserved | instrumentation/adk/inference.go:91-100 | under every interleaving, calls recorded or about to be = calls the agent metrics report or are about to + held + in flight + lost in one of three ways; once all callbacks are through, recorded = reported + held + lost; for tools through the captured agent key |
| CallbackRuns.ContinuationsReported | instrumentation/adk/inference.go:26-35 | under every interleaving, an agent's continued_after_error events, with those its callbacks still have to emit, carry exactly the pending errors its callbacks took, as a multiset |
| CallbackRuns.ContinuationsInOrder | instrumentation/adk/inference.go:26-35 | and in the order they were taken, if no callback takes an error while another still has one to report |
| CallbackRuns.AlwaysInOrderIff | instrumentation/adk/inference.go:26-35 | the order is that of the takes in every interleaving iff in no interleaving two callbacks have different errors still to report |
| CallbackRuns.EventsOutOfOrder | instrumentation/adk/tool.go:26-35 | otherwise they can come in the reverse order: one run for any two errors |
| CallbackRuns.ContinuationCarriesFirstError | instrumentation/adk/inference.go:102-108 | each such event carries the first error marked since the agent was last started or asked |
| CallbackRuns.ErrorBetweenEvents | instrumentation/adk/tool.go:26-35 | behind any two such events are two takes, and between these a mark of the type that the event of the later take carries |
| CallbackRuns.ReportedExactlyOnce | instrumentation/adk/inference.go:86-142 | under every interleaving, usage is recorded or about to be once per terminalized operation and never otherwise, the details event at most once and only for a terminalized operation with a provider; in the end, both exactly then |
| Reports.EventSays | instrumentation/adk/inference.go:65-142 | under every interleaving, each call in the log was brought about by one turn of its callback, and every field of it is what that turn found in the state it ended, or in the one the callback had ended before |
| Reports.AgentReported | instrumentation/adk/agent.go:21-35 | an agent's events carry the name of its last start, the time since, and the inference and tool calls counted since |
| Reports.ModelReported | instrumentation/adk/inference.go:84-142 | a duration is the ending turn's time minus the start's; usage, streaming flag, provider and request content are those last written by key since that start; output, response model, finish reason and error type are the response's own |
| Reports.ToolReported | instrumentation/adk/tool.go:77-118 | name, agent and duration are from the span's last start, arguments those stored since; the details have the callback's result iff it has no error, the error type and the span outcome iff it has one |
| Reports.ToolReportedOnce | instrumentation/adk/tool.go:77-118 | once all callbacks are through, a span has as many details events and span outcomes as tool ends |
| Reports.StepsAreMade | instrumentation/adk/instrumentation.go:139-206 | every locked step is one of a callback, with that callback's own key, names and content |
| Reports.ErrorsObservedOnce | instrumentation/adk/inference.go:150-168 | once all callbacks are through, every error a callback was told of has been observed once |
| ReportCounts.CallsAreMade | instrumentation/adk/agent.go:21-35 | once all callbacks are through, each agent, model and tool measurement, each set of span attributes and each failure has been reported exactly as often as turns called for it |
| ReportCounts.MarksAreMade | instrumentation/adk/inference.go:102-108 | once all callbacks are through, an agent has been marked with an error type once per error its error callbacks were given and per model operation or tool of its that ended with one, and never otherwise |
| Isolation.InvocationsAreIsolated | instrumentation/adk/state.go:109-338 | for every interleaving, one invocation's part of the registry, its callbacks' progress and its calls on the instrumenter are what its callbacks alone give, if every tool is started under a span of its own invocation |
| Isolation.IsolatedIffNoSharedSpan | instrumentation/adk/state.go:273-290 | spans can be assigned to invocations so that every invocation is isolated in every interleaving iff no two invocations start tools under the same valid span; if two do, the second start takes the first one's state away |
| PluginRuns.SharedSpanTakesOver | instrumentation/adk/state.go:273-290 | otherwise the second start takes over the first one's state, and the tool's end is measured for the second agent |
| Isolation.MemoryStep | instrumentation/adk/state.go:315-338 | a locked step sees and changes its own invocation's part only, cleanup included |
| Details.DetailsDescribeOperations | instrumentation/adk/inference.go:109-142 | if a key's model callbacks do not overlap, the logged details events are, in order, those its callbacks describe, whatever other callbacks do: provider, model and request content of the opening beforeModel, last non-nil usage, streaming iff a response was partial, output, response model, finish reason and error type of the ending afterModel |
| Details.SlotAsDescribed | instrumentation/adk/inference.go:41-81 | the open operation has its own beforeModel's content, the last non-nil usage since (zero if none), and the streaming flag iff some response was partial |
| Overlap.CanActOnOtherIff | instrumentation/adk/inference.go:41-100 | a callback can come to update the request or the usage of, or to end, an active operation that its own startModel or getModel did not give it iff it is a beforeModel that captures the request or an afterModel, its key has two beforeModels, and another callback closes an operation of the key |
| Overlap.CanWriteStaleIff | instrumentation/adk/inference.go:77-81 | in particular it can write back a usage read from another operation iff there is such an afterModel that is partial and without usage |
| Overlap.StaleUsageReachesNextOperation | instrumentation/adk/inference.go:77-81 | from the empty registry, four callbacks of any key: the second operation ends up streaming and with the usage only the first one reported |
| Overlap.RequestReachesNextOperation | instrumentation/adk/inference.go:41-58 | three callbacks: the second operation ends up with the provider and content of the first one's request |
| Overlap.ResponseEndsNextOperation | instrumentation/adk/inference.go:84-95 | four callbacks: a second response to the first operation ends the second one |
| Callbacks.ResolveProvider | instrumentation/adk/inference.go:170-190 | a non-empty name from the resolver if it gives one, else the static provider unless the resolver panics; none iff it panics or neither gives one |
| Callbacks.MapUsageMetadata | instrumentation/adk/inference.go:216-227 | input is the prompt, output the candidates and the thoughts, reasoning the thoughts again; no cache writes |
| Callbacks.Known | instrumentation/adk/inference.go:102-107 | a classified error is never marked or reported as no error |
| Plugin.UninterruptedIsThread | instrumentation/adk/inference.go:23-166 | each callback as a method does exactly what its thread does when nothing interrupts it |
| PluginRuns.RunCallback | instrumentation/adk/instrumentation.go:139-206 | any one callback on the plugin's objects gives the registry and the events of its uninterrupted form |
| PluginRuns.Replay | instrumentation/adk/instrumentation.go:139-206 | any sequence of callbacks on the plugin's objects leaves the registry and the log of the callback system under a serial schedule, all callbacks done, so the theorems over interleavings apply to the objects |
| Plugin.Plugin.BeforeAgent | instrumentation/adk/agent.go:12-16 | starts the agent state, nothing else |
| Plugin.Plugin.AfterAgent | instrumentation/adk/agent.go:21-35 | emits duration, inference and tool counts of the ended state, or nothing |
| Plugin.Plugin.AfterRun | instrumentation/adk/agent.go:41-43 | cleans up its invocation and emits nothing |
| Plugin.Plugin.BeforeModel | instrumentation/adk/inference.go:23-58 | takes the pending error before it can collide; captures the request only with events enabled and a provider |
| Plugin.Plugin.CaptureRequest | instrumentation/adk/inference.go:47-57 | stores the request only if a provider is found; reports a panicking resolver |
| Plugin.Plugin.AfterModel | instrumentation/adk/inference.go:65-142 | records usage, and on a terminal response ends, measures, counts, marks and reports the operation in that order |
| Plugin.Plugin.EndModel | instrumentation/adk/inference.go:85-142 | nothing without an active operation; otherwise both metrics, the count, the mark and the details |
| Plugin.Plugin.EmitDetails | instrumentation/adk/inference.go:109-142 | no event without a provider; otherwise the event whose fields Details.DetailsDescribeOperations and Reports.ModelReported give |
| Plugin.Plugin.ObserveError | instrumentation/adk/inference.go:150-168 | marks the pending error and emits the occurrence, unless there is no error; also for tools |
| Plugin.Plugin.BeforeTool | instrumentation/adk/tool.go:23-71 | takes the pending error, then fails closed without a valid span |
| Plugin.Plugin.StartSpan | instrumentation/adk/tool.go:38-71 | a missing or invalid span is reported and starts nothing; otherwise arguments are kept only with events enabled |
| Plugin.Plugin.AfterTool | instrumentation/adk/tool.go:77-118 | ends the tool state, counts on the captured agent key, marks its error, and reports what Reports.ToolReported says |
| StreamRuns.FinalizedOnce | stream.go:95-133 | in any interleaving of ObserveChunk, FinalizeStream and End no finalization recording is made twice; once all are through, outcome, duration and span end are made iff there was a finalizing call, the time to first chunk iff the stream was finalized after a chunk |
| StreamRuns.AttributeDecided | inference.go:303-307 | the span attribute is set iff the operation is a streaming one and has seen a first chunk when the one ending call gets there |
| StreamRuns.ReadsAreFrozenIff | stream.go:58-133 | the fields a call still reads without the stream lock cannot change any more exactly if the operation is not a streaming one, or End is only reached through FinalizeStream, or there is no output |
| StreamRuns.ChunkAfterEnd | inference.go:303-307 | for a streaming operation with a direct End and an output chunk there is a schedule that changes them |
| StreamRuns.FrozenOnceFinalized | stream.go:62-73 | a finalized stream's chunk fields never change |
| StreamRuns.AttributeEqualsMetric | inference.go:303-307 | span attribute and metric are the same time, and for a streaming operation ended through its stream one is recorded exactly as often as the other |
| StreamRuns.IntervalsTelescope | stream.go:67-85 | k output chunks give max(0, k-1) intervals; with the time to the first chunk they add up to the last chunk's time since the start |
| StreamRuns.TimesNotNegative | stream.go:67-85 | under a monotone clock no interval and no time to first chunk is negative |
| StreamRuns.OutcomeOfFinalization | stream.go:120-132 | the recorded outcome is what one finalization asked for: "error" iff not terminal, and the early-close error iff it had none of its own |
| StreamRuns.TokensRecorded | inference.go:281-301 | in every interleaving, with an outcome the log has the input tokens of its response once if positive and none otherwise, and so for output; without an outcome, none |
| StreamRuns.EndRecorded | inference.go:271-279 | behind each outcome comes the operation's duration, from its start to the turn that recorded both |
| Stream.UninterruptedIsThread | stream.go:95-133 | a call that nothing interrupts does what its thread of steps does |
| StreamObjects.Replay | stream.go:41-133 | any sequence of calls on a fresh stream state and its operation leaves fields and recordings of the system of calls under a serial schedule, all calls through, so the theorems over interleavings apply to the objects |
| Stream.NewStreamState | stream.go:41-54 | nil for a nil operation, otherwise a fresh state that has seen no chunk |
| Stream.ObserveChunk | stream.go:58-86 | sets both copies of the first-chunk time or records one interval; nothing on nil, non-output or finalized |
| Stream.FinalizeStream | stream.go:95-133 | latches, records the time to the first chunk, then ends the operation with the adjusted outcome |
| Stream.FinalizedLog | stream.go:95-133 | finalizing a stream whose chunks came at given times leaves exactly their intervals, the time to the first, outcome, duration, positive token counts, the attribute iff streaming with a chunk, and the span end |
| Stream.EndOperation | inference.go:179-310 | latches, then outcome, duration, tokens, first-chunk attribute and span end, in that order and once; Stream.FinalizedLog gives the log item by item |
| GoogleStream.FinishReasonsOrdered | instrumentation/google-genai/mapping.go:55-68 | no duplicates, exactly the non-empty reasons of non-nil candidates, in order of first report |
| GoogleStream.FinishReasonsUnique | instrumentation/google-genai/mapping.go:55-68 | nothing else is such a list |
| GoogleStream.MapResponse | instrumentation/google-genai/mapping.go:47-71 | the loop with the seen map computes that list |
| GoogleStream.Mapped | instrumentation/google-genai/mapping.go:47-71 | model, ID, finish reasons and usage of the response, nothing for nil |
| GoogleStream.MapUsageMetadata | instrumentation/google-genai/mapping.go:75-85 | each count from its own field, no cache writes, all zero for nil |
| GoogleStream.HasGeneratedOutput | instrumentation/google-genai/mapping.go:100-118 | true iff some non-nil candidate has a non-empty text part |
| GoogleStream.FindFinishReason | instrumentation/google-genai/models.go:98-105 | true iff some non-nil candidate has a finish reason |
| GoogleStream.GenerateContentStream | instrumentation/google-genai/models.go:70-111 | yields the longest prefix ending at the first error or where the consumer stops, and leaves the telemetry finalized once, for every inner sequence and consumer |
| GoogleStream.StreamOutcome | instrumentation/google-genai/models.go:76-110 | one outcome and one span end; early close iff the consumer stopped before any finish reason; a second finalization changes nothing |
| GoogleStream.TextIsObserved | instrumentation/google-genai/models.go:76-110 | the observed chunks are exactly the responses that generated text: intervals between them, time to the first, and one outcome, with the last response's tokens |
| AnthropicStream.FoldDescribes | instrumentation/anthropic/stream.go:34-63 | after any calls: model and ID of the last message_start, usage of the last message_delta, last non-empty stop reason, terminal iff a delta came |
| AnthropicStream.EffectiveFinalization | instrumentation/anthropic/stream.go:76-90 | the first call that ends or closes the stream determines the one outcome, from the events before it; "error" iff not terminal |
| AnthropicStream.ContentIsObserved | instrumentation/anthropic/stream.go:34-90 | the observed chunks are exactly the content_block_delta events delivered before finalization: intervals between them, time to the first, and the outcome; later calls add nothing |
| AnthropicStream.MessageStream.Next | instrumentation/anthropic/stream.go:34-63 | one step of the fold, or the finalization at the end of the stream |
| AnthropicStream.MessageStream.Close | instrumentation/anthropic/stream.go:76-90 | finalizes with the close error |
| AnthropicStream.MessageStream.Replay | instrumentation/anthropic/stream.go:34-90 | any sequence of calls on the object is the fold over that sequence |
| CallTree.StartsAreAttributedAll | agent.go:38-73 | every start belongs to exactly one agent in the tree, to the agent around it, or to nobody |
| CallTree.Run | agent.go:122-137 | in any order of execution each agent ends with exactly the starts nearest to it, the agents are those of the tree, and all counters with the unattributed starts make up all starts |
| CallTree.Instrumenter.StartAgent | agent.go:85-129 | a fresh agent with zero counters becomes the visible one; nothing when disabled |
| CallTree.Instrumenter.StartInference | inference.go:86-174 | counts on the visible agent unless disabled or without operation or model |
| CallTree.Instrumenter.StartTool | tool.go:39-86 | counts on the visible agent unless disabled |
| CallTree.Instrumenter.EnterServer | instrumentation/mcp/server.go:30-52 | an instrumented request hides every agent and charges none; others pass through |
| CallTree.Instrumenter.EnterClient | instrumentation/mcp/client.go:26-48 | an outgoing tools/call counts on the visible agent, other requests do not |
| CallTree.WithoutAgentObserver | agent.go:66-73 | nothing is visible below it; the context is unchanged if nothing was |
| Content.ValidateParts | content.go:348-368 | true iff every part has a supported type, tool calls a name, and non-empty payloads are valid JSON |
| Content.ValidateProjectionShape | content.go:321-344 | true iff the field for the kind has a valid shape; false for other kinds |
| Content.ValidShapeSerializes | content.go:299-317 | a value of valid shape always serializes |
| Content.DocumentReadsBack | content.go:299-317 | from the document one reads back every message with role, content, parts and finish reason, every part with type, texts and decoded payloads, every system instruction part and tool definition, in order |
| Content.TextReadsBack | content.go:299-317 | and from its text, through the library's own decoding |
| Content.DropReasons | content.go:229-295 | projector error iff it fails, invalid iff the answer has no valid shape, oversize iff it has one and its bytes exceed the limit |
| Content.ProjectContent | content.go:229-295 | valid iff enabled, a projector returned a value of valid shape and the bytes fit; the text then decodes to a document that tells that value; one diagnostic per drop by a projector, never for bad JSON |
| Content.LoggedAsProjected | content.go:142-164 | the log value is that of the projected document, from which the value can be read back, or of what a tool call string encodes if that is an object or array |
| Attributes.AnyToAttributeValue | content.go:180-221 | terminates with the canonical value whatever order map keys come in; its numbers are as Attributes.IntegersLogged and OtherNumbersLogged say |
| Attributes.CanonicalValue | content.go:202-217 | a document has only one such value: keys strictly increasing and exactly the non-empty ones at every level, arrays in order |
| Attributes.DecimalExact | content.go:188-195 | an integer in decimal is read back exactly iff it fits in 64 bits |
| Attributes.IntegersLogged | content.go:188-195 | a decimal integer is logged as that integer iff it fits in 64 bits, whatever the float parser makes of it, else as the float read or the text |
| Attributes.OtherNumbersLogged | content.go:188-195 | any other number is logged as the float read, or as its text if none is |
| Attributes.SortStrings | content.go:209-209 | the same keys, strictly increasing |
| Attributes.LogValue | content.go:142-164 | invalid iff there is no projection or it does not decode, else the value of the document it stands for |
| Attributes.ToolCallStringsLogged | content.go:150-161 | a tool call string is logged structured iff it decodes to an object or array, else as itself |
| AdkContent.MapParts | instrumentation/adk/content.go:113-121 | the loop computes AdkContent.MappedParts |
| AdkContent.MappedParts | instrumentation/adk/content.go:113-157 | part i is the mapped part at the i-th position that has a canonical form |
| AdkContent.MapPart | instrumentation/adk/content.go:125-157 | type, ID, name and payload of a call or a response, text of a part that is not a thought; nothing else has a canonical form |
| AdkContent.SchemaRole | instrumentation/adk/content.go:162-179 | "tool" iff a part carries a tool result or the turn's own role is "tool"; never empty |
| AdkContent.RoleOf | instrumentation/adk/content.go:162-179 | "tool" for a turn with a tool result, else "assistant" for the model, "user" for the user, a nil turn or no role, and any other role as it is |
| AdkContent.MapTurns | instrumentation/adk/content.go:46-55 | the turns in order, without exactly the nil ones |
| AdkContent.MappedTurns | instrumentation/adk/content.go:38-55 | message i is the mapped turn at the i-th position that is not nil |
| AdkContent.PartsValidIffNamed | instrumentation/adk/content.go:125-157 | mapped parts are valid iff every function call has a name |
| AdkContent.InputValidIffNamed | instrumentation/adk/content.go:42-63 | input messages are of valid shape iff every function call of every turn has a name |
| AdkContent.OutputValidIffNamed | instrumentation/adk/content.go:69-82 | the same for the output message |
| AdkContent.HasToolCall | instrumentation/adk/content.go:182-189 | true iff some mapped part is a tool call |
| AdkContent.HasResponseToolCall | instrumentation/adk/inference.go:194-204 | true iff the response's content has a non-nil part with a function call |
| AdkContent.CallsSurviveMapping | instrumentation/adk/inference.go:194-204 | a response and its mapped parts carry a tool call alike |
| AdkContent.ReportResponse | instrumentation/adk/inference.go:128-133 | for a non-nil response the event's finish reason is the output message's |
| AdkContent.OutputValue | instrumentation/adk/content.go:69-82 | always exactly one assistant message with the mapped parts and finish reason |
| AdkContent.SchemaFinishReason | instrumentation/adk/content.go:195-223 | "error" for nil, an error code or an interruption; else "tool_call" or "stop", "length", "content_filter", or the reason in lower case |
| AdkContent.ProjectInputMessages | instrumentation/adk/content.go:42-63 | nothing is projected or diagnosed without a turn, otherwise the mapped turns go through the pipeline |
| Pricing.Normalize | pricing/pricing.go:69-89 | succeeds iff counts are non-negative and cache read plus write is at most input in unbounded integers; the parts sum to the input; no int64 overflow |
| Pricing.EstimateGrows | pricing/pricing.go:95-130 | for validated prices and any monotone rounding the estimate is never NaN or negative and is monotone in each count, so ValidCost rejects positive infinity only |
| Pricing.EstimateExact | pricing/pricing.go:95-130 | under exact rounding the estimate is the sum of each count times its own price, whatever is fused |
| Pricing.CostReported | inference.go:220-246 | a cost is reported iff price known and valid, usage consistent and the estimate neither zero nor infinite; then it is finite and positive |

## Left out

- Isolation.InvocationsAreIsolated: assumes, as the program does, that no valid execute_tool span is shared between invocations; the assumption is exact (Isolation.IsolatedIffNoSharedSpan), and PluginRuns.SharedSpanTakesOver shows what a shared span does.
- Details.DetailsDescribeOperations: assumes that the model callbacks of one key do not overlap; updates are by key and not by operation ID, and Overlap.CanActOnOtherIff says exactly which callbacks can then change or end an operation that is not the one they were given.
- Registry.Registry.IncrementAgentInference: the call counters are unbounded, the program's are int64; the same holds for CallTree.Instrumenter.StartInference.
- Callbacks.ReadUsage: the field read through an escaped pointer is one atomic read of the current value; the Go memory model allows worse.
- StreamRuns.ReadsAreFrozenIff: the two fields of one unlocked read are read together.
- Stream.EndOperation: the response, usage, cost, content and error attributes of `inference.go:191-269` are one Outcome entry with the response and the error; when a cost is among them is Pricing.CostReported.
- CallbackRuns.AlwaysInOrderIff: the condition is on the states a run can reach, not on the list of callbacks alone.
- Streaming.Act: outcome, duration and token recordings of an ending operation are one step; in the program another call's recording can come in between.
- Attributes.NumberValue: the float parser is an input, only the integer path is modelled digit by digit.
- Content.LoggedAsProjected: encoding/json is a lawful library at its boundary; escaping, compaction and trailing text after the first document are not modelled.
- AdkContent.SchemaFinishReason: lower-casing of unknown reasons covers ASCII letters only, and a finish reason is a case of a datatype instead of the SDK's string.
- Pricing.EstimateGrows: the sign of zero is not modelled.
- GoogleStream.GenerateContentStream: a panic in the consumer, which also runs the deferred finalization.
- End in CallTree: an agent's counters are proved for the whole run; what its End emits depends on when it is called, and calls that start later are not reported.
- Span attributes of a request, tool type and system attributes, conversation IDs and metric dimensions: copied one by one.
- Seconds as float64: durations are exact integers of nanoseconds.
- Nil-span and disabled variants of InternalOperation and ToolOperation.End: the latch is the one of InferenceOperation.
- The OpenAI, embeddings and Responses wrappers: the same shape with less state.
- Trace context injection and extraction, provider SDKs, exporters, the ADK runner: outside the repository's own logic.
- Panics in user code other than projector, classifier and resolvers.
