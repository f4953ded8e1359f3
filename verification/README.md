# RealFlow verification model

RealFlow (C++ namespace `byteturn`) is a voice-agent runtime: a stack of objects that guard their
state with mutexes, and a few streaming text transformers. This project models its core in Dafny and
proves what the source and its documentation promise about it.

How the source is represented:

* A region between locking and unlocking a mutex is one transition. What runs outside the locks
  (factories, engines, handlers, providers, sessions, other threads) acts between transitions in any
  way. Each component has a datatype `State`, transition functions, an invariant that every transition
  keeps, and results over every run, that is over every interleaving of transitions.
* The objects themselves are classes with the source's fields and one method for each of its regions
  or loops. Each method's postcondition equates the abstract state afterwards, and the value returned,
  with the transition function applied to the state before; `Perform...` methods tie the regions to
  the object's invariant.
* Some state fields are histories that the source does not keep (`reasons`, `trace`, `log`,
  `launch`, `threw`, `delivered`, `given`, ...). They let an invariant speak about everything that has
  happened; no transition decides anything by them.
* Strings are byte strings: a `char` stands for one byte. Counters are unbounded. Clock readings are
  integers. Objects reached through shared pointers live in a heap, a sequence indexed by a number.

Modules, by component:

| file | modules | what it models |
|---|---|---|
| RuntimeModel, RuntimeInvariant, RuntimeSteps, RuntimeRuns, RuntimeStartup, RuntimeLog, RuntimeDrain, RuntimeManager | RuntimeModel ... RuntimeManagers | registry, startup workers, reaper and dispatcher of `RuntimeManager` |
| Executor | ExecutorModel, SessionExecutors | per-session lanes over a worker pool |
| ConversationSession | SessionContract, SessionModel, ConversationSessions | lifecycle lane of one session |
| EventTimeline | Events, TimelineModel, EventTimelines | bounded journal with a lossy delivery lane |
| EventBus | EventBusModel, EventBuses | subscribe, deliver and unsubscribe with re-entrant handlers |
| Json, JsonMessages, JsonParsers, JsonEscapes | same names | JSON parser and printers; strings as in section 7 of RFC 8259 |
| Sse, LlmStream | same names | server-sent events and streamed completions |
| Utf8, Segmenter | Utf8, SegmenterModel, SentenceSegmenters | sentence segmentation; UTF-8 as in section 3 of RFC 3629 |
| FullDuplex | FullDuplexModel, FullDuplexConversations | sample accounting and barge-in |
| Metrics, Observer, ObserverSpans | Metrics, MetricsRegistries, ObserverModel, RuntimeObservers, ObserverSpans | histograms and the span reducer |
| VoiceChat | VoiceChatModel, VoiceChats | a client connection on top of runtime tickets |
| Agent | AgentModel, Agents | the tool loop with rollback |

Where the code does not do what one would expect, the code is followed and the exact condition is
proved:

* A histogram that takes values before it has bounds exports them in its lowest bucket:
  `Metrics.ExportRightIff` says when the export is right, `Metrics.LateBoundsMiscount` shows a failure.
* `hard_max_characters` does not bound a sentence, because punctuation is tried first. Per cut
  `SegmenterModel.CutTooLongIff` says that it is exceeded exactly when the punctuation chosen lies
  beyond it, and `SegmenterModel.TooLongIff` lifts that to what a push or a flush emits.
  `SegmenterModel.HardMaxIsNoBound` is an example; `SegmenterModel.SentenceLengthBound` and
  `SegmenterModel.FlushedSentencesAreShort` are the bounds that hold.
* A removal of a subscription that is already gone returns at once, so it may return with the handler
  still running or about to run: `EventBusModel.RemovalQuiescesIff` says which removals quiesce, and
  `EventBusModel.SecondRemovalDoesNotQuiesce` reaches one that does not.
* A refresh of a voice connection reads the startup ticket twice: `VoiceChatModel.RunningMeansStartedIff`
  says in which states before a refresh Running means Started,
  `VoiceChatModel.RunningDespiteFailure` reaches the other case from the start, and
  `VoiceChatModel.RunningIsCorrected` says that the next refresh ends it.
* The question whether a turn is cancelled is asked once more for the terminal event. If that throws
  there is no terminal event: `AgentModel.TerminalEventIff`, with `AgentModel.ThrowingCallbackEndsNothing`
  as an example.
* The server-sent event parser follows the code, not the WHATWG HTML Living Standard: a bare CR does
  not end a line, the end of the stream dispatches, leading empty data lines vanish.

## Model

| member | source | states |
|---|---|---|
| `RuntimeSteps.NextInv` | src/runtime_manager.cpp:154-434 | every region of clients, workers, reaper and dispatcher, and every move of a session, keeps the runtime's invariant |
| `RuntimeRuns.TicketsSetOnce` | src/runtime_manager.cpp:311-323 | in every run each ticket is set at most once and never changes, and the startup ticket is set no later than the retirement ticket |
| `RuntimeStartup.StartupTicket` | src/runtime_manager.cpp:285-323 | whenever a startup ends, its ticket says Started exactly if the start returned and no stop had been requested by then; a throw that counts as a failure gives StartupFailed or the fatal cause known before; anything else gives the cause of the stop |
| `RuntimeStartup.CaughtAsItWas` | src/runtime_manager.cpp:303-310 | an exception is judged by what holds when it is caught: whether a stop was requested, a session installed, and that session failed |
| `RuntimeStartup.ThrownNeverRuns` | src/runtime_manager.cpp:285-323 | an incarnation whose factory or start threw is never Running at any later time, its ticket never says Started, and no start is published for it |
| `RuntimeStartup.RacingStop` | src/runtime_manager.cpp:303-316 | a throw that races a normal stop stays a normal cancellation exactly if a session had been installed that reports no failure; otherwise it is a startup failure |
| `RuntimeStartup.StoppedSessionsAreTold` | src/runtime_manager.cpp:154-179 | in every run, a session held by a stopped incarnation is stopping or at its end |
| `RuntimeStartup.ReaperNamesCause` | src/runtime_manager.cpp:352-361 | the cause the reaper leaves is the session's own end: a lifecycle failure, or an unexpected stop if nobody had asked for one; a fatal cause known before is kept |
| `RuntimeRuns.StoppedOwesNothing` | src/runtime_manager.cpp:327-416 | on reaching Stopped both tickets of every incarnation are set, registry, startup queue and notifications are empty, delivered equals enqueued, admitted equals retired, all workers have exited |
| `RuntimeRuns.TraceShape` | src/runtime_manager.cpp:117-179 | what is published about an incarnation is a prefix of Reserved, Started, StopRequested, Retired, Started being left out unless the startup ticket says so; it only grows |
| `RuntimeLog.EnqueuedFollowsPublished` | src/runtime_manager.cpp:117-144 | the notifications enqueued for an incarnation are, in order, a subsequence of what was published about it, and all of it if there is an observer and nothing was dropped; those delivered are the front of what was enqueued |
| `RuntimeLog.EnqueuedIsNamed` | src/runtime_manager.cpp:128-131 | every enqueued notification carries the handle of an admitted incarnation |
| `RuntimeRuns.OutcomesEscalate` | src/runtime_manager.cpp:37-43 | outcomes go from none to normal to fatal only; retirement never reports none or Started, and repeats a fatal startup outcome |
| `RuntimeRuns.ClaimedIsQuiet` | src/runtime_manager.cpp:345-379 | from the reaper's claim on, so when the session is destroyed, there is no lease, none can be taken ever again, and the closed timeline has delivered everything |
| `RuntimeRuns.LeasesHoldSessions` | src/runtime_manager.cpp:246-265 | a lease is only held on a session that was started and that its entry still owns |
| `RuntimeRuns.NothingRunsAfterDraining` | src/runtime_manager.cpp:429-435 | once draining, nothing is in phase Running at any later time, nothing is pending and nothing is admitted |
| `RuntimeRuns.Accounting` | src/runtime_manager.cpp:194-232 | admitted is retired plus registered; the startup queue is exactly the un-stopped reservations; both stay within their limits |
| `RuntimeRuns.TakenMeansAttempted` | src/runtime_manager.cpp:279-283 | a worker never takes up a reservation that was stopped |
| `RuntimeRuns.HandlesFindTheirOwn` | src/runtime_manager.cpp:146-152 | a handle finds exactly its own incarnation until that is retired, then nothing |
| `RuntimeRuns.RetiredNeverMatches` | src/runtime_manager.cpp:146-152 | a retired handle never matches a later incarnation, whatever its id |
| `RuntimeRuns.FlushDeliversEverythingBefore` | src/runtime_manager.cpp:526-533 | a flush that succeeds means that everything enqueued before the call was delivered, in order |
| `RuntimeRuns.NotificationsAccounted` | src/runtime_manager.cpp:117-144 | every sequence number belongs to a notification delivered, in flight, queued or counted as dropped; the queue and its watermark stay within the limit |
| `RuntimeDrain.DrainNeverStuck` | src/runtime_manager.cpp:267-427 | a draining runtime whose leases are released and whose sessions are terminal and flushed has stopped, or a worker, the reaper or the dispatcher can take a step that advances it |
| `RuntimeDrain.AdvanceLowers` | src/runtime_manager.cpp:267-427 | every such step lowers a measure of workers, incarnations, scan and notifications |
| `RuntimeDrain.DrainEndsStopped` | src/runtime_manager.cpp:267-434 | so a drain left alone takes no more steps than that measure, and ends in Stopped |
| `RuntimeManagers.RuntimeManager.Create` | src/runtime_manager.cpp:82-90 | construction succeeds exactly when all limits and the supervisor interval are positive |
| `RuntimeManagers.RuntimeManager.Stop` | src/runtime_manager.cpp:154-179 | the stop region: first request or escalation, queue removal, session stop, one StopRequested notice |
| `RuntimeManagers.RuntimeManager.PublishNotice` | src/runtime_manager.cpp:117-144 | numbers, enqueues or counts a loss |
| `RuntimeManagers.RuntimeManager.AddSession` | src/runtime_manager.cpp:194-232 | the admission decision in the source's order, with its counters, and the handle of exactly the new incarnation |
| `RuntimeManagers.RuntimeManager.RemoveSession` | src/runtime_manager.cpp:234-244 | stops exactly the matching incarnation and tells stale, unknown, first and repeated requests apart |
| `RuntimeManagers.RuntimeManager.BeginOperation` | src/runtime_manager.cpp:246-258 | a lease is taken exactly on a matching, running, un-stopped incarnation of a running runtime |
| `RuntimeManagers.RuntimeManager.BeginShutdown` | src/runtime_manager.cpp:429-435 | the walk over the registry stops every registered incarnation, in any order |
| `RuntimeManagers.RuntimeManager.WorkerFinish` | src/runtime_manager.cpp:311-323 | the end of a startup: escalation, ticket, phase and notice |
| `RuntimeManagers.RuntimeManager.ReaperReport` | src/runtime_manager.cpp:352-361 | a failed or unexpectedly stopped session is stopped with that cause |
| `RuntimeManagers.RuntimeManager.ReaperErase` | src/runtime_manager.cpp:380-389 | the leaving region: counters, registry, the ticket of a cancelled reservation, notice and retirement ticket |
| `ExecutorModel.RunsKeepSchedulingInvariant` | src/executor.cpp:61-171 | in every interleaving: scheduled means in the ready deque exactly once, running excludes scheduled, queued work is scheduled or running, map lookups never fail, the pending total is the sum of the queues within both bounds |
| `ExecutorModel.SessionsNeverOverlap` | src/executor.cpp:127-144 | no two workers are ever inside the same session |
| `ExecutorModel.SettledAtMostOnce` | src/executor.cpp:89-158 | a turn's settlement never changes and there is never a second one |
| `ExecutorModel.JoinedMeansSettledOnce` | src/executor.cpp:104-125 | when all workers have exited after shutdown every accepted turn was settled exactly once |
| `ExecutorModel.RestMeansSettled` | src/executor.cpp:127-173 | when no worker can take a step, every accepted turn has exactly one settlement, and after shutdown every worker has exited |
| `ExecutorModel.ShutdownLeavesNothing` | src/executor.cpp:104-125 | so when the workers of a stopped executor rest they can be joined, with every turn settled and nothing pending |
| `ExecutorModel.StartsFollowAcceptance` | src/executor.cpp:135-143 | within a session turns start in the order in which they were accepted, none twice |
| `ExecutorModel.CancelReachesTurns` | src/executor.cpp:89-102 | a cancellation raises the flag of every turn of its session that is not over, running or queued, settles only flagged turns of that session, and leaves other sessions' turns as they were |
| `ExecutorModel.ShutdownReachesTurns` | src/executor.cpp:104-120 | shutting down raises the flag of every turn that is not over and settles only flagged turns |
| `ExecutorModel.StoppingTellsAll` | src/executor.cpp:51-120 | in every run, once the executor is stopping every turn that is not over has its flag raised |
| `ExecutorModel.FlagsNeverFall` | src/executor.cpp:51-171 | a raised flag stays raised for the rest of the run |
| `ExecutorModel.WorkerStepsShrinkRemaining` | src/executor.cpp:127-173 | each worker step lowers the weighted number of queued, running and ready items |
| `ExecutorModel.RegionsShrinkMeasure` | src/executor.cpp:131-171 | both mutex regions of the worker loop lower three times the queued turns plus two times the running ones plus the ready sessions |
| `ExecutorModel.WorkersComeToRest` | src/executor.cpp:127-173 | without new calls, workers take no more steps than that number |
| `SessionExecutors.SessionExecutor.SubmitTurn` | src/executor.cpp:51-87 | acceptance or rejection with its reason, the turn number consumed, the lane scheduled when idle |
| `SessionExecutors.SessionExecutor.CancelSession` | src/executor.cpp:89-102 | flags the running turn, settles and drops the queued ones, keeps the pending total exact |
| `SessionExecutors.SessionExecutor.BeginShutdown` | src/executor.cpp:104-120 | drains lane after lane, which amounts to draining all at once |
| `SessionExecutors.SessionExecutor.WorkerTake` | src/executor.cpp:131-144 | takes the front session and its front turn, or skips a lane that was cancelled meanwhile |
| `SessionExecutors.SessionExecutor.WorkerReport` | src/executor.cpp:160-171 | hands the lane back, re-queues it or reclaims it |
| `SessionModel.StepsRefineContract` | src/conversation_session.cpp:95-237 | every step of a session is one that the runtime manager's model of a session allows |
| `SessionModel.StopIsTheOwnersRequest` | src/conversation_session.cpp:132-138 | a stop request changes what the owner sees as the contract says, and a new session is as the contract assumes |
| `SessionModel.LifecycleMovesForward` | src/conversation_session.cpp:182-237 | lifecycle never moves back, terminal states are final and take no event, the engine's calls are only appended |
| `SessionModel.EngineCalledAtMostOnce` | src/conversation_session.cpp:186-237 | at most one engine start, at most one stop and only after an attempt; a terminal session has stopped the engine exactly if it attempted a start |
| `SessionModel.FailedIffEngineThrew` | src/conversation_session.cpp:192-236 | a session that has come to its end is Failed exactly if a call to the engine threw (capabilities, start or stop), otherwise Stopped, and its failure says the same |
| `SessionModel.ReturnedStartRuns` | src/conversation_session.cpp:202-207 | a start that returned makes the session Running exactly if no stop had been requested by then |
| `SessionModel.WaitingMeansRunning` | src/conversation_session.cpp:202-214 | a session that waits to be stopped is Running exactly if its start was attempted, no engine call threw and no stop is requested |
| `SessionModel.StopIsQuiescent` | src/conversation_session.cpp:216-227 | at the engine's stop no operation is active, and none is admitted later |
| `SessionModel.TerminalRejectsEvents` | src/conversation_session.cpp:228-236 | the timeline of a terminal session rejects every later event |
| `ConversationSessions.ConversationSession.RequestStart` | src/conversation_session.cpp:74-86 | already running, refused inside a callback, cannot restart, or starting, once |
| `ConversationSessions.ConversationSession.AcquireOperation` | src/conversation_session.cpp:95-100 | admitted exactly while running |
| `ConversationSessions.ConversationSession.AdvanceStart` | src/conversation_session.cpp:182-214 | the lane up to its wait for a stop, with every exception path |
| `ConversationSessions.ConversationSession.AdvanceStop` | src/conversation_session.cpp:216-236 | the lane from the drain of operations to the terminal state |
| `TimelineModel.FitsIsTotalBound` | src/event_timeline.cpp:14-22 | the field-by-field check is exactly a bound on the total size |
| `TimelineModel.RunsKeepJournalAndLane` | src/event_timeline.cpp:52-112 | in every run the journal is exactly the last min(accepted, max) accepted events without gaps, and accepted = evicted + retained = enqueued + dropped, enqueued = completed + in flight + pending |
| `TimelineModel.FlushDeliversEverythingBefore` | src/event_timeline.cpp:164-171 | a true flush means that everything enqueued before it was delivered |
| `TimelineModel.ExitMeansDelivered` | src/event_timeline.cpp:190-217 | the dispatcher's exit means closed and everything delivered, for good |
| `TimelineModel.DeliveryFollowsAcceptance` | src/event_timeline.cpp:190-217 | delivery is a strictly increasing subsequence of acceptance |
| `EventTimelines.FitsLimit` | src/event_timeline.cpp:14-22 | the loop over the five fields computes the check without going below zero |
| `EventTimelines.EventTimeline.Append` | src/event_timeline.cpp:52-112 | rejection reasons in order, normalisation, numbering, eviction and the lossy lane |
| `EventTimelines.EventTimeline.TakeNext` | src/event_timeline.cpp:194-200 | takes the oldest pending event, or ends when closed and empty |
| `EventTimelines.EventTimeline.Snapshot` | src/event_timeline.cpp:127-145 | what is retained, with the sequences of its first and last event |
| `EventBusModel.RunsCountCalls` | src/event.cpp:68-98 | `active_calls` always equals the number of frames inside that handler over all threads, nested ones included |
| `EventBusModel.ReturnMeansQuiet` | src/event.cpp:43-50 | when the removing call may return no other thread is inside the handler, and the active calls are the caller's own |
| `EventBusModel.UnsubscribeQuiesces` | src/event.cpp:34-51 | from then on no other thread is ever inside it again and the remover's own calls only unwind |
| `EventBusModel.DeliveryIsComplete` | src/event.cpp:68-98 | between begin and end a delivery gives each entry of its snapshot one turn, in order, and enters the handlers of exactly those that are enabled at their turn, in that order, however deliveries nest and interleave |
| `EventBusModel.SubscribersAreCalledOnce` | src/event.cpp:68-98 | a subscription in the table at the begin that stays enabled until the end is called exactly once by that delivery |
| `EventBusModel.RemovalQuiescesIff` | src/event.cpp:34-51 | in every run, a removal that returns leaves its entry quiet from then on if and only if it found the subscription in the table, or the entry was already disabled with no other thread inside |
| `EventBusModel.SecondRemovalDoesNotQuiesce` | src/event.cpp:36-51 | a run in which a second removal returns at once with nobody inside the handler, and a delivery enters it afterwards |
| `EventBuses.CallsOnThread` | src/event.cpp:16-21 | the walk over the frames counts exactly the calls of that entry |
| `EventBuses.EventBus.EnterHandler` | src/event.cpp:76-83 | a call is counted before the handler runs, a disabled entry is skipped |
| `EventBuses.EventBus.LeaveHandler` | src/event.cpp:90-95 | the call is taken off the count whatever the handler did |
| `EventBuses.EventBus.EraseSubscription` | src/event.cpp:36-42 | exactly one caller removes a subscription |
| `EventBuses.EventBus.DisableEntry` | src/event.cpp:43-47 | disables the entry and notes the caller's own calls |
| `EventBuses.EventBus.ReturnFromRemoval` | src/event.cpp:48-51 | the removal returns with every other thread out of the handler |
| `Json.LogEscapeReadsBack` | src/observability.cpp:24-44 | for every byte string the quoted log escape parses back to it, whatever follows |
| `Json.EscapeAgrees` | src/openai_compatible.cpp:215-230 | the request printer refuses exactly strings with a control byte other than newline, return and tab, and otherwise agrees with the log printer |
| `JsonMessages.ParsePrint` | src/openai_compatible.cpp:49-213 | any printed document of strings, arrays and objects parses back to itself and is consumed entirely |
| `JsonMessages.MessageText` | src/openai_compatible.cpp:242-261 | the concatenation of `message_json` is the printed form of the message's document |
| `JsonMessages.MessageRoundTrip` | src/openai_compatible.cpp:242-261 | a message is printed exactly when its printed strings are printable; then the text parses entirely and yields role, content, tool call id and tool calls |
| `JsonMessages.ResponseRoundTrip` | src/openai_compatible.cpp:353-374 | a response carrying a message document is read as that message |
| `JsonParsers.ParseText` | src/openai_compatible.cpp:46-213 | the recursive parser over a position terminates on every input and computes the grammar, errors included |
| `JsonParsers.JsonParser.ReadString` | src/openai_compatible.cpp:103-144 | the string loop with escapes and surrogate pairs |
| `JsonParsers.JsonParser.ReadObject` | src/openai_compatible.cpp:70-87 | the first of several equal keys wins, separators are required |
| `JsonEscapes.UnicodeEscapeReads` | src/openai_compatible.cpp:124-187 | every `\u` escape, or pair of surrogate escapes, in digits of either case, is read as the one well-formed UTF-8 sequence that decodes to its scalar value |
| `JsonEscapes.LoneHalvesFail` | src/openai_compatible.cpp:124-139 | surrogate halves that form no pair are refused |
| `JsonEscapes.ShortEscapes` | src/openai_compatible.cpp:113-141 | the eight short escapes stand for their characters, and any other is refused |
| `JsonEscapes.LiteralsRead` | src/openai_compatible.cpp:55-68 | `true`, `false` and `null` are read as what they say, whatever follows |
| `Sse.SplitIsUnique` | src/openai_compatible.cpp:268-279 | cutting at newlines is the only way to split a text into lines without newlines and a tail |
| `Sse.FeedAllIsOneFeed` | src/openai_compatible.cpp:268-279 | feeding pieces leaves the parser as feeding their concatenation at once |
| `Sse.FragmentationInvariance` | src/openai_compatible.cpp:263-312 | for every partition of the bytes the events are those of the one-shot batch parser |
| `Sse.EventsNotEmpty` | src/openai_compatible.cpp:302-307 | an empty event is never dispatched |
| `Sse.BatchMeansBlocks` | src/openai_compatible.cpp:268-307 | the events of a body are those of its blocks: its lines, without trailing CR, are cut at the empty ones, and the values of a block's data lines, less one blank, are joined by newlines |
| `Sse.SseParser.FeedChunk` | src/openai_compatible.cpp:268-279 | the line loop over the growing buffer does what one feed does |
| `Sse.ParseStream` | src/openai_compatible.cpp:263-312 | a parser fed piece by piece and finished yields the batch parser's events |
| `LlmStream.ReassembledPerIndex` | src/openai_compatible.cpp:420-434 | call `i` is the concatenation of the fragments with index `i`, and the list is just long enough |
| `LlmStream.StreamIgnoresFragmentation` | src/openai_compatible.cpp:397-442 | text, deltas, tool calls, completion and failures do not depend on how the response was fragmented |
| `LlmStream.StreamIsSinkOverBatch` | src/openai_compatible.cpp:397-442 | with a success status the result is the sink folded over the batch parser's events |
| `LlmStream.DoneFencesTheRest` | src/openai_compatible.cpp:399-405 | nothing after the terminal marker has any effect |
| `LlmStream.MarkerEndsTheTurn` | src/openai_compatible.cpp:399-441 | whatever follows the marker, text, calls or malformed data, the result is the same as if the stream had ended with it |
| `LlmStream.StreamedCalls` | src/openai_compatible.cpp:397-442 | for every partition of the body: the deltas are the non-empty content texts before the marker and the text is these put together, tool calls are the per-index concatenation of the fragments before the marker, and the turn is complete exactly if a marker arrived |
| `LlmStream.EventIsRead` | src/openai_compatible.cpp:399-434 | one event in terms of its JSON fields: `content` of the first choice's delta is appended to the text and handed on if not empty, and each entry of `tool_calls` appends its `id`, its function's `name` and its function's `arguments` to the call with its `index`; missing fields and other types append nothing, a missing index is 0 |
| `LlmStream.EventWithoutDelta` | src/openai_compatible.cpp:406-411 | an event without a first choice or without a delta leaves the turn as it was |
| `LlmStream.WholeCallIsRead` | src/openai_compatible.cpp:420-434 | a new call that comes in one event is read with exactly its id, name and arguments |
| `LlmStream.TurnBuilder.OnEvent` | src/openai_compatible.cpp:399-435 | one event: marker, delta text with a refusing consumer, and tool-call fragments |
| `SegmenterModel.ScanChoice` | src/sentence_segmenter.cpp:64-94 | the scan picks the first strong end, otherwise the last soft one, otherwise nothing |
| `SegmenterModel.PushesConserveContent` | src/sentence_segmenter.cpp:44-48 | for all pushes, sentences followed by the retained buffer are the input up to whitespace |
| `SegmenterModel.FlushOutcome` | src/sentence_segmenter.cpp:58-123 | a flush fails exactly on an incomplete last code point and otherwise empties the buffer; in both cases nothing is lost |
| `SegmenterModel.RetainedIsShort` | src/sentence_segmenter.cpp:95-115 | after a push the complete part of the buffer has fewer than the hard maximum of characters |
| `SegmenterModel.SentenceLengthBound` | src/sentence_segmenter.cpp:58-123 | a sentence emitted by a later push has at most the hard maximum plus the length of that delta |
| `SegmenterModel.FlushedSentencesAreShort` | src/sentence_segmenter.cpp:58-123 | a flush after any pushes emits only sentences shorter than the hard maximum |
| `SegmenterModel.CutTooLongIff` | src/sentence_segmenter.cpp:64-115 | a cut is longer than the hard maximum if and only if the punctuation chosen, the first outright end or else the last possible one, lies beyond it; hard splits and the last cut of a flush never are |
| `SegmenterModel.TooLongIff` | src/sentence_segmenter.cpp:58-123 | a push or flush emits a sentence longer than the hard maximum if and only if some text it cuts has its chosen punctuation that far behind |
| `SegmenterModel.HardMaxIsNoBound` | src/sentence_segmenter.cpp:64-94 | an example: with all limits at 1 the delta `ab!` is emitted as one sentence of 3 characters |
| `SegmenterModel.Utf8Safety` | src/sentence_segmenter.cpp:20-123 | if the deltas are a prefix of well-formed UTF-8, every sentence is well-formed and the buffer starts at a code point |
| `SentenceSegmenters.CompleteUtf8Prefix` | src/sentence_segmenter.cpp:20-30 | the backward loop finds the last lead byte and the complete prefix |
| `SentenceSegmenters.TrimText` | src/sentence_segmenter.cpp:9-17 | both loops together strip exactly the outer whitespace |
| `SentenceSegmenters.SentenceSegmenter.ExtractSentences` | src/sentence_segmenter.cpp:58-123 | the outer loop ends on every input because each boundary is positive, and computes the extraction |
| `FullDuplexModel.RunsKeepAccounts` | src/full_duplex_conversation.cpp:183-258 | every interleaving keeps the accounts of all response incarnations; the current one is active exactly while neither cancelled nor generated and heard to its end |
| `FullDuplexModel.PlayedWithinDelivered` | src/full_duplex_conversation.cpp:99-118 | played never exceeds delivered; active means unfinished generation or unheard audio |
| `FullDuplexModel.ChunksAreContiguous` | src/full_duplex_conversation.cpp:196-206 | each chunk starts at the total size of the earlier chunks of its incarnation |
| `FullDuplexModel.NoChunkAfterTheEnd` | src/full_duplex_conversation.cpp:196-233 | no chunk is emitted after completion or cancellation |
| `FullDuplexModel.CancelledOnce` | src/full_duplex_conversation.cpp:243-258 | an incarnation is cancelled at most once, with the last accepted offset, and nothing happens to it afterwards |
| `FullDuplexModel.InputForwardedInOrder` | src/full_duplex_conversation.cpp:37-56 | accepted input frames reach the provider in order; only closing loses queued ones |
| `FullDuplexConversations.FullDuplexConversation.AcknowledgePlayback` | src/full_duplex_conversation.cpp:99-114 | clamps to what was delivered, moves only forward, ends a response heard to its end |
| `FullDuplexConversations.FullDuplexConversation.AudioDelta` | src/full_duplex_conversation.cpp:196-206 | a chunk exactly for the current unfinished response |
| `FullDuplexConversations.FullDuplexConversation.BeginBargeIn` | src/full_duplex_conversation.cpp:243-252 | cancels an active response at the played offset |
| `Metrics.ArrangeAscends` | src/observability.cpp:63-70 | a histogram's bounds are exactly the given ones, ascending and without repetition |
| `Metrics.CreatedWithBounds` | src/observability.cpp:58-76 | a histogram created with bounds always exports, for every bound, the number of values at or below it |
| `Metrics.ExportRightIff` | src/observability.cpp:58-76 | in general that holds exactly when no value above the lowest bound came before the bounds |
| `Metrics.LateBoundsMiscount` | src/observability.cpp:63-70 | two readings, the bounds coming with the second, are exported right only if the first lies below the bound |
| `Metrics.ExportEndsAtCount` | src/observability.cpp:98-109 | the last exported bucket is the count, which is the number of finite values |
| `Metrics.OrderOfReadingsIrrelevant` | src/observability.cpp:58-76 | equal bounds and the same values in any order give the same buckets and count |
| `Metrics.ExportBuckets` | src/observability.cpp:98-106 | the running total of the export is the cumulative count of each bucket |
| `MetricsRegistries.Update` | src/observability.cpp:62-75 | adoption of bounds, count, sum and the one bucket counted up |
| `ObserverModel.SpansWithinLimit` | src/observability.cpp:142-156 | pending spans never exceed the limit |
| `ObserverSpans.MatchedPairIsMeasured` | src/observability.cpp:142-299 | for each of the thirteen measured intervals: its start and its end event with one key, with any events between that do not concern the key, add exactly one sample of the named metric, the difference of their times, and none if these are unset or out of order |
| `ObserverSpans.EndClosesSpan` | src/observability.cpp:157-173 | the end event closes the span and adds that one sample, and no other value of the metric |
| `ObserverSpans.UnlinkedEndCloses` | src/observability.cpp:157-299 | on the native path an end that names a turn without a span of its own measures the span that carries no turn |
| `ObserverModel.Commute` | src/observability.cpp:134-299 | with nothing rejected, events of different session incarnations commute |
| `ObserverModel.InterleavingInvisible` | src/observability.cpp:134-299 | streams that differ only in how they interleave the incarnations leave the same spans, counters and samples as long as the limit rejects nothing |
| `RuntimeObservers.RuntimeObserver.FinishSpan` | src/observability.cpp:157-173 | unmatched, invalid or a sample |
| `RuntimeObservers.RuntimeObserver.EraseMatching` | src/observability.cpp:174-188 | the walk over the spans erases and counts exactly the matching ones |
| `RuntimeObservers.RuntimeObserver.ObserveEvent` | src/observability.cpp:189-299 | one event: counted, then its spans opened, closed or dropped, within the limit |
| `VoiceChatModel.PhasesAndFlags` | apps/voice_chat_adapter.cpp:105-146 | flush is requested exactly while stopping or retired, only then can the player have stopped, and retired needs the retirement ticket |
| `VoiceChatModel.PhaseMovesForward` | apps/voice_chat_adapter.cpp:112-146 | within an incarnation the phase only moves forward |
| `VoiceChatModel.DisconnectionIsPermanent` | apps/voice_chat_adapter.cpp:269-292 | a disconnected client never gets another session and the one it has is stopping or retired |
| `VoiceChatModel.ClosedRouteStaysEmpty` | apps/voice_chat_adapter.cpp:60-80 | a closed route is empty and never changes again |
| `VoiceChatModel.ReplacementWaits` | apps/voice_chat_adapter.cpp:165-211 | a replacement starts only after the old ticket retired and the player acknowledged, with the old route closed |
| `VoiceChatModel.OutputIsOfCurrentHandle` | apps/voice_chat_adapter.cpp:244-258 | output goes only to the connected client for the current handle, and all of it carries that handle |
| `VoiceChatModel.RunningMeansStartedIff` | apps/voice_chat_adapter.cpp:120-146 | for a starting connection, every refresh that enters Running has seen the session started if and only if, before the refresh, the startup ticket is set, or the route has overflowed, or the retirement ticket is set |
| `VoiceChatModel.RunningDespiteFailure` | apps/voice_chat_adapter.cpp:137-145 | a run from the beginning, a start and a status request, that ends in Running with a startup ticket that says failed |
| `VoiceChatModel.RunningIsCorrected` | apps/voice_chat_adapter.cpp:137-146 | the next refresh leaves Running |
| `VoiceChats.VoiceChatConnection.AppendOutput` | apps/voice_chat_adapter.cpp:60-80 | takes what fits, closes the route for good on the first thing that does not |
| `VoiceChats.VoiceChatConnection.RefreshFrom` | apps/voice_chat_adapter.cpp:120-146 | follows overflow, tickets and registry in the source's order |
| `VoiceChats.VoiceChatConnection.StartSession` | apps/voice_chat_adapter.cpp:165-211 | refuses, returns the running admission, waits for the player, or starts a new incarnation |
| `VoiceChats.VoiceChatConnection.TakeAll` | apps/voice_chat_adapter.cpp:244-258 | drains the current queue in order, or returns nothing |
| `AgentModel.FailureRestoresHistory` | src/agent.cpp:130-134 | a turn that throws, however, leaves the history exactly as before; one that returns only extends it |
| `AgentModel.HistoryStaysPaired` | src/agent.cpp:106-123 | every assistant message with calls is followed at once by one tool message per call, in order, with matching ids; every model call sees such a history |
| `AgentModel.ModelCallsBounded` | src/agent.cpp:80-82 | at most `max_steps` model calls, each announced once |
| `AgentModel.TerminalEventIff` | src/agent.cpp:76-134 | exactly one terminal event is emitted if and only if the last question whether the turn is cancelled is answered; if it throws there is none |
| `AgentModel.OneTerminalEvent` | src/agent.cpp:76-133 | TurnStarted comes first and once, and a terminal event is the last one |
| `AgentModel.ThrowingCallbackEndsNothing` | src/agent.cpp:130-134 | a callback that always throws leaves TurnStarted as the only event, and the history as it was |
| `AgentModel.PairedConcat` | src/agent.cpp:106-123 | paired histories may be put together |
| `Agents.Agent.RunStreaming` | src/agent.cpp:62-135 | the nested loops with every exception path compute the turn, for every model, tool and cancellation behaviour, exceptions of the callback included |
| `Agents.Agent.InvokeTool` | src/agent.cpp:25-41 | unknown tools and failing handlers become results, cancellation and odd exceptions propagate |

## Left out

- Liveness beyond `ExecutorModel.WorkersComeToRest` and termination of loops: condition variables, wakeups and the `revision` counter of the reaper are not modelled; a transition may happen whenever its guard holds.
- Clocks, deadlines and `wait_for` timeouts: nondeterministic steps or integers passed in.
- Allocation failure: only where the source turns it into a dropped notification or a closed route.
- Thread creation failure (`abort_construction`), exhaustion of 64-bit counters and of identities: counters are unbounded.
- Stack depth: the JSON parser recurses on nested values without a bound of its own.
- JSON numbers: `std::stod` is a parameter, the value a real; temperature text and histogram sums as floating point are not modelled, sums are exact reals.
- `make_request` outside `message_json`: it embeds caller-supplied schema text unchecked.
- HTTP transport, web sockets, retry, mock suppliers and demos: src/curl_transport.cpp, src/websocket_mock_providers.cpp, apps/mock_suppliers.py.
- src/incremental_tts.cpp: a plain bounded queue around a provider.
- src/conversation.cpp, src/pipeline_conversation_engine.cpp, src/session.cpp, src/turn_context.cpp: callback wiring over the modelled parts.
- Layout of the Prometheus and JSON exports, `event_type_name`: formatting tables. The observer's counters and metrics are constructors of a datatype instead of names, so the registry class is not called by the observer class.
- The order of a hash map's iteration: any order.
- `EventBus.publish`: normalisation of events outside a timeline; a delivery's snapshot is modelled, its event is not.
- RuntimeManagers.RuntimeManager: the entries are records in a sequence that the methods replace, not objects of their own; an entry's `dependencies` are not modelled.
- SessionModel: what the engine does between start and stop, and which engine call an operation makes.
- RuntimeObservers.RuntimeObserver.ObserveEvent: walks the list of steps that `ObserverModel.Script` gives for the event's kind, where the source has a switch with calls.
- AgentModel: the consumer's answer to a text delta, or its exception, only reaches the provider, whose behaviour is arbitrary, so it is not recorded.
- VoiceChatModel: the effect of `remove` and `fail` on the runtime, and audio input; the runtime appears as tickets that are set once and as what a lookup returns.
- FullDuplexModel: transcripts and published events; a chunk is recorded when it is decided, under the lock, not when the sink receives it.
- The argument checks of the constructors of `FullDuplexConversation`, `VoiceChatConnection` and `RuntimeObserver`: nothing depends on them.
