# Koraku agent runtime: a verified model

Koraku runs an AI agent as a loop of model calls and tool calls, keeps the run going when the
browser goes away, and meters what it costs. This project models the parts of that runtime whose
correctness is a matter of state and order, and proves what they promise over every input and every
run. `dafny verify dfyconfig.toml` checks all of it.

The model follows the program file by file:

- **Detached runs.** `RunBuffer` is the in-process chunk buffer as a step system: a step is the code
  between two points at which another coroutine may run, and a run is any order of steps with one
  producer and any number of subscribers. `RunBufferTheorems` holds its promises, `RunBufferEndings`
  says who can still read to the end and when `finish` can return, `RunBufferExamples` gives runs in
  which they cannot, and `MemoryRunBuffer` is the class whose methods are runs of those steps.
  `RedisRunBuffer` is the Redis variant, whose guarantees are weaker, with exactly what it does and
  does not promise, and `RedisEndings` says when its readers leave, that they always can, and that
  what they are handed they yield.
- **Conversation history.** `Messages` defines histories and tool-call pairing. `ContextPasses`
  gives every pass of the context manager as a function and proves what it keeps, `ContextManager`
  is the class whose loops compute those functions, `CompactionPasses` says when one compaction pass
  is enough, `ContextBounds` when processing raises and what of a history is left, `ContextReach`
  which pinned rounds are, and `ContextContents` what is left inside messages. `ModelProfiles`
  derives the limits from the model's context size, `OpenAiWire` flattens a history into chat
  messages, and `OpenAiContents` proves that they say what the history says.
- **The agent loop.** `ReactRuns` defines a run as a function of its surroundings (clock,
  cancellation, the model's stream, what tools do), round by round, and says what the model gets to
  see; `ReactLoop` is the loop over a session, proved to be such a run. `ToolExecutor`,
  `AgentBudget` and `ContextPins` are the parts it uses. `AgentStream` joins the loop to the mapper
  through the bounded queue between them.
- **Streams and meters.** `KorakuSse` maps agent events to server-sent frames, `UsageMeters` holds
  the accumulator and the tracker, `KorakuSseTheorems` compares the two meters and says what the
  suppression of tool blocks leaves, `KorakuSseWorkers` what it leaves when several workers share the
  stream, `KorakuSseNames` matches result frames to announced calls, `KorakuSseFrames` says what all
  other frames tell, and `UsageTotals` what both meters hold in the end.
- **Small stateful components.** `RateLimit` (sliding window), `TtlCache` and `TtlCacheTheorems`
  (ordered map with expiry and eviction), `Sanitize` (the streaming filter for tool markup),
  `OpenAiDelta` (merging streamed tool calls), `ChunkText` (cutting a reply into messages). `PyText`,
  `Lines` and `Collections` are the few operations on texts and sequences they need.

Three kinds of input stand for what the code cannot determine: the clock is a number passed in,
oracles (functions passed in) stand for JSON decoding, regular expressions, digests and the text of
prompts and summaries, and the environment of the agent loop is an arbitrary sequence of rounds.

Results that correct or sharpen what the code and its comments suggest:

- A subscriber that falls behind is cut off with an unbroken prefix, but the sentinel that should end
  its stream never arrives. A subscriber that was never slow can wait for ever too: `finish` puts the
  sentinels one after the other and never gets past a full queue whose owner has left. In every state
  of every run, exactly the others can still read to the end (`EndsUnlessHopeless`), and hope is lost
  in those two ways only (`HowHopeIsLost`).
- The check that `RedisRunBuffer.subscribe` makes between replay and live loop returns without a
  tail; the last chunk is missed exactly when it was committed after the replay was read.
- Reading the cursor from a chunk undoes the wrapping exactly for chunks without an id of their own.
- One compaction pass is not a fixpoint; `OnePassSuffices` gives the exact condition.
- The context manager raises `IndexError` for some settings that the configuration accepts;
  `ProcessedRaises` says exactly when, in terms of the history and the settings.
- Pins protect a round from compaction only; `PinnedRoundReaches` says exactly which pinned rounds
  are not summarised or cut away, `PinnedRoundIsSummarised` gives one that is.
- A negative cap bounds no result; any other cap does.
- The queue between loop and mapper drops what it has no room for: the one completion frame of a run
  is sent if and only if its terminal event found room (`FullQueueLosesTheEnd` is a run in which it
  did not).
- Parent and nested workers share the suppressed block indexes, so that one worker's tool block can
  swallow another's text; `EachServedIff` gives the exact condition.
- A chat built from a well-paired history is accepted by providers if and only if no call lacks an id.
- A synthesised last reply may leave tool calls nobody answers; the session is then not well paired
  (`SynthesisMayLeaveCalls`).
- `_tool_started_events` is documented as sending one frame per tool call id. It sends one on every
  announcement; what happens once per id is the count, and that is what is proved.
- The `Retry-After` hint of the limiter is too short unless less than a second is left.
- A count in Redis above the limit rejects nobody by itself: the rejection is caught like a failure
  and memory decides. Twice the limit get through (`BurstPassesTwice`), and not more.
- The second round of head checks in the streaming filter is dead code, and so is its second look
  for a tool object.

## Model

| member | source | states |
|---|---|---|
| RunBuffer.StepKeepsInv | koraku/core/detached_run_store.py:105-178 | every atomic step of producer or subscriber keeps the buffer a suffix of the log and every subscriber's chunks an unbroken range |
| RunBuffer.RunKeepsInv | koraku/core/detached_run_store.py:105-178 | the same over every sequence of steps from any state that satisfies it |
| RunBuffer.PushReceived | koraku/core/detached_run_store.py:118-132 | a push to one queue extends what its owner holds by exactly the pushed chunk, or leaves it a prefix when the queue is full |
| RunBuffer.DropSlowKeeps | koraku/core/detached_run_store.py:118-132 | removing the slow subscribers leaves the others subscribed and up to date |
| RunBuffer.PutSentinelKeeps | koraku/core/detached_run_store.py:134-143 | a sentinel comes only after the run is done and behind every chunk |
| RunBuffer.ReplayIsRange | koraku/core/detached_run_store.py:156-165 | the replay is the run of retained chunks from the requested or oldest retained id to the newest |
| RunBuffer.SubscribeKeeps | koraku/core/detached_run_store.py:156-165 | registering and taking the snapshot in one step leaves no gap between replay and live chunks |
| RunBuffer.YieldReplayKeeps | koraku/core/detached_run_store.py:166-170 | yielding the replay neither loses nor repeats a chunk while live ones queue up |
| RunBuffer.GetKeeps | koraku/core/detached_run_store.py:170-178 | taking from the queue moves chunks to the output in order and ends on the sentinel |
| RunBufferTheorems.DeliveryIsContiguous | koraku/core/detached_run_store.py:105-178 | in every run the buffer is exactly the last min(n, 12000) chunks and every subscriber, cut off or not, has yielded an unbroken range from its start |
| RunBufferTheorems.SubscriptionStart | koraku/core/detached_run_store.py:156-178 | a subscription from `after` starts at max(after + 1, oldest retained) whatever happens later |
| RunBufferTheorems.RunExtends | koraku/core/detached_run_store.py:105-143 | nothing yielded is taken back, and after `finish` nothing is appended |
| RunBufferTheorems.CompleteMeansEverything | koraku/core/detached_run_store.py:134-178 | a subscriber that read to the sentinel has every chunk from its start to the last |
| RunBufferTheorems.ResumeIsSeamless | koraku/core/detached_run_store.py:156-178 | stopping after chunk k and subscribing again after k joins without gap or overlap if k + 1 is still retained, and otherwise not, once anything was yielded and chunks bring no ids of their own |
| RunBufferTheorems.StrandedForever | koraku/core/detached_run_store.py:118-143 | once dropped as slow a subscriber never ends by itself, in any continuation |
| RunBufferTheorems.OnlySlownessStrands | koraku/core/detached_run_store.py:118-132 | only being dropped as slow takes a subscriber off every list of the producer |
| RunBufferTheorems.OnlyFullQueuesAreSlow | koraku/core/detached_run_store.py:118-132 | a subscriber is found slow only by a push that meets its full queue |
| RunBufferEndings.EndsUnlessHopeless | koraku/core/detached_run_store.py:105-178 | in every state of every run a subscriber can still read to the end if and only if it is neither dropped as slow nor behind a stuck queue, and then it gets every chunk from its start |
| RunBufferEndings.FinishedCompletes | koraku/core/detached_run_store.py:134-178 | once `finish` has begun, waiting or returned, the same with every chunk of the run |
| RunBufferEndings.HopelessForever | koraku/core/detached_run_store.py:118-178 | in no continuation does a hopeless subscriber end by itself |
| RunBufferEndings.HowHopeIsLost | koraku/core/detached_run_store.py:118-178 | hope is lost only by a push on a full queue, or by someone ahead in line leaving with a full queue |
| RunBufferEndings.ProducerIsStuck | koraku/core/detached_run_store.py:138-143 | with a full queue whose owner has left next in line, the producer does not move in any continuation |
| RunBufferEndings.FinishCanReturn | koraku/core/detached_run_store.py:138-143 | `finish` can still return if and only if no queue in line is full with its owner gone |
| RunBufferEndings.DrainCompletes | koraku/core/detached_run_store.py:156-178 | a subscriber that holds the end reaches it by reading alone, whatever the producer does |
| RunBufferExamples.ReadingNothingStrands | koraku/core/detached_run_store.py:118-132 | for every queue size, a run that strands a subscriber which reads nothing |
| RunBufferExamples.LeavingWithAFullQueueBlocks | koraku/core/detached_run_store.py:134-143 | for every queue size, a run that leaves a subscriber which was never slow waiting for ever |
| MemoryRunBuffers.MemoryRunBuffer.AppendChunk | koraku/core/detached_run_store.py:105-132 | one call of `append` is the run of its steps, and keeps the invariant |
| MemoryRunBuffers.MemoryRunBuffer.MarkFinished | koraku/core/detached_run_store.py:134-143 | the locked part of `finish` is the Finish step |
| MemoryRunBuffers.MemoryRunBuffer.PutNextSentinel | koraku/core/detached_run_store.py:134-143 | one sentinel put is one step, waiting while the queue is full |
| MemoryRunBuffers.MemoryRunBuffer.Snapshot | koraku/core/detached_run_store.py:156-165 | the replay loop collects the retained texts after `after` |
| MemoryRunBuffers.MemoryRunBuffer.Register | koraku/core/detached_run_store.py:156-165 | the locked part of `subscribe` is the Subscribe step |
| MemoryRunBuffers.MemoryRunBuffer.Advance | koraku/core/detached_run_store.py:166-178 | one resumption of the generator is one step and returns exactly the chunk it adds to the output |
| MemoryRunBuffers.MemoryRunBuffer.Abandon | koraku/core/detached_run_store.py:173-178 | a subscriber that stops reading leaves the list, as the Close step says |
| MemoryRunBuffers.MemoryRunBuffer.StatusSnapshot | koraku/core/detached_run_store.py:145-154 | the snapshot reports the newest id, the retained count and the done flag of the state |
| RedisRunBuffer.CursorInvertsWrapping | koraku/core/detached_run_store.py:54-57 | `_cursor_from_chunk` undoes `_wrap_sse_chunk` for every number and cursor if and only if the chunk brings no id of its own |
| RedisRunBuffer.CursorOfWrapped | koraku/core/detached_run_store.py:316-324 | reading a wrapped chunk moves the cursor to the maximum of cursor and number |
| RedisRunBuffer.ReplayAfter | koraku/core/detached_run_store.py:296-310 | the loop returns the entries after a cursor and the highest id among them |
| RedisRunBuffer.RunKeeps | koraku/core/detached_run_store.py:238-375 | in every run of producer and subscriber the list is the tail of the log, all messages are genuine, and the cursor is accounted for |
| RedisRunBuffer.CursorIsHighestYielded | koraku/core/detached_run_store.py:326-375 | at every head of the live loop the cursor is the maximum of `after` and the ids yielded, and every yielded text is a committed chunk |
| RedisRunBuffer.CursorNeverDecreases | koraku/core/detached_run_store.py:326-375 | between any two loop heads the cursor does not decrease |
| RedisRunBuffer.LeavingDeliversTheLast | koraku/core/detached_run_store.py:326-375 | leaving the live loop because the run is done implies the last chunk was delivered or was not asked for |
| RedisRunBuffer.EarlyReturnMissesLateChunks | koraku/core/detached_run_store.py:326-332 | after the early return the last chunk was delivered, or never asked for, if and only if it was committed before the replay was read |
| RedisRunBuffer.EarlyReturnExample | koraku/core/detached_run_store.py:326-332 | a concrete run in which the early return loses the only chunk |
| RedisEndings.RunTellsTheTruth | koraku/core/detached_run_store.py:238-290 | in every run the done flag is set exactly once the writer marked the run done, and done messages come later still |
| RedisEndings.WhyItLeft | koraku/core/detached_run_store.py:326-366 | in every run a reader that left, or is on its way out, learned at one step that the run was marked done: at the check behind the replay if it returned early, else by a poll or the done message |
| RedisEndings.LiveReaderCatchesUp | koraku/core/detached_run_store.py:326-369 | from every state of every run not marked done, a reader's own steps lead to the head of the loop with the newest chunk yielded or never asked for |
| RedisEndings.DoneReaderLeaves | koraku/core/detached_run_store.py:326-366 | from every state of every run marked done, a reader's own steps lead out: early before the check, otherwise with the last chunk |
| RedisEndings.ReplayIsYielded | koraku/core/detached_run_store.py:326-329 | in every run a reader past its replay has first yielded every chunk after `after` the list held when it was read, in order |
| RedisEndings.EveryReadIsWhole | koraku/core/detached_run_store.py:353-369 | each list read in the loop hands out every chunk after the cursor that the list holds, in order |
| RedisEndings.OutputGrows | koraku/core/detached_run_store.py:326-369 | in every run nothing yielded is taken back, and nothing handed out is lost |
| RedisEndings.LiveChunkArrives | koraku/core/detached_run_store.py:337-359 | in every run a chunk committed while the reader is in the loop is yielded by reading its messages, in order |
| ContextManagement.ContextManager.ProcessMessages | koraku/agent/context_manager.py:34-56 | the pipeline of loops computes the function about which the theorems are proved |
| ContextManagement.ContextManager.AssistantIsToolUseOnly | koraku/agent/context_manager.py:86-107 | the loop decides that a message calls tools and shows nothing |
| ContextManagement.ContextManager.DropCompletedToolRoundPairs | koraku/agent/context_manager.py:166-199 | the skipping loop keeps exactly the messages outside finished unpinned rounds |
| ContextManagement.ContextManager.DropThinking | koraku/agent/context_manager.py:201-218 | the loop removes exactly the thinking blocks |
| ContextManagement.ContextManager.TruncateToolResults | koraku/agent/context_manager.py:220-261 | the loop caps exactly the texts of tool results, pinned ones at the larger cap |
| ContextManagement.ContextManager.EnsureValidToolChains | koraku/agent/context_manager.py:66-84 | the loop drops exactly the orphaned results |
| ContextPasses.DroppedRoundsAreSeparate | koraku/agent/context_manager.py:166-199 | dropped rounds never overlap and the answer behind one is kept |
| ContextPasses.RoundsDroppedPaired | koraku/agent/context_manager.py:166-199 | dropping rounds keeps a history well paired and opened by the user |
| ContextPasses.CompactionDeletesOnlyRounds | koraku/agent/context_manager.py:166-199 | whole finished rounds go and nothing else; the answer takes the round's place; a round with a pinned id stays |
| ContextBounds.ProcessedResultsFit | koraku/agent/context_manager.py:220-261 | whatever the history, no text result sent to the model is longer than the cap of its id and the note behind it |
| ContextBounds.CappedIsShort | koraku/agent/context_manager.py:220-261 | a capped text keeps its beginning, is bounded, and is not changed by capping it again |
| ContextBounds.CapsHoldUnlessNegative | koraku/agent/context_manager.py:220-261 | a cap bounds the length of results if and only if it is not negative |
| ContextPasses.SummarizedPaired | koraku/agent/context_manager.py:263-339 | first message, one summary and the recent tail are well paired and at most max(summarize_after, 11) long |
| ContextPasses.WindowedPaired | koraku/agent/context_manager.py:341-349 | the window is well paired, keeps first and last message, and exceeds its bound by at most one |
| ContextPasses.BackByAtMostOne | koraku/agent/context_manager.py:58-64 | in a well-paired history the cut moves back by at most one message |
| ContextPasses.OrphansDroppedLeavesNone | koraku/agent/context_manager.py:66-84 | whatever the input, no results without a preceding call are left |
| ContextPasses.OrphansDroppedIdempotent | koraku/agent/context_manager.py:66-84 | the pass is idempotent, and the identity exactly on histories without orphans |
| ContextPasses.PairedHasNoOrphans | koraku/agent/context_manager.py:66-84 | on a well-paired history the pass is the identity |
| ContextPasses.ProcessedPaired | koraku/agent/context_manager.py:34-56 | a well-paired history opened by the user stays one through all passes, within max_messages + 1 |
| ContextPasses.WindowIsIdle | koraku/agent/context_manager.py:263-349 | when the window has room for a summarised history it cuts nothing |
| ContextBounds.ProcessedRaises | koraku/agent/context_manager.py:34-64 | for every history and setting, in terms of both, the exact condition under which processing raises `IndexError` |
| ContextBounds.GreetingRaises | koraku/agent/context_manager.py:263-271 | with a summary threshold of zero a single greeting makes processing raise |
| ContextBounds.ProcessedShape | koraku/agent/context_manager.py:263-349 | the processed history is the head, perhaps one summary, and the trimmed history from an explicit position on |
| ContextReach.PinnedRoundReaches | koraku/agent/context_manager.py:34-56 | a pinned call reaches the model if and only if no more messages are left from it on than the window holds, and either too few are left in all to be summarised or at most nine from the call on |
| ContextReach.PinnedRoundIsSummarised | koraku/agent/context_manager.py:34-56 | under all limits, a history whose pinned round is summarised away |
| ContextPasses.ProcessedLeavesNoOrphans | koraku/agent/context_manager.py:34-84 | whatever the history, what comes out has no orphaned results |
| ContextPasses.NewestSurvives | koraku/agent/context_manager.py:34-56 | the newest message always reaches the model, at most trimmed in itself |
| ContextContents.ProcessedHoldsNoThinking | koraku/agent/context_manager.py:201-219 | whatever the history, nothing that comes out holds a thinking block |
| ContextContents.TailIsKept | koraku/agent/context_manager.py:201-258 | every message of the tail is one of the session in its place, with all its blocks but the thinking in order, and only result texts cut, to their caps |
| ContextContents.HeadIsSent | koraku/agent/context_manager.py:34-56 | the first message always comes first, whole in the same sense |
| ContextContents.NewestIsSent | koraku/agent/context_manager.py:34-56 | the newest message always comes last, whole in the same sense |
| ContextContents.OnlyOrphansGo | koraku/agent/context_manager.py:66-85 | of any history the last pass drops exactly the results without a call right before them |
| CompactionPasses.OnePassSuffices | koraku/agent/context_manager.py:166-199 | a second pass changes nothing if and only if no unpinned round stands right before a dropped one |
| CompactionPasses.TwoRoundsNeedTwoPasses | koraku/agent/context_manager.py:166-199 | two rounds before an answer need two passes |
| ModelProfiles.DerivedWindowHoldsTwoSummaries | koraku/llm/model_profiles.py:221-236 | for every context size twice summarize_after is at most max_messages |
| ModelProfiles.ResolveLimits | koraku/llm/model_profiles.py:263-305 | settings win over the profile, which wins over the derived value, for every field |
| ModelProfiles.ConfigureContextManager | koraku/llm/model_profiles.py:308-314 | the resolved limits reach the manager and, when derived, satisfy the window bound |
| ModelProfiles.DerivedLimitsNeedNoWindow | koraku/llm/model_profiles.py:221-236 | under derived limits the sliding window never cuts a well-paired history |
| OpenAiWire.AssistantOpenAiMessage | koraku/llm/canonical.py:108-139 | the loop computes text and numbered calls of one assistant message |
| OpenAiWire.UserOpenAiMessages | koraku/llm/canonical.py:142-167 | the loops compute the tool messages and the text message of one user message |
| OpenAiWire.OpenAiChatMessages | koraku/llm/canonical.py:170-200 | the whole mapping is the concatenation of the per-message chats |
| OpenAiWire.WireBracketed | koraku/llm/canonical.py:108-200 | the chat of a well-paired history answers every call at once, in order, and nowhere else, if and only if every call has an id |
| OpenAiWire.ProcessedCallsHaveIds | koraku/agent/context_manager.py:34-56 | no pass invents a call without an id |
| OpenAiWire.ProcessedChatIsAccepted | koraku/llm/canonical.py:170-200 | the chat of a processed well-paired history is always well bracketed |
| OpenAiContents.EveryResultIsSent | koraku/llm/canonical.py:142-167 | the tool messages of a chat are, in order, the ids and texts of all results of the history outside messages with images |
| OpenAiContents.EveryCallIsSent | koraku/llm/canonical.py:108-139 | the calls of a chat are, in order, the names and arguments of all calls of the history, and their ids where there are any |
| OpenAiContents.EveryTextIsSent | koraku/llm/canonical.py:170-200 | what a chat says, message by message and under the same roles, is what the history says |
| OpenAiContents.EveryTextIsSpoken | koraku/llm/canonical.py:132-132 | every text block that is not blank stands in what its message says, but for white space around it |
| OpenAiContents.JoinedByLines | koraku/llm/canonical.py:132-132 | the parts of a text are joined as lines of their own, empty ones left out |
| OpenAiContents.TextBeforeResults | koraku/llm/canonical.py:156-166 | the text of a user message goes before its results |
| ContextPins.RecordPins | koraku/agent/context_pins.py:69-102 | the loop appends each new pinnable result once and keeps the newest within the cap |
| ContextPins.AppendedIds | koraku/agent/context_pins.py:69-102 | considering results pins exactly the pinnable ones |
| ContextPins.PinsStayClean | koraku/agent/context_pins.py:69-106 | over any number of rounds pins keep distinct ids, stay within the cap, and only the oldest are cut |
| ContextPins.NewPinsTell | koraku/agent/context_pins.py:69-102 | every new pin sums up a pinnable result of the round, under the tool whose last call has its id |
| AgentBudget.TurnLimits.WarnRounds | koraku/agent/budget.py:164-166 | the warning round is the set share of the rounds, at least half, in whole rounds; at least one and never beyond the last |
| AgentBudget.LoopTracker.Record | koraku/agent/budget.py:269-275 | the tracker remembers the last sixteen of everything recorded |
| AgentBudget.LoopTracker.HasRepeat | koraku/agent/budget.py:277-280 | the answer is exact for the whole run: the last two calls agree |
| AgentBudget.FingerprintsOfCalls | koraku/agent/budget.py:269-273 | the detector sees of each call its name and the digest of its input, in order |
| ToolExecutor.ExecuteSingleTool | koraku/agent/tool_executor.py:90-142 | the loop of attempts gives the answer that the three attempts determine |
| ToolExecutor.AnswerIsFirstSuccess | koraku/agent/tool_executor.py:90-142 | the answer is no error exactly if the input is whole, the tool exists and one of three attempts succeeds, and is then the text of the first that does, under the call's id |
| ToolExecutor.GivingUpTellsTheError | koraku/agent/tool_executor.py:121-142 | a call given up tells the error of its last attempt |
| ToolExecutor.ExecuteToolsParallel | koraku/agent/tool_executor.py:29-88 | each call has its own result, in order: the answer of its own attempts, or the exception that escaped it; only what escapes a lone call escapes the phase |
| ToolExecutor.TimedOutResults | koraku/agent/run.py:747-758 | the timeout path gives one error result per call, in order |
| ToolExecutor.AnswersCompleteRound | koraku/agent/run.py:762-770 | such results, as one message, complete the round of the calls |
| ReactRuns.RequestIsAcceptable | koraku/agent/run.py:578-601 | every request is well paired, opened by the user and well bracketed on the wire |
| ReactRuns.NotesSay | koraku/agent/run.py:583-601 | behind the history come one note for pins, one for findings and the warning, each exactly if there is something to say |
| ReactRuns.RequestShowsNewest | koraku/agent/run.py:578-601 | every request begins with the session's first message and has its newest right before the notes |
| ReactRuns.RequestShowsPinned | koraku/agent/run.py:578-583 | a pinned call is in a request exactly if it survives processing |
| ReactRuns.GoesOnIff | koraku/agent/run.py:545-732 | a round goes on exactly if there is time, nobody cancelled, the request can be built, the model answered in time and called a tool, and no exception escaped a lone call |
| ReactRuns.ModelSeesResults | koraku/agent/run.py:523-788 | in every run the request of each round ends, before its notes, in the newest message of the session at that round, which is the results of the round before unless the model was nudged |
| ReactRuns.WarnedOnce | koraku/agent/run.py:590-601 | in every run the model is warned at most once, and not before the warning round |
| ReactRuns.RunEndsWith | koraku/agent/run.py:545-817 | in every run the last event is the terminal event that its ending calls for, with its reason |
| ReactLoop.BuildRequest | koraku/agent/run.py:578-601 | the request is the processed session followed by the notes, and acceptable |
| ReactLoop.ToolHalf | koraku/agent/run.py:732-778 | calls and each call's own result extend the session as one complete round, pins are recorded, and the checkpoint is well paired |
| ReactLoop.AfterTools | koraku/agent/run.py:762-788 | a nudge is added exactly on repetition and keeps the session well paired |
| ReactLoop.ReactRound | koraku/agent/run.py:545-788 | one turn: its request, events and checkpoint, what it adds to the session, and whether and how it ends, are as its surroundings define |
| ReactLoop.SynthesizeFinalReply | koraku/agent/run.py:469-521 | one request, the processed session with the closing note, unless it raises; one terminal event last; and well paired if and only if the reply calls no tools |
| ReactLoop.SynthesisMayLeaveCalls | koraku/agent/run.py:469-521 | a well-paired session that is not well paired after a synthesised reply |
| ReactRuns.AssistantEnds | koraku/agent/run.py:714-715 | ending on an assistant message keeps pairing exactly when it calls no tools |
| ReactLoop.IterateReactSteps | koraku/agent/run.py:523-817 | the loop terminates, and its events, requests, checkpoints, session and ending are those its surroundings define round by round; exactly one terminal event, last; at most one request per remaining round and one more; every request acceptable; every checkpoint well paired |
| AgentStream.CompletionsAreOwnEnds | koraku/streaming/koraku_sse.py:635-651 | on every stream the completion frames are the terminal events of the parent turn, in order, each with its own exit code and flags |
| AgentStream.OneCompletionPerRun | koraku/streaming/koraku_sse.py:635-651 | whatever tools, heartbeats and nested workers emit in between, a run is reported complete exactly once, as what its terminal event says |
| AgentStream.RunAgent | koraku/api/chat_routes.py:456-493 | one run of the loop, with the wrapper that reports an escaped exception, ends with exactly one terminal event, and every queue that carries it yields exactly one completion frame saying how it ended |
| AgentStream.EndIsSeenIfThereIsRoom | koraku/api/chat_routes.py:447-454 | the completion frame is sent if and only if the terminal event found room in the queue |
| AgentStream.FullQueueLosesTheEnd | koraku/api/chat_routes.py:447-454 | for every queue size, a run whose end is dropped |
| UsageMeters.EstimatesStopAtFirstReport | koraku/credits/calculator.py:33-43 | over every run tokens are the sum of the reports, and estimates add up only until the first report and never change again |
| UsageMeters.BilledOnce | koraku/credits/calculator.py:45-55 | each kind of token is billed as reported, or as estimated before the position of the first report |
| UsageMeters.RunUsageTracker.Ingest | koraku/credits/usage_tracker.py:15-67 | one event changes the tracker as the metering function says |
| UsageMeters.AddToolCounts | koraku/credits/calculator.py:65-68 | recording a tool adds one to the total of the counts, under whatever key |
| UsageMeters.TrackerCountsStarts | koraku/credits/usage_tracker.py:15-67 | on every stream, at every step, the tool counts add up to the distinct ids started |
| UsageTotals.TokensAreReported | koraku/credits/calculator.py:33-37 | on every stream both meters hold the sum of each kind of token reported, cached ones included |
| UsageTotals.ToolsAreCounted | koraku/credits/calculator.py:65-68 | on every stream each meter counts a tool once per id, under the name it was first announced with |
| UsageTotals.KeySays | koraku/credits/calculator.py:65-68 | that name counts up to its first colon, without white space, or as "tool" |
| KorakuSse.KorakuStreamState.ToolStartedEvents | koraku/streaming/koraku_sse.py:85-122 | a start is counted once per id and announced every time |
| KorakuSse.KorakuStreamState.MapKorakuStreamEvents | koraku/streaming/koraku_sse.py:484-651 | frames and state after one event are those of the mapping function |
| KorakuSseTheorems.CompletedOncePerTerminal | koraku/streaming/koraku_sse.py:635-651 | completion frames are as many as terminal events that no nested worker sent |
| KorakuSseTheorems.SuppressionDeletesToolBlocks | koraku/streaming/koraku_sse.py:535-603 | on a well-bracketed stream the block events sent are those left after deleting whole tool blocks, in order, and the suppressed indexes are the open tool blocks |
| KorakuSseNames.ResultsNameTheirCalls | koraku/streaming/koraku_sse.py:604-634 | on every stream each result frame carries the name under which its still open call was last announced, or "tool", and the calls remembered are those the frames show open |
| KorakuSseFrames.StreamIsTold | koraku/streaming/koraku_sse.py:484-651 | on every stream all frames but content blocks, and but for names in results, are what each event alone tells: starts, failed and finished results, messages without calls, usage, and the three frames of an end with its flags |
| KorakuSseFrames.ScopedIdSays | koraku/streaming/koraku_sse.py:233-246 | a nested worker's ids carry the name of its kind in front, once |
| KorakuSseTheorems.NothingStaysSuppressed | koraku/streaming/koraku_sse.py:535-603 | once all blocks are closed nothing is suppressed |
| KorakuSseTheorems.MapperCountsStarts | koraku/streaming/koraku_sse.py:85-122 | on every stream, at every step, the mapper's tool counts add up to the distinct ids started |
| KorakuSseTheorems.MetersBillTheSameTokens | koraku/credits/usage_tracker.py:15-67 | on every stream, nested workers and tool blocks included, both meters bill the same tokens |
| KorakuSseTheorems.MetersAgree | koraku/streaming/koraku_sse.py:494-571 | without nested workers and tool blocks both meters are identical at every step |
| KorakuSseTheorems.ToolTotalsAgree | koraku/credits/usage_tracker.py:15-67 | on every stream the tool totals agree if and only if the events announce as many ids kept apart by worker as they announce without blocks and workers |
| KorakuSseTheorems.BlockToolsDecide | koraku/streaming/koraku_sse.py:543-571 | without nested workers: if and only if every tool a block announces is also announced as pending or executing |
| KorakuSseTheorems.NestedWorkerSplitsAnId | koraku/streaming/koraku_sse.py:233-246 | one id used by parent and nested worker: the mapper counts two tools, the tracker one |
| KorakuSseWorkers.SuppressedIsLastToolStart | koraku/streaming/koraku_sse.py:572-596 | on every stream an index is suppressed exactly while the last tool block opened there has seen no block end |
| KorakuSseWorkers.EachServedIff | koraku/streaming/koraku_sse.py:535-603 | every worker is sent, at every moment, exactly the block events outside its own tool blocks if and only if at every text delta and block end the whole stream and its own agree about open tool blocks at that index |
| KorakuSseWorkers.WorkersApart | koraku/streaming/koraku_sse.py:535-603 | workers that never touch an index another has open each get exactly what is visible in their own stream |
| KorakuSseWorkers.InterleavingSwallowsText | koraku/streaming/koraku_sse.py:588-593 | a nested tool block swallows the parent's text at the same index |
| RateLimit.Limiter.EnforceInMemory | koraku/core/rate_limit.py:73-87 | the loop expires, decides and records as the bucket functions say, for one key only |
| RateLimit.Limiter.EnforceRateLimit | koraku/core/rate_limit.py:90-125 | no limit, or a count within it, lets a request through untouched; every other answer of Redis leaves the decision to memory |
| RateLimit.PassesIff | koraku/core/rate_limit.py:90-125 | in every run a request gets through if and only if its key has no limit, its count is within it, or fewer than `limit` admissions by memory lie in the closed window ending now |
| RateLimit.AtMostTwiceTheLimit | koraku/core/rate_limit.py:90-125 | of the requests Redis counts together, at most twice the limit get through within one window's length |
| RateLimit.BurstPassesTwice | koraku/core/rate_limit.py:105-125 | for every limit, a burst of which twice the limit get through |
| RateLimit.AdmittedIff | koraku/core/rate_limit.py:73-87 | memory lets a request through if and only if it is asked and fewer than `limit` of its admissions for that key lie in the closed window ending now |
| RateLimit.WindowBound | koraku/core/rate_limit.py:73-87 | every closed interval as long as the window holds at most `limit` admissions by memory |
| RateLimit.KeysAreIndependent | koraku/core/rate_limit.py:77-77 | a key's bucket is the work of that key's requests alone |
| RateLimit.RetryHintSuffices | koraku/core/rate_limit.py:80-86 | waiting exactly as long as hinted gets a request through if and only if less than a second was left |
| RateLimit.RetryHintTooShort | koraku/core/rate_limit.py:80-86 | a concrete rejection whose hint is too short |
| TtlCaches.TtlCache.GetValue | koraku/core/ttl_cache.py:20-35 | a read drops a stale entry, moves a fresh one to the end, and returns it |
| TtlCaches.TtlCache.SetValue | koraku/core/ttl_cache.py:37-46 | a write replaces, or evicts the oldest entry when the cache is full |
| TtlCaches.TtlCache.InvalidateKey | koraku/core/ttl_cache.py:48-51 | only the named key goes |
| TtlCaches.TtlCache.Contains | koraku/core/ttl_cache.py:53-55 | presence is decided without regard to age |
| TtlCaches.TtlCache.Pop | koraku/core/ttl_cache.py:60-67 | the value is returned, stale or not, and its key goes |
| TtlCaches.TtlCache.ClearAll | koraku/core/ttl_cache.py:69-70 | nothing is left |
| TtlCaches.ApplyKeeps | koraku/core/ttl_cache.py:16-70 | keys stay distinct and non-empty and the size never exceeds the bound |
| TtlCacheTheorems.HitIsLatestWrite | koraku/core/ttl_cache.py:20-70 | a hit is the latest write and fresh; a fresh written key is missed only after max_size other keys were touched since |
| TtlCacheTheorems.OnlyOldKeysAreEvicted | koraku/core/ttl_cache.py:37-46 | a set evicts a key only after max_size distinct other keys were touched since it was |
| TtlCacheTheorems.ReadsOnlyDelete | koraku/core/ttl_cache.py:28-35 | expiry on read deletes values and never changes them |
| Sanitize.EatLeadingNewlinesOnly | koraku/llm/sanitize.py:29-34 | exactly the leading line breaks are eaten |
| Sanitize.VisibleToolJsonFilter.TryStripLeadingBracketToolCall | koraku/llm/sanitize.py:268-289 | no match exactly without a head; otherwise it takes exactly the span to its closing marker and the line breaks behind, holds while that is missing, and drops the rest at the end |
| Sanitize.VisibleToolJsonFilter.TryStripLeadingCallTool | koraku/llm/sanitize.py:291-313 | the same with the extent of a call: its JSON, or the head alone when none can follow |
| Sanitize.VisibleToolJsonFilter.TryStripLeadingAngleTool | koraku/llm/sanitize.py:315-344 | the same with the extent of an angle call, whose closing tag may be missing at the end |
| Sanitize.VisibleToolJsonFilter.TryStripLeadingToolJsonObject | koraku/llm/sanitize.py:346-362 | exactly the tool objects and the undecodable tool heads are taken on |
| Sanitize.VisibleToolJsonFilter.Feed | koraku/llm/sanitize.py:136-211 | terminates; earlier pieces stay, and every piece of text that leaves the buffer is, by all the text there was from it on, visible text up to the first marker, a shown object without its line breaks, or exactly one extent of markup; what stays is held for a reason; a plain text passes whole |
| Sanitize.VisibleToolJsonFilter.Flush | koraku/llm/sanitize.py:213-266 | terminates with an empty buffer; the same, and only here all that is left may be dropped, behind a head that has no extent |
| Sanitize.BufferDecides | koraku/llm/sanitize.py:136-266 | what the buffer holds, and whether the stream has ended, determines the piece: its kind, its length and its line breaks |
| Sanitize.VisibleStopsAtMarker | koraku/llm/sanitize.py:37-46 | text that is shown stops where the first of four searches finds a marker |
| Sanitize.ExtentAddsUp | koraku/llm/sanitize.py:268-344 | where markup ends, added up from what the patterns and the decoder take |
| Sanitize.VisibleIsSubsequence | koraku/llm/sanitize.py:136-266 | deleting pieces leaves a subsequence of the text |
| OpenAiDelta.ToolCallSlots.Accumulate | koraku/llm/openai_delta.py:32-51 | the loop merges fragments into slots one after the other |
| OpenAiDelta.SlotNeedsOnlyItsOwn | koraku/llm/openai_delta.py:32-51 | an index's slot depends only on the fragments of that index |
| OpenAiDelta.InterleavingDoesNotMatter | koraku/llm/openai_delta.py:32-51 | streams with equal fragments per index fill the same slots |
| OpenAiDelta.ChunkingDoesNotMatter | koraku/llm/openai_delta.py:32-51 | accumulating in two calls is accumulating in one |
| OpenAiDelta.SlotIsLastAndJoined | koraku/llm/openai_delta.py:32-51 | a slot holds the last id, the last name, and all argument fragments joined in order |
| OpenAiDelta.SlotsToBlocks | koraku/llm/openai_delta.py:54-71 | one block per named slot, in strictly increasing order of index |
| OpenAiDelta.BlocksAreUsable | koraku/llm/openai_delta.py:54-71 | every block has an id and a name |
| OpenAiDelta.BlocksNeedOnlyProjections | koraku/llm/openai_delta.py:32-71 | equal fragments per index give identical blocks |
| OpenAiDelta.BlocksSaySo | koraku/llm/openai_delta.py:54-71 | from a whole stream: one block per named index, in order, with its last id and name, and as input its joined arguments: decoded, wrapped if no object, raw if undecodable, nothing if blank |
| ChunkText.Chunked | koraku/integrations/sendblue_client.py:84-105 | chunks are non-empty and fit; they are the text with only newlines deleted; lines that fit are rejoined exactly; no chunk has room for the first line of the next |

## Left out

- Several concurrent producers of one run: each run has one worker, and the buffer does not keep its order without that.
- Key expiry in Redis, and gaps and repetitions that its publish/subscribe channel allows: the code promises nothing there.
- The ownership check, the heartbeat of the transport, and the store that finds buffers by run id.
- Regular expressions and JSON decoding: oracles, of which it is assumed how much they consume, which heads a text that begins with a brace can have, and that an undecodable object stays one when cut short.
- Exact floating-point rounding: windows, clocks, time to live and the budget fraction are reals.
- How Redis counts requests: its answer is an input of the rate limiter; only `AtMostTwiceTheLimit` assumes that it counts at least those it answers.
- Cancellation of the coroutine that runs the loop, and exceptions other than those of the history passes and of a lone tool call.
- Sub-agent sessions: their events appear in the mapper, their loops do not.
- The text of summaries, prompts, pins and snippets; model, usage and stop reason of messages.
- Message roles other than user and assistant, and non-ASCII digits accepted by `int()`.
- The fields of frames that come from clocks, settings or random ids, and truncation flags.
- The content of events that are emitted but not yielded, such as worker status: they may stand anywhere in the queue.
- Credits, prices and settlement, which need tables kept elsewhere.
- RedisRunBuffer.LeavingDeliversTheLast: assumes chunks bring no id of their own, because the cursor does not follow chunks that do.
- RateLimit.RetryHintSuffices: speaks of a full bucket and no requests in between, the case in which the hint is given for a fixed limit.
- Sanitize.VisibleToolJsonFilter.Feed: does not say that no tool markup is ever shown, because a marker of which the buffer holds only the brace is shown.
- ChunkText.Chunked: needs a size of at least one, because the loop does not end with a smaller one.
