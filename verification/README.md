# Conversation-history machine and its protocols

A Dafny model of the backend's conversation history and of the protocols around it, with proofs about whole runs.

- `Text`, `Picking`, `Messages`, `Tokens`: string helpers with Python's meaning, picking elements in order, stored rows
  and their model-facing form, the characters-by-four token counter and truncator.
- `History`, `HistoryRuns`: the conversation history class (rows, mirror, staged tool-call ids, running token count),
  and what holds over every sequence of its operations.
- `Bridge`: from a provider's native tool calls to the calls stored on an assistant row.
- `Compaction`: splitting the history, fitting the kept tail to a budget, and committing a summary while other tasks
  use the history.
- `Linkage`, `Matching`, `FreshIds`: tool calls and their outputs over whole runs. A history is read as a queue of open
  calls; the queue equals what is staged, it is empty exactly if calls and role=tool rows are matched one to one, and
  ids are unique exactly if the provider's calls do not collide.
- `InteractionLoop`, `LoopOutcomes`, `LoopLinkage`, `LoopCompaction`: the agent loop as a state machine over provider
  outcomes and tool turns, what each turn tells and records, and what the loop does to the linkage, with the compactions
  of its own engine.
- `ActiveQueries`, `Tracking`, `StopProtocol`: the query tracker with pending stops, wildcards, expiry and caps.
- `SessionConfig`: settings updates with a deferred, versioned retry, as steps between suspension points.
  `LockHandover`, `LeftBehind`: the same with locks that are handed over to a waiting query, when updates still reach
  every session, and what happens otherwise.
- `Rehydrate`, `ReplayedMessages`: replaying a transcript. `Resume`: which histories are such transcripts.
  `Checkpoint`: exporting model history and installing it again.
- `Json`, `EmbeddedJson`, `ScanFindings`: the scanner for embedded tool calls and the deletion of their text.
- `SchemaValues`, `LocalDefs`, `ReferenceCycles`, `ToolSelection`, `ToolPolicy`: schema transformations (JSON Schema
  Core 2020-12, sections 8.2.3.1 and 8.2.4, for local references).
- `Transcript`: the budgeted transcript for the summarising model. `ProviderRetry`: the provider attempt loop.
  `PromptLayers`: validation of client prompt layers.

Objects whose methods update their fields are classes; each method is proved against a function on the old state, and
the lemmas are about those functions and about runs of them. Verify with `dafny verify dfyconfig.toml`.

What a model cannot see is a parameter: the tokenizer, the summary text, the JSON decoder and tool schema, the outcome
of provider and tools, the clock and the set of finished tasks, and the function that builds an effective
configuration from overrides.

## Findings

Where the code does less than one would expect, the model follows the code, an example shows the failure, and a
condition that a caller could check beforehand is proved to be the exact one.

- A recoverable tool-call error writes a role=tool row without an assistant call (`Linkage.RecoverableErrorOrphans`);
  the step keeps the linkage if and only if that very id was staged alone (`Linkage.StepKeepsLinkageIffSafe`).
- Assigning the system prompt leaves the cached token count (`HistoryRuns.StaleCountExample`). It stays right if and
  only if both prompts give the same estimate (`HistoryRuns.PromptChangeKeepsCount`), and is never further off than the
  prompt's change and the rows appended since (`HistoryRuns.StaleByPromptAndRows`).
- Calls without an id get a positional one, which repeats from turn to turn (`Bridge.MissingIdsRepeat`) and can meet an
  equal id of the same turn (`FreshIds.SameTurnCollision`). Ids are unique, and answers unique by id, if and only if no
  two calls collide (`FreshIds.UniqueIffNoCollisions`, `FreshIds.AnsweredOnceIffUnique`); the positional matching needs
  no such condition (`Matching.NothingStagedIffMatched`).
- The `$ref` resolver has no guard against cycles. It ends if and only if no chain of references returns to a definition
  (`ReferenceCycles.TerminatesIffNoCycle`), so it does not end on the schema of a recursive model
  (`ReferenceCycles.RecursiveModelNeverEnds`).
- A cancel compares turn references as they were registered, while pending stops compare trimmed ones
  (`StopProtocol.UntrimmedTurnEscapesCancel`); it reaches all it should if and only if the live ones were trimmed
  (`StopProtocol.CancelReachesAllIffTrimmed`).
- A settings update that finds a lock free but spoken for queues there, and may overwrite a later update for good
  (`LeftBehind.CaughtUpdateStays`). A session can be left behind if and only if such an update can write an old
  configuration to a session that nobody else will bring up to date (`LeftBehind.LeftBehindIffHarm`,
  `LockHandover.MoveKeepsIff`); where no update finds such a lock, none is (`LockHandover.UncaughtRunIsHarmless`).
- A checkpoint row with an empty tool name comes back without one (`Checkpoint.EmptyNameIsLost`). For reachable histories
  the round trip is exact if and only if no tool name is empty (`Checkpoint.ReachableRoundTrip`); image references need
  not be trimmed.

## Model

| member | source | states |
|---|---|---|
| `History.ConversationHistory.constructor` | backend/src/agent/session/state.py:33-53 | an empty history with the given system prompt and no token count |
| `History.ConversationHistory.AppendMessage` | backend/src/agent/session/state.py:438-444 | the row and its model-facing form are appended to the two lists together |
| `History.ConversationHistory.AddUserMessage` | backend/src/agent/session/state.py:55-89 | one user row appended, token count dropped, staged ids untouched |
| `History.ConversationHistory.ConsumeToolCallIdsForNextOutput` | backend/src/agent/session/state.py:454-467 | a bundle yields every staged id, otherwise the oldest; exactly those leave the queue |
| `History.ConversationHistory.AddToolOutput` | backend/src/agent/session/state.py:91-168 | one role=tool row per answered id, or one user-role row when nothing is staged; a valid token count moves along row by row |
| `History.ConversationHistory.AddAssistantMessage` | backend/src/agent/session/state.py:170-196 | the row is stored exactly if it calls tools or says something; otherwise nothing changes |
| `History.ConversationHistory.StageToolCallIds` | backend/src/agent/session/state.py:198-213 | the queue becomes the non-empty ids in order; bundle mode only if any is left |
| `History.ConversationHistory.FinalizePendingToolCallsAsCancelled` | backend/src/agent/session/state.py:215-249 | every staged id gets its synthetic output in order, the queue is empty, the number written is returned |
| `History.ConversationHistory.GetHistory` | backend/src/agent/session/state.py:251-281 | the mirrored rows, behind the system prompt when there is one |
| `History.ConversationHistory.GetTokenCount` | backend/src/agent/session/state.py:332-362 | the cached count for the same model, else a fresh one that is cached |
| `History.ConversationHistory.Clear` | backend/src/agent/session/state.py:364-371 | rows, mirror, queue and count are emptied, the system prompt stays |
| `History.ConversationHistory.ReplaceWithStoredMessages` | backend/src/agent/session/state.py:427-432 | rows and mirror are exactly the new ones, nothing staged, no count |
| `HistoryRuns.MirrorInEveryRun` | backend/src/agent/session/state.py:438-444 | in every reachable state the model-facing cache is the rows converted one by one, bundle mode implies staged ids, and no staged id is empty |
| `HistoryRuns.DriftInEveryRun` | backend/src/agent/session/state.py:141-168 | under the characters-by-four counter the cached count is never above a fresh one and at most one token below it per row appended since the last full count |
| `HistoryRuns.PromptChangeKeepsCount` | backend/src/agent/session/session.py:540-550 | assigning the system prompt keeps the cached count right if and only if the estimate of the whole prompt does not change |
| `HistoryRuns.StaleCountExample` | backend/src/agent/session/session.py:540-550 | a concrete prompt change after which the cached count is wrong |
| `HistoryRuns.DriftUnderPromptChanges` | backend/src/agent/session/state.py:141-168 | along every run, prompt changes included, the cached count stays within one token per row appended since of the count under the prompt it was last computed with |
| `HistoryRuns.StaleByPromptAndRows` | backend/src/agent/session/session.py:540-550 | in every reachable state the cached count is off by a quarter of the change in the prompt length since it was last computed, rounded either way, and by at most one more token per row appended since |
| `HistoryRuns.AppendingKeepsPrefix` | backend/src/agent/session/state.py:438-444 | operations that only append leave the earlier rows as a prefix, over any sequence of them |
| `HistoryRuns.TypedInEveryRun` | backend/src/agent/session/state.py:170-196 | in every reachable history role and message type agree and every assistant row is replayable |
| `HistoryRuns.OperationRecords` | backend/src/agent/session/state.py:55-249 | what each operation adds to the stored rows and leaves staged, in terms of its own arguments: contents, roles, types, calls and the ids answered |
| `HistoryRuns.ReplacementRecords` | backend/src/agent/session/state.py:364-432 | clearing and replacing leave exactly the rows given, and nothing staged |
| `Messages.MirrorSaysTheSame` | backend/src/core/messages/structures.py:48-86 | the model-facing form of a row has its role, content, calls, tool name and tool-call id, with stand-ins for missing ids and names |
| `Tokens.FallbackTokenEstimate` | backend/src/services/token_service.py:193-203 | the loop computes a quarter, rounded down, of all message characters |
| `Tokens.TruncationMeetsLimit` | backend/src/services/token_service.py:243-261 | a text over the limit is reported as cut, and its cut form costs exactly the limit |
| `Tokens.TruncationKeepsBothEnds` | backend/src/services/token_service.py:243-261 | a cut text is as much of its beginning and of its end as fits around the marker, in halves up to one character; with no room for the marker it is a beginning of the text |
| `Bridge.ToHistoryToolCalls` | backend/src/agent/execution/tool_call_bridge.py:118-164 | one stored call per parsed call, in order |
| `Bridge.ExtractHistoryToolCallIds` | backend/src/agent/execution/tool_call_bridge.py:167-176 | the ids to stage are exactly the ids on the assistant row, none empty |
| `Bridge.HistoryIdIsTrimmed` | backend/src/agent/execution/tool_call_bridge.py:118-164 | a stored call id is never empty and has no surrounding space |
| `Bridge.BridgeKeepsCall` | backend/src/agent/execution/tool_call_bridge.py:44-164 | from provider call to stored call the id, name, arguments and signature survive (trimmed), and what is missing is filled in |
| `Bridge.ModelFacingWins` | backend/src/agent/execution/tool_call_bridge.py:118-164 | for any parsed call: what the model-facing call has wins over the call's own id, name, arguments and signature; without any id the position gives one |
| `Bridge.MissingIdsRepeat` | backend/src/agent/execution/tool_call_bridge.py:118-164 | calls without an id at the same position of two turns get the same id |
| `Compaction.SplitIndexForRecentUserMessages` | backend/src/agent/compaction/engine.py:420-431 | the index of the oldest of the newest `keep` user queries, zero if there are fewer |
| `Compaction.QueryStartIsUnique` | backend/src/agent/compaction/engine.py:420-431 | that index is the only query with exactly `keep` queries from it on |
| `Compaction.CountLeadingTailTurnMessages` | backend/src/agent/compaction/engine.py:363-374 | rows up to the next user-role row, the first always included |
| `Compaction.MoveLeadingTurns` | backend/src/agent/compaction/engine.py:341-352 | the shrinking loop moves whole turns, in order, from the tail to the summary input |
| `Compaction.FitTailToTargetBudget` | backend/src/agent/compaction/engine.py:332-361 | with a positive target the tail is shrunk by whole turns and a last single row that is too costly is truncated |
| `Compaction.BuildCompactionInput` | backend/src/agent/compaction/engine.py:297-330 | the split, the minimal-history rule and the fitted tail |
| `Compaction.DroppedLeavesATurn` | backend/src/agent/compaction/engine.py:341-352 | what remains starts at a user-role row and is a single row or within budget |
| `Compaction.DroppedIsLeast` | backend/src/agent/compaction/engine.py:341-352 | every longer remainder that starts a turn was over budget: the tail keeps as much as fits |
| `Compaction.SplitConserves` | backend/src/agent/compaction/engine.py:297-361 | summary input followed by the kept rows is the whole history, the tail is those rows or the truncation of the only one, something is always summarised, and a non-empty tail starts at a user-role row |
| `Compaction.DeclinesExactly` | backend/src/agent/compaction/engine.py:297-330 | compaction has no input exactly for an empty history, or when the oldest kept query is the first row or missing and a minimal history is not allowed |
| `Compaction.TailMeetsBudget` | backend/src/agent/compaction/engine.py:332-418 | under the characters-by-four counter a positive target bounds the tail by max(1, target minus summary allowance) |
| `Compaction.KeptIsMost` | backend/src/agent/compaction/engine.py:297-361 | the rows kept are the newest turns that fit, from the oldest of the recent user queries on; a single row that alone is too long is cut |
| `Compaction.SummaryIsCarried` | backend/src/agent/compaction/prompt.py:79-84 | the row of a summary is an assistant row of the compaction type whose content is the marker, a newline and the trimmed summary; a blank summary is said to be unavailable |
| `Compaction.SummariesDiffer` | backend/src/agent/compaction/prompt.py:79-84 | summaries that differ when trimmed give rows that differ |
| `Compaction.CompactionEngine.RecordProviderPromptTokens` | backend/src/agent/compaction/engine.py:40-48 | only positive reports count, and the largest is kept |
| `Compaction.CompactionEngine.Compact` | backend/src/agent/compaction/engine.py:129-246 | whatever the others did to the history meanwhile, the outcome is the commit over the current history, or a skip with its reason that leaves it alone; what is installed begins with a row that carries the trimmed summary |
| `Compaction.CompactionEngine.Commit` | backend/src/agent/compaction/engine.py:151-221 | installed exactly if the snapshot is a prefix of the current rows; removed rows are counted, the provider token report is reset |
| `Compaction.CommitIsAllOrNothing` | backend/src/agent/compaction/engine.py:151-221 | the commit leaves the history alone or makes it summary, kept tail and every row appended meanwhile in order, the latter exactly while the snapshot is still a prefix |
| `Compaction.AppendingNeverBlocksCommit` | backend/src/agent/compaction/engine.py:151-221 | if the others only appended, the summary is installed and their rows are all kept |
| `Linkage.StepIsGood` | backend/src/agent/session/state.py:91-249 | every step keeps the mirror right and the rows well typed |
| `Linkage.StepKeepsLinkageIffSafe` | backend/src/agent/execution/interaction_loop.py:779-796 | a step keeps rows and staged ids in agreement if and only if a condition on the state before it holds (nothing staged for user rows, tool turns and compactions that keep a tail; the id staged alone for a recoverable error) |
| `Linkage.CompactionLinkage` | backend/src/agent/compaction/engine.py:297-374 | a compaction keeps the linkage exactly if nothing is staged, or it has no input or no tail |
| `Linkage.LinkedInEverySafeRun` | backend/src/agent/session/state.py:91-249 | along every safe run what the rows leave open is exactly what is staged, compactions included |
| `Linkage.RecoverableErrorOrphans` | backend/src/agent/execution/interaction_loop.py:874-885 | a recoverable tool-call error with nothing staged writes a role=tool row that answers no call |
| `Matching.AnswersIsOneToOne` | backend/src/agent/session/state.py:91-139 | a role=tool row answers one call and a call has one answer |
| `Matching.ClosedIffMatched` | backend/src/agent/session/state.py:91-139 | a well-typed history leaves nothing open if and only if every role=tool row answers a call of its own user turn and every call is answered there |
| `Matching.NothingStagedIffMatched` | backend/src/agent/execution/interaction_loop.py:779-796 | in every state of a safe run: no id is staged if and only if calls and outputs are matched one to one, also after compactions |
| `Matching.IssuedIsAnsweredOrOpen` | backend/src/agent/session/state.py:91-139 | conservation: every id is answered or open exactly as often as it was issued |
| `Text.DigitsAreInjective` | backend/src/agent/execution/tool_call_bridge.py:134-135 | two indices with the same digits are the same index |
| `Text.ContainsIff` | backend/src/agent/execution/interaction_loop.py:923-928 | a text contains exactly what stands somewhere in it, at its ends included |
| `Text.LowerIs` | backend/src/agent/execution/interaction_loop.py:923-928 | lower case keeps the place of each letter in the alphabet, and everything else |
| `FreshIds.SameStoredIdIffCollide` | backend/src/agent/execution/tool_call_bridge.py:76-147 | two calls are stored under the same id if and only if they carry the same id, or none at the same position, or one carries the positional id of the other, which carries none |
| `FreshIds.RowKeepsUniqueIff` | backend/src/agent/session/state.py:170-213 | a row of calls keeps ids unique if and only if its ids are distinct and none was issued before |
| `FreshIds.NativeTurnKeepsUniqueIff` | backend/src/agent/execution/tool_call_bridge.py:118-176 | a turn of native calls keeps ids unique if and only if no two of its calls collide and none is stored under an id issued before |
| `FreshIds.UniqueIffNoCollisions` | backend/src/agent/execution/tool_call_bridge.py:118-176 | ids in a whole history are unique if and only if no two native calls collide, within a turn or across turns |
| `FreshIds.SameTurnCollision` | backend/src/agent/execution/tool_call_bridge.py:118-147 | a call with the id `tool_call_1` before one without an id: both are stored under `tool_call_1` |
| `FreshIds.StepKeepsUniqueIff` | backend/src/agent/session/state.py:91-249 | every step keeps ids unique if and only if it is not a tool turn with an old or repeated id; compactions never issue any |
| `FreshIds.UniqueThroughoutIffFresh` | backend/src/agent/session/state.py:91-249 | along a run ids stay unique at every step if and only if every tool turn brings new, distinct ids |
| `FreshIds.AnsweredOnceIffUnique` | backend/src/agent/session/state.py:91-249 | after a safe run with nothing staged each id has as many role=tool rows as calls, and each at most one if and only if the ids are unique |
| `FreshIds.EachIdAnsweredOnce` | backend/src/agent/session/state.py:91-249 | with new ids in every turn and nothing staged, each issued id has exactly one role=tool row |
| `InteractionLoop.Loop.RunCompaction` | backend/src/agent/execution/interaction_loop.py:650-755 | rows are replaced exactly if the compaction was applied; one event tells which |
| `InteractionLoop.Loop.AttemptCompactionRecovery` | backend/src/agent/execution/interaction_loop.py:619-648 | runs at most once per query, and only if a compaction was decided on |
| `InteractionLoop.Loop.CommitAssistantToolTurn` | backend/src/agent/execution/interaction_loop.py:779-796 | the assistant row with its calls is stored and their ids are staged, a bundle as a whole |
| `InteractionLoop.Loop.EmitErrorAndRecord` | backend/src/agent/execution/interaction_loop.py:798-804 | the error is yielded and stored as an assistant row |
| `InteractionLoop.Loop.EmitModelHistory` | backend/src/agent/execution/interaction_loop.py:600-617 | the checkpoint of the current history is announced exactly if both references are present |
| `InteractionLoop.Loop.EmitRecoverableToolCallError` | backend/src/agent/execution/interaction_loop.py:806-885 | call and output events, then a role=tool row for the staged error id |
| `InteractionLoop.Loop.ExecuteTools` | backend/src/agent/execution/interaction_loop.py:540-598 | commit, events, results of a bundle awaited in the loop, otherwise in the cleanup; a failure is reported before the cleanup and ends the run |
| `InteractionLoop.Loop.FinalAnswer` | backend/src/agent/execution/interaction_loop.py:518-538 | the answer, or the fallback for a blank one, is stored, announced and completed |
| `InteractionLoop.Loop.UseResponse` | backend/src/agent/execution/interaction_loop.py:492-598 | an empty failed response may be retried after a compaction, otherwise the answer or the tools follow |
| `InteractionLoop.Loop.RunTurn` | backend/src/agent/execution/interaction_loop.py:153-598 | one iteration, branch by branch: prompt failure, rate limit, overflow, recoverable and other errors, answer, tools |
| `InteractionLoop.Loop.RunLoop` | backend/src/agent/execution/interaction_loop.py:147-598 | the loop is the iterations one after the other until one ends it |
| `InteractionLoop.RecoveryCounts` | backend/src/agent/execution/interaction_loop.py:619-648 | a recovery attempt adds at most one executed compaction, and none after the first |
| `InteractionLoop.OneTerminalEvent` | backend/src/agent/execution/interaction_loop.py:147-598 | every finished run yields exactly one completion or error, followed by at most one history announcement, and at most one overflow-retry compaction; an unfinished run has yielded neither |
| `InteractionLoop.CompletedRunStoresAnswer` | backend/src/agent/execution/interaction_loop.py:518-538 | a completed run has stored, as its last row, the very text it completed with, never blank, and announced the history it leaves |
| `InteractionLoop.FailedRunStoresError` | backend/src/agent/execution/interaction_loop.py:798-804 | a run that finishes without an answer has told the user of an error that is on record as an assistant row, whatever results the cleanup recorded after it |
| `LoopOutcomes.AnswerIsTold` | backend/src/agent/execution/interaction_loop.py:511-538 | a turn whose provider answers with text, without calls and without error, shows that very text, stores it as the last row and completes with it |
| `LoopOutcomes.RunAnswerIsTold` | backend/src/agent/execution/interaction_loop.py:147-538 | over a run: the first such turn ends it with its text, whatever turns are given after it |
| `LoopOutcomes.BlankAnswerStandsIn` | backend/src/agent/execution/interaction_loop.py:768-777 | a blank answer is replaced by a notice with the latest tool output that says something, or by the bare notice if there is none |
| `LoopOutcomes.LastOutputIsLatest` | backend/src/agent/execution/interaction_loop.py:901-921 | that output is the newest of the tool outputs that are not blank, without its system context, trimmed, and cut to 597 characters and an ellipsis if it has more than 600 |
| `LoopOutcomes.HistoryIsAnnounced` | backend/src/agent/execution/interaction_loop.py:600-617 | the announcement holds every stored row as it is, under the trimmed conversation and revision; without both there is none |
| `LoopOutcomes.ErrorIsTold` | backend/src/agent/execution/interaction_loop.py:798-804 | rate limits, exceptions and provider errors that are neither overflows nor recoverable are told in their words, recorded and end the loop |
| `LoopOutcomes.OverflowIsMentioned` | backend/src/agent/execution/interaction_loop.py:923-928 | an error is an overflow exactly if it mentions one of seven phrases, in any case |
| `LoopOutcomes.OverflowIsRetriedOnce` | backend/src/agent/execution/interaction_loop.py:619-648 | after an overflow the loop goes on over the compacted rows if the first recovery of the run is applied; otherwise it ends with the fixed error |
| `LoopOutcomes.FailedResponseIsRetriedOnce` | backend/src/agent/execution/interaction_loop.py:486-502 | an empty response that was cut short is retried in the same way, and otherwise answered by the notice, or by the error if a recovery was used up |
| `LoopOutcomes.OnlyOverflowRecovers` | backend/src/agent/execution/interaction_loop.py:153-648 | a recovery is used exactly by an overflow or an empty response cut short whose compaction is applied |
| `LoopOutcomes.ToolsAreRecorded` | backend/src/agent/execution/interaction_loop.py:540-598 | a tool turn stores the response with its calls as they are stored by the bridge, and then each output word for word, the first for all staged ids |
| `LoopOutcomes.ToolFailureIsTold` | backend/src/agent/execution/interaction_loop.py:540-598 | a tool turn that fails tells and records the internal error between the outputs awaited and those of the cleanup |
| `LoopOutcomes.MalformedCallIsAnswered` | backend/src/agent/execution/interaction_loop.py:806-885 | a malformed call is answered by a role=tool row with its own id and output, two events tell it, and the loop goes on |
| `LoopOutcomes.PromptFailureIsRaised` | backend/src/agent/execution/interaction_loop.py:153-200 | a turn whose prompt cannot be built raises, and records nothing |
| `LoopOutcomes.EveryTurnIsCovered` | backend/src/agent/execution/interaction_loop.py:153-598 | every turn is one of those described |
| `LoopLinkage.CommittedTurnIsLinked` | backend/src/agent/execution/interaction_loop.py:779-796 | a committed tool turn is linked if and only if nothing was open before it, and a single output then closes it |
| `LoopLinkage.RecordedIsLinked` | backend/src/agent/session/state.py:91-168 | any number of recorded outputs keeps the linkage, and the first closes the turn |
| `LoopLinkage.ToolTurnIsLinked` | backend/src/agent/execution/interaction_loop.py:540-598 | whatever fails in a tool turn the history stays linked; if the loop goes on, it is closed exactly if an output was recorded |
| `LoopLinkage.RunKeepsLinkage` | backend/src/agent/execution/interaction_loop.py:147-598 | over any turns with closed compactions, no recoverable error and at least one output per tool turn, the history stays linked and is closed whenever the loop goes on |
| `LoopCompaction.CommitKeepsLinkageIff` | backend/src/agent/compaction/engine.py:151-221 | a summary of rows that left nothing open, or of which some are kept, committed over a history that grew meanwhile: the new rows leave open what the history left open, and the linkage holds if and only if nothing is staged at the commit or the commit is skipped |
| `LoopCompaction.EngineIsClosed` | backend/src/agent/compaction/engine.py:151-361 | over a closed history the rows the engine installs, summary, fitted tail and rows added meanwhile with nothing staged, leave nothing open |
| `LoopCompaction.TurnIsGood` | backend/src/agent/execution/interaction_loop.py:153-598 | whatever happens in a turn the mirror stays right and the rows well typed |
| `LoopCompaction.EngineRunKeepsLinkage` | backend/src/agent/execution/interaction_loop.py:147-755 | the loop with its own engine compacting before turns and to recover, also while others add rows but leave nothing staged at the commit: rows and staged ids agree throughout, and nothing is staged whenever the loop goes on |
| `ActiveQueries.PendingStopCandidates` | backend/src/agent/session/active_query_tracker.py:42-59 | the distinct candidate keys of a request in order |
| `ActiveQueries.CandidatesAreTheMatchingKeys` | backend/src/agent/session/active_query_tracker.py:42-59 | the candidates are exactly the keys that match with wildcards, in strictly falling specificity |
| `ActiveQueries.LookupIsWildcardMatch` | backend/src/agent/session/active_query_tracker.py:83-109 | the lookup finds a stop exactly if an unexpired matching one is stored; it takes one most specific one and leaves every other unexpired stop as it was |
| `ActiveQueries.ActiveQueryTracker.RegisterPendingStopRequest` | backend/src/agent/session/active_query_tracker.py:72-81 | the key is stored until now plus the grace period |
| `ActiveQueries.ActiveQueryTracker.ConsumePendingStopRequest` | backend/src/agent/session/active_query_tracker.py:83-109 | the first unexpired candidate is taken, expired candidates before it go, an empty map is removed |
| `ActiveQueries.ActiveQueryTracker.RegisterActiveQueryTaskWithLimits` | backend/src/agent/session/active_query_tracker.py:130-166 | caps first, per user then in total, then pending stops; only a registration that passes is tracked |
| `ActiveQueries.ActiveQueryTracker.ClearActiveQueryTask` | backend/src/agent/session/active_query_tracker.py:168-184 | one task, or all of a user, is forgotten |
| `ActiveQueries.ActiveQueryTracker.CancelActiveQueryTask` | backend/src/agent/session/active_query_tracker.py:186-253 | exactly the live tasks the request names are cancelled and dropped with finished ones; their stops are cleared, or the request is stored as a stop if there was none |
| `ActiveQueries.ActiveQueryTracker.HasActiveQueryTask` | backend/src/agent/session/active_query_tracker.py:255-281 | whether a live matching task is tracked; finished ones met on the way are dropped |
| `ActiveQueries.ActiveQueryTracker.CountUserTasks` | backend/src/agent/session/active_query_tracker.py:283-303 | live tasks of one user; finished ones are dropped |
| `ActiveQueries.ActiveQueryTracker.CountAllTasks` | backend/src/agent/session/active_query_tracker.py:283-303 | live tasks of everyone; finished ones are dropped |
| `ActiveQueries.ActiveQueryTracker.ClearUserState` | backend/src/agent/session/active_query_tracker.py:305-308 | tasks and stops of the user are gone |
| `Tracking.RegisteredUnlessCappedOrStopped` | backend/src/agent/session/active_query_tracker.py:130-166 | a registration is refused for the per-user cap, the total cap or a stop, each stated in terms of the live tasks and unexpired stops, and for nothing else |
| `Tracking.RegisteredIsTracked` | backend/src/agent/session/active_query_tracker.py:130-166 | a registration that is answered `Registered` leaves its task tracked for the user with its turn and its trimmed conversation, and every other live task of every user as it was |
| `Tracking.RegisteredCanBeCancelled` | backend/src/agent/session/active_query_tracker.py:130-253 | registering and then cancelling by the trimmed turn, by the conversation, or by both, cancels that task |
| `Tracking.StopIsStoredForFiveSeconds` | backend/src/agent/session/active_query_tracker.py:72-81 | a stop is stored until five seconds from now |
| `Tracking.RefusalIsTold` | backend/src/agent/session/active_query_tracker.py:130-166 | which refusal it is: the user's cap comes first, then the total one, then a stop |
| `Tracking.CountingForgetsFinished` | backend/src/agent/session/active_query_tracker.py:110-128 | counting for a cap forgets the finished tasks it counts over, and nothing is forgotten without a cap |
| `Tracking.CancelAnswersStops` | backend/src/agent/session/active_query_tracker.py:236-253 | a cancel that finds tasks takes exactly the stops that reach its own references or those of a task it cancels, and keeps the others with their expiry |
| `Tracking.OnlyNamedTasksGo` | backend/src/agent/session/active_query_tracker.py:168-308 | a live task leaves the tracker only with an operation that names it |
| `Tracking.TaskStaysTracked` | backend/src/agent/session/active_query_tracker.py:130-308 | over every run without such an operation a registered task stays tracked with its references |
| `Tracking.CancelKeepsOthers` | backend/src/agent/session/active_query_tracker.py:186-253 | a cancel keeps the live tasks it does not name |
| `Tracking.ClearKeepsOthers` | backend/src/agent/session/active_query_tracker.py:168-184 | a clear keeps the live tasks it does not name |
| `Tracking.ClearedIsGone` | backend/src/agent/session/active_query_tracker.py:168-184 | what a clear names is no longer tracked |
| `StopProtocol.CancelTakesEffect` | backend/src/agent/session/active_query_tracker.py:186-253 | after a cancel no live task it names is left, other tasks and users are untouched, and a miss stores the stop |
| `StopProtocol.CancelReachesAllIffTrimmed` | backend/src/agent/session/active_query_tracker.py:206-230 | no live task is left that the stop would have blocked if and only if the live tasks it names were registered with trimmed turn references |
| `StopProtocol.UntrimmedTurnEscapesCancel` | backend/src/agent/session/active_query_tracker.py:206-230 | a task registered for a turn with surrounding space survives the cancel of that turn |
| `StopProtocol.StopStaysUnlessReleased` | backend/src/agent/session/active_query_tracker.py:83-253 | an unexpired stop leaves the tracker exactly with an operation that consumes, answers or clears it |
| `StopProtocol.StopBlocksRegistration` | backend/src/agent/session/active_query_tracker.py:130-166 | while a matching stop is stored and unexpired nothing new is tracked |
| `StopProtocol.StopIsHeld` | backend/src/agent/session/active_query_tracker.py:83-253 | over every run until it is released or expires, the stop is held with at least its first expiry |
| `StopProtocol.StoredStopIsNeverLost` | backend/src/agent/session/active_query_tracker.py:83-166 | over every such run each matching registration is turned away |
| `StopProtocol.CancelIsNeverLost` | backend/src/agent/session/active_query_tracker.py:186-253 | a cancel that finds nothing turns away every matching registration of the grace period, however the operations interleave |
| `StopProtocol.CapsHoldInEveryRun` | backend/src/agent/session/active_query_tracker.py:130-184 | with the same caps on every registration, live tasks stay within the per-user and the total cap in every reachable state |
| `SessionConfig.MergeOverrides` | backend/src/agent/session/session_config_service.py:367-381 | keys with a value are overridden, and a change is reported exactly if the overrides differ |
| `SessionConfig.OfferToSessions` | backend/src/agent/session/session_config_service.py:354-361 | free sessions get the configuration, busy ones keep theirs, and a retry is needed exactly if a busy one differs |
| `SessionConfig.SessionConfigService.UpdateSessionConfig` | backend/src/agent/session/session_config_service.py:332-365 | overrides, version, sessions and deferred task after one update |
| `SessionConfig.SessionConfigService.ScheduleDeferredUpdate` | backend/src/agent/session/session_config_service.py:397-405 | a deferred task is created exactly if none is alive |
| `SessionConfig.SessionConfigService.Create` | backend/src/agent/session/manager.py:313-372 | a new session starts with the effective configuration of that moment |
| `SessionConfig.SessionConfigService.ResumeDeferred` | backend/src/agent/session/session_config_service.py:407-436 | snapshot, comparison, write under the session lock and version recheck, each up to its suspension point |
| `SessionConfig.StepKeepsSound` | backend/src/agent/session/session_config_service.py:332-436 | every step of any task keeps the invariant: a snapshot is only relied on while its version is the latest |
| `SessionConfig.ConvergedInEveryRun` | backend/src/agent/session/session_config_service.py:332-436 | in every interleaving without lock hand-overs, whenever no deferred task is alive every session has the configuration of the latest overrides; a task takes at most one snapshot more than the versions that passed during it |
| `SessionConfig.DeferredAdvances` | backend/src/agent/session/session_config_service.py:407-436 | unless it waits for a lock, every step of the deferred task brings it nearer to its end |
| `SessionConfig.DeferredTaskConverges` | backend/src/agent/session/session_config_service.py:407-436 | with no query running and no further update the deferred task ends and leaves every session up to date |
| `SessionConfig.StaleSnapshotIsWritten` | backend/src/agent/session/session_config_service.py:424-432 | a concrete run in which an older snapshot is written over a newer configuration, and the task has to go round again |
| `SessionConfig.UpdateIsOffered` | backend/src/agent/session/session_config_service.py:332-381 | after an update each key has the value the update carries or the one before; sessions that are not busy have the configuration of the new overrides, and a task is created exactly if a busy one differs and none is alive |
| `SessionConfig.LatestValueHolds` | backend/src/agent/session/session_config_service.py:332-381 | in every run each key has the value it was given last |
| `LockHandover.OnwardIsPass` | backend/src/agent/session/session_config_service.py:354-365 | where an update stops, and what it has written and missed by then, in one step: the walk from session to session ends at the first one that is free, spoken for and different |
| `LockHandover.LockIsClaimed` | backend/src/agent/session/session.py:400-416 | a lock is spoken for while a query was promised it, an update is queued for it, or the deferred task waits for it |
| `LockHandover.CaughtIffQueued` | backend/src/agent/session/session.py:400-416 | an update queues if and only if it finds a session that is free but spoken for, and different |
| `LockHandover.UncaughtUpdateIsOneStep` | backend/src/agent/session/session_config_service.py:332-365 | an update that is not caught is the single step of `SessionConfig` |
| `LockHandover.MoveKeepsIff` | backend/src/agent/session/session_config_service.py:332-436 | a move leaves every outdated session covered (by the deferred task, by an update that waits for it, or, with no task alive, by an update that has it before it or will start the task) if and only if it is harmless: not a resumed update with an old configuration that writes an uncovered session without starting the task |
| `LockHandover.KeptIffHarmless` | backend/src/agent/session/session_config_service.py:332-436 | along a run every outdated session stays covered if and only if all moves are harmless |
| `LockHandover.ConvergedIfHarmless` | backend/src/agent/session/session_config_service.py:332-436 | a run of harmless moves that has come to rest (no update suspended, no deferred task) has converged |
| `LockHandover.UncaughtRunIsHarmless` | backend/src/agent/session/session.py:400-416 | a run in which no update finds a lock that is free but spoken for is harmless, so it converges |
| `LeftBehind.UncoveredCanEndStale` | backend/src/agent/session/session_config_service.py:332-436 | from any state an outdated session that is not covered can be left behind: without a further update everything may come to rest with the session out of date |
| `LeftBehind.LeftBehindIffHarm` | backend/src/agent/session/session_config_service.py:332-436 | from a state in which all is covered, a session can be left behind without a further update if and only if a suspended update can still do harm |
| `LeftBehind.HarmlessOrLeftBehind` | backend/src/agent/session/session_config_service.py:332-436 | a run from the start is covered throughout if and only if it does no harm; if it does none it has converged whenever it is at rest, and if it does some, a session can be left behind from some point of it |
| `LeftBehind.CaughtUpdateStays` | backend/src/agent/session/session.py:400-416 | a concrete run in which an update that queued behind a query overwrites a later one, and no task is left to repair it |
| `Rehydrate.RehydrateToolLinkageState.RegisterToolCallIds` | backend/src/api/services/rehydrate_tool_linkage.py:16-22 | non-empty ids become known, and pending unless they already are |
| `Rehydrate.RehydrateToolLinkageState.ConsumeToolOutputToolCallId` | backend/src/api/services/rehydrate_tool_linkage.py:24-38 | a given id is taken out of the queue, otherwise the oldest is |
| `Rehydrate.NormalizeEntry` | backend/src/api/services/rehydrate_entry_normalization.py:44-159 | the entry a row contributes, the error that rejects it, and the linkage after it |
| `Rehydrate.NormalizeCalls` | backend/src/api/services/rehydrate_tool_call_normalization.py:25-68 | calls without an id are dropped, the others carry a trimmed non-empty id |
| `Rehydrate.Execute` | backend/src/api/services/rehydrate_execution.py:65-95 | the replay succeeds exactly on accepted transcripts and returns their entries in order |
| `Rehydrate.PendingIsOpen` | backend/src/api/services/rehydrate_tool_linkage.py:16-38 | pending ids are the open calls, each once, in the order in which they were opened |
| `Rehydrate.PendingIsKnown` | backend/src/api/services/rehydrate_tool_linkage.py:16-38 | pending ids are distinct and known |
| `Rehydrate.KnownIsIssued` | backend/src/api/services/rehydrate_tool_linkage.py:16-22 | known ids are exactly those an earlier row issued |
| `Rehydrate.OpenIffUnanswered` | backend/src/api/services/rehydrate_tool_linkage.py:16-38 | a call is open if and only if it was issued and no later row answered it |
| `Rehydrate.NamelessOutputTakesOldest` | backend/src/api/services/rehydrate_entry_normalization.py:94-98 | a tool row without an id answers the call that has been open longest |
| `Rehydrate.AcceptedIffLinked` | backend/src/api/services/rehydrate_entry_normalization.py:90-116 | a transcript is accepted if and only if every output has a call issued before it, named or open, and every call has a later output |
| `Rehydrate.NamedTranscriptAccepted` | backend/src/api/services/rehydrate_entry_normalization.py:90-116 | when every tool row names an id: accepted if and only if each was issued earlier and each issue has a later tool row naming it |
| `Rehydrate.ReplayedHistoryIsLinked` | backend/src/api/services/rehydrate_execution.py:71-95 | the entries a replay produces are themselves an accepted transcript in which every output names its call |
| `ReplayedMessages.AcceptedTranscriptIsSaid` | backend/src/api/services/rehydrate_entry_normalization.py:44-159 | the entries of an accepted transcript are, in order, one for each row that is not a blank assistant row without calls or a blank bundle trace; each has its row's content, stored type, role, tool name, calls and id, stated on the transcript's own fields |
| `ReplayedMessages.RowIsSaid` | backend/src/api/services/rehydrate_entry_normalization.py:44-159 | the same for one row after any rows before it |
| `ReplayedMessages.EntryCallsAreTaken` | backend/src/api/services/rehydrate_tool_call_normalization.py:25-68 | the calls of an entry are the structured ones with an id, each with its trimmed id, name and arguments, in order |
| `ReplayedMessages.UnnamedOutputIsGivenACall` | backend/src/api/services/rehydrate_entry_normalization.py:90-116 | an output without an id gets that of a call issued before it |
| `Resume.RowMeans` | backend/src/api/services/rehydrate_entry_normalization.py:44-159 | what each stored row means to the replay when it is sent back: calls, an output, an output without a call, or nothing |
| `Resume.LinkedIsAcceptedIff` | backend/src/api/services/rehydrate_entry_normalization.py:90-116 | a history that closes, sent back as a transcript, is accepted if and only if no output was recorded without a call; one that leaves calls open is rejected, as long as no turn issues an id twice |
| `Resume.ResumedIffClosed` | backend/src/api/services/rehydrate_execution.py:65-95 | after every safe run: the stored rows, read as a transcript, are accepted if and only if nothing is staged and no output was recorded without a call |
| `Resume.SecondOutputIsTurnedAway` | backend/src/api/services/rehydrate_entry_normalization.py:90-116 | one call with two outputs: a safe run with nothing staged whose rows the replay turns away |
| `Checkpoint.CleanRefsTwice` | backend/src/agent/session/model_history_ledger.py:12-17 | cleaning image references twice is cleaning them once |
| `Checkpoint.SelectEntries` | backend/src/api/services/rehydrate_execution.py:103-138 | rows of another conversation or revision stop the installation; otherwise system rows are taken out and the first non-empty one is the prompt |
| `Checkpoint.BuildStored` | backend/src/agent/session/state.py:373-425 | entries become stored rows by role and type, assistant rows that say nothing are left out |
| `Checkpoint.InstallModelHistory` | backend/src/api/services/rehydrate_execution.py:103-138 | all rows are installed, or none and the history is unchanged |
| `Checkpoint.RowRoundTrip` | backend/src/agent/session/model_history_ledger.py:20-41 | a row comes back as it was exported if and only if it is stable |
| `Checkpoint.RoundTripIffStable` | backend/src/agent/session/model_history_ledger.py:44-81 | export, install, export gives identical rows if and only if every row is stable (no system row, no user row typed as an answer, every assistant row replayable, no empty tool name) |
| `Checkpoint.ReachableRoundTrip` | backend/src/agent/session/model_history_ledger.py:44-81 | for every reachable history the round trip is exact if and only if no tool name is empty |
| `Checkpoint.EmptyNameIsLost` | backend/src/agent/session/model_history_ledger.py:44-81 | a reachable history with an empty tool name whose second export differs from the first |
| `Checkpoint.RowReturnsIffStable` | backend/src/agent/session/model_history_ledger.py:20-41 | a row that is exported and installed is the stored row again, with its time and cleaned image references, if and only if it is stable |
| `Checkpoint.RowsReturnIffStable` | backend/src/agent/session/model_history_ledger.py:44-81 | the same for all rows of a history |
| `Checkpoint.ReachableHistoryReturns` | backend/src/api/services/rehydrate_execution.py:103-138 | the checkpoint of a reachable history can be installed in its conversation and revision over any history, and gives its rows back if and only if no tool name is empty |
| `Checkpoint.EveryRowIsExported` | backend/src/agent/session/model_history_ledger.py:20-41 | an exported row has the role, content, type, calls, ids and facts of the stored row, its cleaned references and its number |
| `Checkpoint.ExportNames` | backend/src/agent/session/model_history_ledger.py:44-81 | the trimmed conversation, revision and turn name the checkpoint |
| `Checkpoint.PaddedReadsBack` | backend/src/agent/session/model_history_ledger.py:20-41 | row numbers have at least four digits and read back |
| `Checkpoint.RefsAreCleanedOneByOne` | backend/src/agent/session/model_history_ledger.py:12-17 | cleaning trims each image reference by itself and drops the blank ones |
| `Checkpoint.FirstPromptWins` | backend/src/api/services/rehydrate_execution.py:103-138 | the prompt is that of the first system row that says something, and exactly the other rows become messages |
| `Checkpoint.PromptIsInstalled` | backend/src/api/services/rehydrate_execution.py:103-138 | an installation without such a row keeps the prompt there was |
| `Json.ValidateDepth` | backend/src/llm/parser_extraction.py:207-223 | the check with an explicit stack accepts exactly the values nested no deeper than the limit |
| `Json.DepthIsDeepest` | backend/src/llm/parser_extraction.py:207-223 | a value is one deeper than the deepest of its items or fields |
| `EmbeddedJson.TryAt` | backend/src/llm/parser_extraction.py:95-134 | what becomes of the object at one position: taken, skipped, or the scan ends |
| `EmbeddedJson.ParseEmbeddedJson` | backend/src/llm/parser_extraction.py:70-136 | a scan that does not raise returns the calls of the greedy specification and the text without them; it raises only for that reason or for the clock |
| `EmbeddedJson.GreedyIsComplete` | backend/src/llm/parser_extraction.py:82-134 | taken intervals are calls, in order and apart, and no call outside them is missed |
| `EmbeddedJson.ExtractionIsUnique` | backend/src/llm/parser_extraction.py:82-134 | there is only one such list of intervals |
| `EmbeddedJson.ScanIsGreedyLeftmost` | backend/src/llm/parser_extraction.py:82-134 | the intervals of a scan are characterised, both ways, as the complete ordered disjoint list of calls |
| `EmbeddedJson.MergeSorted` | backend/src/llm/parser_extraction.py:273-284 | the merge loop joins what touches or overlaps |
| `EmbeddedJson.RemoveExtractedByPositions` | backend/src/llm/parser_extraction.py:262-304 | no interval, one interval and several are treated as three cases |
| `EmbeddedJson.RemovedIsUncovered` | backend/src/llm/parser_extraction.py:262-304 | for valid intervals in any order, overlapping or not, the result is the normalised text of exactly the characters in none of them |
| `EmbeddedJson.ScanLeavesTheRest` | backend/src/llm/parser_extraction.py:70-136 | after a scan the response is unchanged, or the normalised text of the characters outside the calls found |
| `EmbeddedJson.InvalidSpoilsValid` | backend/src/llm/parser_extraction.py:273-292 | intervals are merged before they are checked: an invalid one keeps a valid one from being deleted |
| `EmbeddedJson.NormalizedIsStable` | backend/src/llm/parser_extraction.py:337-339 | normalised text has no three newlines in a row and no outer space, and normalising again changes nothing |
| `ScanFindings.OutcomeIs` | backend/src/llm/parser_extraction.py:95-134 | an object is taken exactly if it is read within the scanned text, small and shallow enough, looks like a call and is accepted; it ends the scan exactly if it is a call too large, too deep, or firmly rejected |
| `ScanFindings.ScanFindsAll` | backend/src/llm/parser_extraction.py:70-136 | a scan returns, in order, every such call outside the earlier ones, and fails if and only if it meets an object that ends it outside them |
| `ScanFindings.RestIsKept` | backend/src/llm/parser_extraction.py:262-339 | what is left are the characters outside the calls, in order, without third newlines in a row and outer space |
| `LocalDefs.ResolvingKeepsEveryLeaf` | backend/src/sdk/tool.py:170-212 | every path leads to the same text or literal in the resolved schema as through references and one-element wrappers of the original, own members first |
| `LocalDefs.FuelDoesNotMatter` | backend/src/sdk/tool.py:178-210 | the result does not depend on how much nesting is allowed for, once it is enough |
| `LocalDefs.ResolvedIsCleanIffTidy` | backend/src/sdk/tool.py:170-212 | no object of the result refers to a definition that is an object, if and only if no `$ref` that nothing overrides holds wrapped text of such a reference |
| `LocalDefs.ResolvedSchemaIsClean` | backend/src/sdk/tool.py:170-212 | the same for a whole schema with its own definitions, on which the resolver ends |
| `LocalDefs.WrappedSchemasAreTidy` | backend/src/sdk/tool.py:170-212 | where one-element `allOf`s wrap schemas, as JSON Schema demands, that is always so |
| `LocalDefs.WrappedTextBecomesReference` | backend/src/sdk/tool.py:197-208 | text wrapped in a one-element `allOf` under `$ref` becomes a reference that is left in the result |
| `LocalDefs.ReferenceIsReplaced` | backend/src/sdk/tool.py:184-195 | an object with a reference becomes the resolved definition under its own other members, resolved |
| `LocalDefs.WrapperIsFlattened` | backend/src/sdk/tool.py:197-208 | an object with a one-element `allOf` becomes that element, resolved, under its own other members |
| `LocalDefs.OthersKeepTheirMembers` | backend/src/sdk/tool.py:210-210 | any other object keeps its members, resolved, but for `$defs` |
| `LocalDefs.ItemsAreResolved` | backend/src/sdk/tool.py:178-182 | a list is resolved item by item, other values stay |
| `LocalDefs.SchemaKeepsItsMembers` | backend/src/sdk/tool.py:170-212 | a schema without definitions is returned as it is |
| `ReferenceCycles.TerminatesIffNoCycle` | backend/src/sdk/tool.py:178-210 | the resolver ends on a node if and only if no chain of references from it, at any depth, meets a definition twice; it then nests no deeper than there are definitions |
| `ReferenceCycles.LeadsIffRefers` | backend/src/sdk/tool.py:184-210 | a node refers to a definition by its own `$ref`, or through any member that is resolved, the members beside `$ref` and `allOf` included |
| `ReferenceCycles.CycleNeverEnds` | backend/src/sdk/tool.py:178-210 | a chain of references of any length that returns to a definition never ends |
| `ReferenceCycles.TerminatesIffRanked` | backend/src/sdk/tool.py:178-210 | the resolver ends on a node if and only if the definitions it reaches can be ranked so that each refers to lower ones only |
| `ReferenceCycles.AllTerminateIffRanked` | backend/src/sdk/tool.py:178-210 | the same for all definitions at once |
| `ReferenceCycles.RecursiveModelNeverEnds` | backend/src/sdk/tool.py:178-210 | the resolver does not end on the definition that a model with a field of its own type produces |
| `ToolSelection.FilterToolNames` | backend/src/tools/tool_selection.py:69-92 | names kept in order: enabled, and with a coordinate method left |
| `ToolSelection.FilterConditionalRules` | backend/src/tools/tool_selection.py:258-279 | rules for methods that are not allowed are dropped, an empty list of rules goes too |
| `ToolSelection.FilterGroundedToolSchema` | backend/src/tools/tool_selection.py:128-178 | a grounded tool is dropped or its copy pruned for source and drag destination |
| `ToolSelection.FilterToolSchemas` | backend/src/tools/tool_selection.py:94-126 | schemas kept in order, grounded ones pruned |
| `ToolSelection.FilteredTwice` | backend/src/tools/tool_selection.py:94-178 | filtering a survivor again changes nothing, and it keeps its name |
| `ToolSelection.NothingDisallowedSurvives` | backend/src/tools/tool_selection.py:128-279 | a surviving grounded schema has no enum value, default, method-specific field or detected rule for a method that is not allowed, if and only if it has properties, or its rules named none to begin with |
| `ToolSelection.UnprunedExample` | backend/src/tools/tool_selection.py:151-155 | a schema without properties keeps its rule for OCR although only manual coordinates are allowed |
| `ToolSelection.ExactlyAllowedRules` | backend/src/tools/tool_selection.py:258-279 | a rule survives if and only if it was there and names no method or an allowed one |
| `ToolSelection.PruningKeepsTheRest` | backend/src/tools/tool_selection.py:195-256 | everything else in parameters and properties stays as it was |
| `ToolSelection.EachFieldIsChecked` | backend/src/tools/tool_specs.py:37-52 | each field of a function spec is checked by itself; description and strictness may be missing or null |
| `ToolSelection.NameIsKeptIffWanted` | backend/src/tools/tool_selection.py:43-92 | a name is kept if and only if its tool, or the tool it derives from, is on the allowlist or not on the denylist, and a tool that needs coordinates has a way to find them |
| `ToolSelection.WantedNamesArePicked` | backend/src/tools/tool_selection.py:69-92 | the names kept are exactly those, in order |
| `ToolSelection.SchemaIsKeptIffWanted` | backend/src/tools/tool_selection.py:94-178 | a schema is kept if and only if its name is, one without a name unless there is an allowlist; only the parameters of grounded tools change |
| `ToolSelection.FieldsFollowMethods` | backend/src/tools/tool_selection.py:195-239 | a grounded tool keeps a property if and only if every method that needs it may be used |
| `ToolSelection.ChoiceKeepsTheRest` | backend/src/tools/tool_selection.py:241-256 | the choice of a method keeps all but its type, values and default |
| `ToolSelection.AllowedDefaultStays` | backend/src/tools/tool_selection.py:241-256 | a default that may be used stays the default |
| `ToolSelection.FoundIsMentioned` | backend/src/tools/tool_selection.py:281-316 | the method found for a condition is one it mentions, and one is found if it mentions any |
| `ToolSelection.RuleStaysOrGoes` | backend/src/tools/tool_selection.py:258-279 | a rule that mentions no method, or only allowed ones, stays; one that mentions only others goes |
| `ToolPolicy.FilterProjectedToolSchemas` | backend/src/tools/tool_policy.py:84-112 | objects without a tool name pass, named schemas are filtered one by one, anything else is dropped |
| `ToolPolicy.NamesOfFilteredAreFilteredNames` | backend/src/tools/tool_policy.py:42-82 | for function specs, filtering schemas and taking names equals filtering the names |
| `ToolPolicy.FilteringIsFinal` | backend/src/tools/tool_policy.py:59-112 | filtering again changes nothing, and for objects neither does the filter after projection |
| `ToolPolicy.NamesLetThrough` | backend/src/tools/tool_policy.py:42-57 | exactly the names that web search, disabled tools, allowlist and selection let through are kept, in order |
| `ToolPolicy.SchemasLetThrough` | backend/src/tools/tool_policy.py:59-82 | the same for schemas, each as the selection prunes it; an entry without a name passes unless there is an allowlist |
| `Transcript.TakeFromStart` | backend/src/agent/compaction/prompt.py:139-155 | as many leading blocks as fit, or a first block that is too long cut to the budget |
| `Transcript.TakeFromEnd` | backend/src/agent/compaction/prompt.py:158-174 | the same from the end, in the original order |
| `Transcript.RenderSegmentedHistory` | backend/src/agent/compaction/prompt.py:87-136 | three sections under their headings, and a final cut |
| `Transcript.SectionsAreWithinBudgets` | backend/src/agent/compaction/prompt.py:87-174 | each section stays within its budget |
| `Transcript.BudgetsAddUp` | backend/src/agent/compaction/prompt.py:98-103 | from 577 characters on the three budgets use exactly what the headings leave |
| `Transcript.BudgetsCollideBelow` | backend/src/agent/compaction/prompt.py:98-103 | below that the budgets promise more than fits |
| `Transcript.FinalCutNeverFires` | backend/src/agent/compaction/prompt.py:133-136 | with 577 characters or more the sections are shown in full |
| `Transcript.TranscriptIsBounded` | backend/src/agent/compaction/prompt.py:39-136 | whatever the blocks, the transcript has at most max(limit, 4) characters |
| `Transcript.SectionsAreDisjointAndInOrder` | backend/src/agent/compaction/prompt.py:105-121 | head, middle and tail are picked, in order, from three consecutive stretches of the blocks; each shown block is its original or a marked beginning of it |
| `Transcript.ShortConversationIsShown` | backend/src/agent/compaction/prompt.py:39-60 | a conversation that fits is shown whole, block by block |
| `Transcript.SectionsTakeMost` | backend/src/agent/compaction/prompt.py:105-174 | head and tail are as many blocks as fit, the middle prefers signal blocks, user queries and summaries, if there are any; a block too long for its section is cut to exactly the budget |
| `Transcript.LongConversationIsShown` | backend/src/agent/compaction/prompt.py:87-136 | with 577 characters or more a longer conversation is the three sections under their headings, uncut |
| `Transcript.SectionsAreCut` | backend/src/agent/compaction/prompt.py:87-136 | any longer conversation is its sections under the headings, cut to the limit |
| `Transcript.FinalCutIsExact` | backend/src/agent/compaction/prompt.py:133-136 | what is too long is cut to exactly the limit with its mark; a limit below four characters leaves the mark |
| `Transcript.SmallBudgets` | backend/src/agent/compaction/prompt.py:98-103 | head and tail have their shares or 256 characters, the middle what is left |
| `ProviderRetry.ReadStream` | backend/src/agent/llm/llm_stream_processor.py:187-225 | the stream is folded event by event until an error or fault ends it |
| `ProviderRetry.Sample` | backend/src/agent/llm/llm_stream_processor.py:146-305 | one attempt: stream or native text, response, token count, and what each fault does |
| `ProviderRetry.GetResponse` | backend/src/agent/llm/llm_stream_processor.py:146-305 | attempts follow each other while the last one asks for a retry |
| `ProviderRetry.RetriedOnlyUnseen` | backend/src/agent/llm/retry_policy.py:41-60 | an attempt is retried only within the budget and if nothing of it can be seen |
| `ProviderRetry.ResponseIsWhatWasShown` | backend/src/agent/llm/llm_stream_processor.py:146-297 | at most two attempts, none after visible output; for streams without full-response events the text of the response is exactly the chunks yielded across all attempts; a run that ends without a response has said why last |
| `ProviderRetry.StreamTracks` | backend/src/agent/llm/stream_processor_helpers.py:29-50 | while a stream is read the flag says whether anything was shown, and the text is what the chunks showed |
| `ProviderRetry.RetriesIff` | backend/src/agent/llm/retry_policy.py:46-98 | an error is retried if and only if it is the first, nothing was shown or received, it is not marked final, and its status, kind, flags or words tell of trouble that may pass |
| `ProviderRetry.CleanStream` | backend/src/agent/llm/stream_processor_helpers.py:29-50 | a stream without errors shows its chunks one for one; its text is the last full text and the chunks after it |
| `ProviderRetry.StreamEndsAt` | backend/src/agent/llm/llm_stream_processor.py:187-225 | every stream is without errors up to its end, or to the first error or unknown event |
| `ProviderRetry.StreamErrorIsHandled` | backend/src/agent/llm/llm_stream_processor.py:187-225 | an error event ends the attempt with its own words after what was shown, or asks for a retry |
| `ProviderRetry.UnsupportedIsHandled` | backend/src/agent/llm/llm_stream_processor.py:187-225 | an unknown event ends the attempt with a failure |
| `ProviderRetry.FaultIsHandled` | backend/src/agent/llm/llm_stream_processor.py:146-305 | a fault of the call is told in its own words after what was shown, or asks for a retry |
| `ProviderRetry.TextIsTheResponse` | backend/src/agent/llm/llm_stream_processor.py:146-305 | an attempt without fault ends with the text received, word for word, and its token count |
| `ProviderRetry.SecondAttemptIsMade` | backend/src/agent/llm/llm_stream_processor.py:146-305 | an attempt that asks for a retry is followed by the second, and the user sees both |
| `ProviderRetry.GatewayErrorIsRetried` | backend/src/agent/llm/llm_stream_processor.py:146-305 | a 502, 503 or 504 before anything was received is retried, and the second stream is the response |
| `PromptLayers.ValidateClientPromptLayers` | backend/src/agent/session/prompt_layers.py:17-85 | accepted and rejected layers of one validation |
| `PromptLayers.ValidationIsOrdered` | backend/src/agent/session/prompt_layers.py:17-85 | accepted layers strictly rise by priority, id and revision with priorities in 0..1000; every layer is accepted or rejected; exactly the first valid layer of each identity is accepted |
| `PromptLayers.ValidatingTwice` | backend/src/agent/session/session.py:759-796 | a second validation of the accepted layers rejects nothing and returns the same list |
| `PromptLayers.LessIsTotal` | backend/src/agent/session/prompt_layers.py:76-82 | the sort key orders any two layers of different identity one way only |
| `PromptLayers.ReadIs` | backend/src/agent/session/prompt_layers.py:33-75 | a layer is accepted exactly if id, type and content are usable, and holds them trimmed; otherwise the first that is not is the reason |
| `PromptLayers.RejectedExactly` | backend/src/agent/session/prompt_layers.py:33-75 | the rejections are exactly these, and duplicates of an earlier valid layer |
| `PromptLayers.AcceptedAreOrdered` | backend/src/agent/session/prompt_layers.py:76-82 | lower priorities come first, then ids, then revisions in alphabetical order |

## Left out

- ActiveQueries.ActiveQueryTracker.CancelActiveQueryTask: returns the references of some cancelled task where the source returns those of the last one in insertion order, because tracked tasks are a map without an order.
- EmbeddedJson.RemovedIsUncovered: stated for valid intervals, the only ones the scanner and the call remover pass.
- ProviderRetry.ResponseIsWhatWasShown: equality with the chunks is stated for streams without full-response events; with them the response is the last full text and what follows it.
- SessionConfig.ConvergedInEveryRun: runs have one user and no `set_client_tool_manifest`, `update_all_sessions_config`, session end or failing apply, which do not take part in the version protocol; building a configuration is a function of the overrides, so a change of provider health between two builds is not modelled.
- SessionConfig.SessionConfigService.UpdateSessionConfig: one step, which holds for an update that is not caught (`LockHandover.UncaughtUpdateIsOneStep`).
- LockHandover.KeptIffHarmless: suspended updates keep the order in which they began to wait for a lock, but queries and the deferred task may take a free lock before them; and the deferred task may pause between any two sessions.
- LeftBehind.UncoveredCanEndStale: the moves are those of the model, with these liberties of queries and deferred task.
- StopProtocol.CapsHoldInEveryRun: the caps are the same on every registration.
- LoopLinkage.RunKeepsLinkage: asks for closed compactions, which `LoopCompaction.EngineRunKeepsLinkage` proves of the engine's own; what a recoverable error and a tool turn without output leave open is said by `Linkage.RecoverableErrorOrphans` and `LoopLinkage.ToolTurnIsLinked`.
- LoopCompaction.EngineRunKeepsLinkage: asks that nothing is staged when a summary is committed, which `LoopCompaction.CommitKeepsLinkageIff` proves to be needed; recoverable errors and tool turns without output as for `LoopLinkage.RunKeepsLinkage`.
- Resume.ResumedIffClosed: about a history's rows read as a transcript. The backend reinstalls its own rows through the checkpoint (`Checkpoint.RoundTripIffStable`), and the transcripts it replays come from a client. Tool names are not those of the internal bundles, whose rows the replay turns into plain text.
- ToolSelection.UnprunedExample: a schema that the manifest validation would reject for its key `if` (backend/src/tools/client_manifest.py:31-59), so no client can send it.
- Transcript.FinalCutNeverFires: the two shares may be any whole numbers within rounding of 28 and 47 per cent, instead of the floating-point products.
- HistoryRuns.DriftInEveryRun: text rows only; image parts add nothing to the model's count.
- Image data, structured content, memories and the raw user query of stored rows: the model keeps text, roles, types, references, calls and facts.
- The compaction trigger (`evaluate`), previews and event payloads: decisions are inputs of the model.
- Trace events, timing, logging, token usage reports and error sanitising.
- Rendering of one message as a transcript block: blocks are inputs.
- Image artifacts, transparency content and the system prompt of a rehydrated transcript; the variants in which raw tool calls spell name and arguments.
- Lower-casing beyond ASCII letters, where type names, finish reasons and error texts are compared.
- `_clean_schema`, the validation errors of tool arguments and the assembly of a selection from configuration.
- `parse_json_response` and `remove_extracted_calls`; the decoder, schema and validator are functions whose outcome decides.
- The name in a rejection of a prompt layer, which is the layer's id where it has one: the model keeps the index.
- `int(value)` of an infinite priority, which raises instead of falling back.
- VM run control, tool-result futures and query completion: their helpers are not part of this model.
- Routes, websocket transport, storage, speech, wake word, embeddings and the frontend: plumbing.
