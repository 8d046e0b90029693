# Verified model of the agent runtime

DPAgent runs a language model in a loop: it keeps a list of messages, sends it to a provider, executes
the tool calls of the answer, and recovers from everything that can go wrong on the way. This project
models the parts of that runtime with the most state and proves what they keep, in Dafny 4.11.
`dafny verify dfyconfig.toml` checks all of it.

Everything hangs together on one notion, the *tool protocol*: an assistant turn with calls is followed
directly by exactly one result for each call, and no result stands elsewhere (`ToolProtocol.WellFormed`).
Providers reject histories that break it.

| file | what it models |
|---|---|
| `text.dfy`, `numbers.dfy`, `messages.dfy` | string operations of the JavaScript library; increasing lists of positions; messages and tool calls |
| `tool_protocol.dfy` | the tool protocol, its analyser and the sanitiser that restores it |
| `window_trim.dfy`, `context_overflow.dfy` | trimming to the context window, compaction of completed tool chains, compression after a cut-off answer |
| `precompress.dfy`, `history_reduction.dfy` | splitting off old rounds, chunking, compression with retries, replacing the stored history |
| `message_store.dfy`, `tool_calls.dfy` | checkpoint ids, pending summaries; the tool phase of a turn |
| `llm_attempts.dfy`, `agent_run.dfy` | the recovery ladder around one provider request; the main loop of a run |
| `run_history.dfy`, `history_checkpoints.dfy` | the stored history, its checkpoint ids and every payload over any number of runs |
| `run_edits.dfy` | what a run does to the stored history, generated from what it meets |
| `side_effect_ledger.dfy` | recovery of an interrupted turn: the replay cut and the ledger fold |
| `agent_profiles.dfy` | the profile tag: printer, parser, normalisation of a whole history |
| `arena_store.dfy`, `arena_workspace.dfy` | runs and branches of an arena; workspace hash, difference and application |
| `auto_loop.dfy` | cosine similarity of outputs and the controller that stops on repetition |
| `asr_lines.dfy`, `asr_requests.dfy`, `asr_slots.dfy` | the speech worker: line splitting, pending requests, concurrency slots |
| `required_operations.dfy` | the greedy validator of required operations |

Provider, hooks, tools, compressors and the order of concurrent steps are arbitrary: functions, scripts
or event lists over which every theorem quantifies. Code that changes state step by step is a class or a
method with loops, proved equal to a specification function; the theorems are about those functions. What an
operation does is stated a second time as a relation between what goes in and what comes out, in the fields of
both and without the functions that compute it (`TrimLeaves`, `LeftAsScripted`, `ToldAtEnd`, `Cause`, `Records`,
`HasEffect`, `IsVerdict` and others); the methods ensure it, and lemmas prove it of the functions.

## Where the code does not do what one would expect

Each of these is proved, with the exact condition under which the expected property does hold; lemmas about
concrete inputs show the failures.

- Compaction inserts its summary at a fixed place, and a bundle that reaches over it is broken
  (`ContextOverflow.CompactionWellFormedIff`, `StraddlingWitness`). A compression behind it cuts the break away
  again; a deterministic trim does so only when it keeps no more than the untouched last messages. Either
  breaks a bundle of its own when what it keeps starts with a result (`CompressionAfterCompactionIff`,
  `TrimAfterBreakIff`, `RecoveryWellFormedIff`).
- A cancelled tool phase leaves its bundle open in the stored history, where it stays until a forced trim,
  a precompression, a summary or a reduction that keeps none of it repairs it; what is sent is repaired each
  time (`RunHistory.OpenBundleStays`, `StandsIff`).
- `resetRunState` zeroes the checkpoint counter but keeps the messages, so a later run mints ids again
  (`Store.MintAfterReset`, `Store.TwoRunsShareAnId`); between two starts of a run no id is doubled whatever is
  done (`HistoryCheckpoints.UniqueBetweenResets`, `ResetKeepsIdsIff`).
- After a blocked tool call a checkpoint is handed out in the middle of the bundle; it is replay-safe only
  if the blocked call is the last, and the ledger built from it can lose a call's arguments
  (`ToolCalls.BlockedCheckpointSafeIff`, `SideEffectLedger.BlockedCheckpointLosesArguments`).
- The protocol ignores blanks around call ids, the ledger's lookup of calls does not: with such an id a
  well-formed turn loses its arguments (`SideEffectLedger.EntriesOfWellFormed`, `BlankInIdLosesArguments`).
- A run without a configured provider returns without reporting a completion, and a run started while
  another is active throws without reporting an error (`AgentRun.Agent.RunWithResult`).
- The retry counter of chunk compression takes a first message that quotes the retry marker for its own
  notice and reports one dropped message too few (`Precompress.SourceConserved`, `MarkerInSourceMiscounts`).
- Profile normalisation is not idempotent when a rewritten message is left with text that reads as a
  profile body (`AgentProfiles.NormalizeIdempotentIff`, `NormalizingTwiceDiffers`). A path ending in an unclosed
  body marker makes the printed tag itself complete that marker (`RoundTripIff`, `OpenMarkerLosesThePrompt`).
- A summary request may ask for up to 1000 checkpoints but only the latest 200 are ever listed
  (`Store.MessageStore.EnqueueSummaryApply`).
- A winner picked in draft dangles when a later change of the contestants cuts it off
  (`ArenaStore.WinnerAfterUpdateIff`, `DanglingWinnerWitness`).
- Applying a workspace difference refuses a file whose path begins with two dots, such as `..cache`, and a
  name with a backslash is silently carried nowhere (`ArenaWorkspace.ReconcilesIff`, `DottedNameIsRefused`,
  `BackslashIsLost`).
- A worker's line `null`, or a result for a pending request that is neither text nor object, throws where
  nothing catches; the process that hosts the service then ends (src/web/server/index.ts:28-31). It lives
  exactly as long as no such line arrives (`AsrRequests.SurvivesIff`). A request id used twice lets the
  first timer take down the second request (`ReusedIdLosesTheLater`).
- A woken waiter counts itself as active only when it runs again, so a newcomer can overtake it and the
  concurrency bound breaks; a stop breaks it whenever somebody waits (`AsrSlots.BoundKeptIff`,
  `OvertakingExceedsTheBound`).
- The operation validator is sound but not complete. First-fit misses an assignment when a broad operation
  comes before a narrow one that shares a call with it (`RequiredOperations.PairNeverMissesIff`,
  `GreedyMissesAnAssignment`); and a verification before the write is flagged although another follows it
  (`VerdictIff`, `EarlyVerificationIsFlagged`).

## Model

| member | source | states |
|---|---|---|
| `ToolProtocol.AnswersIsPermutation` | src/llm/tool-protocol-analyzer.ts:18-27 | distinct usable result ids that all belong to called ids, as many as the calls, answer every call exactly once |
| `ToolProtocol.AnalyzeAssistantToolBundle` | src/llm/tool-protocol-analyzer.ts:37-127 | the id-matching scan accepts a bundle exactly when it is closed, and lists its results in the order of the calls |
| `ToolProtocol.SanitizeMessagesForToolProtocol` | src/llm/message-preparation.ts:20-102 | the loop with its index jumps computes the sanitised list and both counters of the recursive specification |
| `ToolProtocol.SanitizedIsWellFormed` | src/llm/message-preparation.ts:20-102 | whatever the history, the sanitised list obeys the tool protocol |
| `ToolProtocol.NothingCorrectedIff` | src/llm/message-preparation.ts:20-102 | no correction is counted exactly when the list already obeyed the protocol |
| `ToolProtocol.SanitizedLength` | src/llm/message-preparation.ts:20-102 | nothing is lost: the list grows by one note for each dropped call |
| `ToolProtocol.SanitizeFixpointIff` | src/llm/message-preparation.ts:20-102 | sanitising leaves a list alone exactly when it is well-formed with results in call order |
| `ToolProtocol.SanitizeIdempotent` | src/llm/message-preparation.ts:20-102 | a second pass changes nothing |
| `ToolProtocol.SanitizedCarries` | src/llm/message-preparation.ts:20-102 | nothing that was said is lost and nothing invented: every message is kept, or kept without its calls, or, a result without its call, noted with its id, its tool and the first 500 characters of its text; every message that comes out is one of these or names the dropped calls and how many results were seen |
| `ToolProtocol.CorrectionsCounted` | src/llm/message-preparation.ts:20-102 | the counters are the numbers of results and of calling turns that are there before and not after |
| `ToolProtocol.SanitizedAppend` | src/llm/message-preparation.ts:20-102 | a plain message at the end is sanitised by itself, whatever stands before it |
| `ToolProtocol.AnalyzeToolProtocol` | src/llm/tool-protocol-analyzer.ts:129-170 | the counting loop equals its specification |
| `ToolProtocol.ReplaySafeIffWellFormed` | src/llm/tool-protocol-analyzer.ts:129-170 | both counters are zero exactly for well-formed lists |
| `ToolProtocol.FoundIsCorrected` | src/llm/tool-protocol-analyzer.ts:129-170 | the replay check counts just what sanitising corrects, for every history |
| `ToolProtocol.AssertReplaySafeToolProtocol` | src/llm/tool-protocol-analyzer.ts:176-184 | replay accepts exactly the well-formed histories |
| `ToolProtocol.WellFormedSplit` | src/llm/tool-protocol-analyzer.ts:129-170 | cutting a well-formed list leaves two well-formed halves exactly when the cut is not before a result |
| `WindowTrim.SelectLatest` | src/llm/message-preparation.ts:256-269 | the backwards loop finds the longest suffix that fits the budget or the guaranteed count |
| `WindowTrim.TrimMessagesForContextWindow` | src/llm/message-preparation.ts:216-300 | returns the trim, told by what is in and what comes out: within the limit unchanged; else the system message, a guard with both counts, and the last messages, each with its own text shortened under the cap of its role; those over the guaranteed number fit max(1000, limit - system - 220), and the last one that went would not have |
| `WindowTrim.FittingSuffix` | src/llm/message-preparation.ts:251-270 | if messages were dropped, the guaranteed number survived, one more would not have fitted, and the survivors beyond it are within the budget |
| `WindowTrim.IsTrimIff` | src/llm/message-preparation.ts:216-300 | the description of a trim (longest suffix that fits, notice, counts) is met by exactly one result, the one the function gives |
| `WindowTrim.TrimmedLeaves` | src/llm/message-preparation.ts:192-300 | the specified trim is that for every history, options and measure |
| `WindowTrim.NormalizingKeepsProtocol` | src/llm/message-preparation.ts:192-211 | shortening texts neither helps nor harms the protocol |
| `WindowTrim.TrimmedWellFormedIff` | src/llm/message-preparation.ts:216-300 | a trimmed well-formed history is well-formed exactly when its first survivor is not a result |
| `ContextOverflow.CompactFront` | src/agent/ContextOverflowHandler.ts:116-171 | one round of the head loop: a completed chain is recognised by usable distinct ids and aligned results, and skipped with its surplus |
| `ContextOverflow.CompactHead` | src/agent/ContextOverflowHandler.ts:106-174 | the index loop with its jumps computes the specified pass over the head |
| `ContextOverflow.HeadConserved` | src/agent/ContextOverflowHandler.ts:106-174 | every head message is kept, counted as compacted, or surplus |
| `ContextOverflow.CompactedWellFormedHead` | src/agent/ContextOverflowHandler.ts:106-174 | over a well-formed head every bundle goes, everything else stays in order, nothing is surplus |
| `ContextOverflow.CompactionCount` | src/agent/ContextOverflowHandler.ts:98-193 | sizes add up for any history: output + compacted + surplus = input + 1 |
| `ContextOverflow.CompactionCountWellFormed` | src/agent/ContextOverflowHandler.ts:98-193 | for a well-formed history output = input - compacted tool messages + 1, wherever the cut falls |
| `ContextOverflow.CompactionKeepsTalk` | src/agent/ContextOverflowHandler.ts:98-193 | with the cut between bundles: every head bundle is gone, all else in order, the last 20 untouched behind the summary |
| `ContextOverflow.CompactionWellFormedIff` | src/agent/ContextOverflowHandler.ts:98-193 | compaction of a well-formed history is well-formed exactly when nothing was compacted or the cut is not inside a bundle |
| `ContextOverflow.CompactedLeaves` | src/agent/ContextOverflowHandler.ts:98-193 | for any history, told by positions: kept is what lies outside the completed bundles and the results that directly follow them; the counts are those of the bundles |
| `ContextOverflow.StraddlingWitness` | src/agent/ContextOverflowHandler.ts:98-193 | a well-formed history with a bundle over the cut, which the compaction breaks |
| `ContextOverflow.CompressionWellFormedIff` | src/agent/ContextOverflowHandler.ts:195-244 | the compressed history is well-formed exactly when its tail does not start with a result |
| `ContextOverflow.RecoveredLeaves` | src/agent/ContextOverflowHandler.ts:195-255 | the specified reduction is that for every history and answer |
| `ContextOverflow.CompressionAfterCompactionIff` | src/agent/ContextOverflowHandler.ts:98-244 | whatever the compaction broke, a compression behind it cuts the break away: the result is well-formed exactly when the kept tail of the original history does not start with a result |
| `ContextOverflow.TrimAfterBreakIff` | src/agent/ContextOverflowHandler.ts:98-255 | a trim behind a compaction that broke a bundle is well-formed exactly when it leaves the break behind and starts with no result |
| `ContextOverflow.RecoveryWellFormedIff` | src/agent/ContextOverflowHandler.ts:98-255 | compaction with either reduction behind it keeps the protocol exactly when it cuts into no bundle, broken or not in between |
| `ContextOverflow.RecoveryKeepsIff` | src/agent/ContextOverflowHandler.ts:195-255 | for any history, also one that breaks the protocol: the reduced one obeys it exactly when the stretch left as it is does |
| `ContextOverflow.ContextOverflowHandler.CompactCompletedToolHistory` | src/agent/ContextOverflowHandler.ts:98-193 | leaves every message but those of the completed bundles before the last twenty, in order, with one note of how many bundles and messages went in front of those twenty; unchanged when there is no such bundle |
| `ContextOverflow.ContextOverflowHandler.ApplyForcedTrim` | src/agent/ContextOverflowHandler.ts:72-84 | whatever the history, the result is the sanitised trim and obeys the protocol; a canonical history within the limit is returned unchanged; all four counts |
| `ContextOverflow.ContextOverflowHandler.CompressForMaxTokensRecovery` | src/agent/ContextOverflowHandler.ts:195-244 | two messages or fewer stay; with more than eighteen behind the system message and a usable answer the history is that answer, up to 10000 characters, before the last sixteen; otherwise it is a trim; and the reason reported |
| `ContextOverflow.ContextOverflowHandler.ApplyDeterministicTrim` | src/agent/ContextOverflowHandler.ts:250-255 | the result is a trim under the recovery options |
| `Precompress.SplitMessagesForPrecompress` | src/agent/LlmInputPreparator.ts:137-185 | older part and tail make up the input; a non-empty older part means the tail has exactly the kept number of assistant turns and begins behind a complete round |
| `Precompress.SplitUnique` | src/agent/LlmInputPreparator.ts:137-185 | that description determines the split of every list, also when nothing is split off |
| `Precompress.SplitKeepsProtocol` | src/agent/LlmInputPreparator.ts:137-185 | both halves of a well-formed list are well-formed |
| `Precompress.BuildCompressionChunks` | src/runtime/compression-chunks.ts:30-89 | every item once and in order, never more chunks than allowed, every chunk but the last filled as far as the limit lets it; the limit is the configured one or the least under which so many chunks have room for all |
| `Precompress.ChunksUnique` | src/runtime/compression-chunks.ts:30-89 | that description determines the chunks |
| `Precompress.DropOldestCompressionRound` | src/agent/agent-compression-utils.ts:19-38 | drops just the first message and what follows up to the first assistant turn behind it, with that turn and its results, but never the last message |
| `Precompress.CompressChunk` | src/agent/LlmInputPreparator.ts:239-314 | the requests and the result are told by the answers: after an unusable one the same is sent again while retries are left; after a too-long one, with up to three tries more, the request without its oldest round behind a notice of how many went; otherwise it ends, with the summary trimmed, the error thrown, or the last error. The last request is the chunk's own remainder, and dropped messages are counted without the notice |
| `Precompress.CompressChunksWithRetry` | src/agent/LlmInputPreparator.ts:231-322 | the outcome is what the runs of the chunks amount to, each told by its requests and answers, up to the first that gives no summary: summaries, calls, retries, and the failing chunk or the error thrown |
| `Precompress.RunIs` | src/agent/LlmInputPreparator.ts:239-314 | every run starts with the chunk, each request follows from the answer before, the calls are bounded and the last answer decides |
| `Precompress.RunTold` | src/agent/LlmInputPreparator.ts:239-314 | the specified run is that for every chunk and compressor |
| `Precompress.OutcomeTold` | src/agent/LlmInputPreparator.ts:231-322 | the specified outcome is that for every list of chunks |
| `Precompress.RunKeepsRemainder` | src/agent/LlmInputPreparator.ts:274-294 | the last request of a run is what is left of the chunk behind a notice |
| `Precompress.OutcomeIs` | src/agent/LlmInputPreparator.ts:231-322 | success exactly when every chunk has its summary; one non-blank summary for each chunk in order; retries = calls - chunks started; bounded calls; the failing chunk is named |
| `Precompress.RemainderShrinks` | src/agent/LlmInputPreparator.ts:274-294 | dropping a round and adding a new notice gives a strictly shorter remainder |
| `Precompress.SourceConserved` | src/agent/LlmInputPreparator.ts:231-322 | reported + surviving source messages = the original ones, short by one for each chunk that opened with the retry marker and lost messages; exact if and only if there is none |
| `Precompress.MarkerInSourceMiscounts` | src/agent/LlmInputPreparator.ts:278-283 | the run of a chunk whose first message quotes the retry marker, with a compressor that finds the first request too long: two messages are dropped and one is reported |
| `Store.CheckpointRoundTrip` | src/agent/MessageStore.ts:81-84 | printing and reading a checkpoint id are inverse |
| `Store.NextIsFresh` | src/agent/MessageStore.ts:81-98 | while the counter covers the messages the next id is on none of them |
| `Store.MintAfterReset` | src/agent/MessageStore.ts:29-47 | after a reset the next k minted ids are all fresh exactly when no kept message carries one of the ids 1 to k as printed |
| `Store.TwoRunsShareAnId` | src/agent/MessageStore.ts:29-47 | two runs on one store, each with a reset as at src/agent/Agent.ts:800: their first messages share an id |
| `Store.RunStoreOps` | src/agent/MessageStore.ts:45-98 | the store's methods carry out any operations as specified, and give out just the specified ids |
| `Store.EveryIdIsFresh` | src/agent/MessageStore.ts:29-274 | over any operations between two resets every id is on no message when it is given out and on one afterwards, and the counter covers the messages throughout |
| `Store.SanitizedCovered` | src/agent/MessageStore.ts:242 | sanitising invents no checkpoint, so a covering counter still covers |
| `Store.LatestCheckpointsComplete` | src/agent/MessageStore.ts:127-149 | a checkpoint is missing from the list only if `limit` later ones exist |
| `Store.LatestListed` | src/agent/MessageStore.ts:127-149 | the specified list is that for every history and limit |
| `Store.SummarisedBounds` | src/agent/MessageStore.ts:222-242 | at most keepRecent later messages remain, they are the latest, and the prefix up to the checkpoint is kept |
| `Store.AppliedLeaves` | src/agent/MessageStore.ts:208-255 | the specified summary is that for every store |
| `Store.MessageStore.WithCheckpointMetadata` | src/agent/MessageStore.ts:86-98 | the new id is fresh and the counter covers the message too |
| `Store.MessageStore.AddUserMessage` | src/agent/MessageStore.ts:45-47 | appends one user message under a fresh id and keeps the counter covering |
| `Store.MessageStore.SetMessages` | src/agent/MessageStore.ts:53-60 | keeps a system prompt that the new history lacks and recovers the numbering |
| `Store.MessageStore.SyncCheckpointCounterFromMessages` | src/agent/MessageStore.ts:257-274 | the counter becomes the least one that is at least every checkpoint number in the list |
| `Store.MessageStore.ListSummaryCheckpoints` | src/agent/MessageStore.ts:127-149 | the backwards loop lists the latest messages with an id and a reason, latest first, as many as the limit clamped to 1..200 and none left out but before so many others |
| `Store.MessageStore.EnqueueSummaryApply` | src/agent/MessageStore.ts:151-171 | a request is taken exactly when its checkpoint is among the latest listed ones, with keepRecent clamped |
| `Store.MessageStore.ApplyPendingSummaryIfNeeded` | src/agent/MessageStore.ts:208-255 | applied at most once; before sanitising: the messages up to the last one with the checkpoint, the latest later ones, as many as asked for but at most twenty, and an anchor that holds the summary and both ids; the result obeys the protocol; a missing checkpoint changes nothing |
| `Store.MessageStore.SaveInterruptedStreamCheckpoint` | src/agent/MessageStore.ts:100-125 | a partly streamed answer is appended exactly when it is not blank, and harms nothing |
| `Store.MessageStore.FindToolNameById` | src/agent/MessageStore.ts:173-188 | the name of the first call with the id in the latest assistant turn that has one, and none exactly when there is none |
| `ToolCalls.ApplyBeforeToolCallHook` | src/agent/AgentHookEffectApplier.ts:47-80 | a hook may rename a call and replace its arguments but never its id; which name and arguments come of it is stated of RunToolCalls, by the fields of the patch |
| `ToolCalls.RunCall` | src/agent/AgentToolCallService.ts:68-197 | one call leaves exactly the specified history, and ends as what it meets decides |
| `ToolCalls.CallKeeps` | src/agent/AgentToolCallService.ts:68-197 | one call adds at most its own result, the right one when it runs to its end, and leaves all earlier messages and all ids of the turn alone |
| `ToolCalls.RunToolCalls` | src/agent/AgentToolCallService.ts:66-206 | completes exactly when no call is cancelled or throws and otherwise stops at the first that does. A completed run leaves the history before, and for each call one result under its id and the name it was executed by; the turn then holds each call with the patch's arguments if it gives any, and with its trimmed tool name, else its trimmed name, if not blank; the tools were handed just these calls. One checkpoint for each blocked call |
| `ToolCalls.RunFateIff` | src/agent/AgentToolCallService.ts:66-206 | completed exactly when every call runs to its end, cancelled exactly when the first that does not is, forced exactly when a tool that succeeds asks for it |
| `ToolCalls.StoppedLeaves` | src/agent/AgentToolCallService.ts:66-206 | a run of calls that is cut short has left the results of all calls before, each as its script says |
| `ToolCalls.ProgressWellFormedIff` | src/agent/AgentToolCallService.ts:66-206 | the history is well-formed exactly when every call has its result and the ids are usable |
| `ToolCalls.BlockedCheckpointSafeIff` | src/agent/AgentToolCallService.ts:113-120 | the checkpoint after a blocked call is replay-safe exactly when the blocked call is the last one |
| `ToolCalls.ExecuteAgentToolCallsForTurn` | src/agent/AgentToolCallService.ts:51-221 | the calls' scripts, the pending request and the waiting input determine the outcome and everything the store holds afterwards; without a summary these are the results and patched calls as the hooks and tools answered, and the waiting input trimmed as one user message, unless blank or a tool completes the turn |
| `ToolCalls.ToolPhaseLeaves` | src/agent/AgentToolCallService.ts:51-221 | the specified tool phase leaves that, in the fields of the patches and answers |
| `ToolCalls.ToolPhaseWellFormedIff` | src/agent/AgentToolCallService.ts:51-221 | an applied summary leaves a well-formed history; otherwise it is well-formed exactly when it was before the turn, every call has its result and the ids are usable |
| `ToolCalls.ConsumeRunningInput` | src/agent/Agent.ts:453-478 | a waiting input is appended as one user message unless blank and does not touch the protocol |
| `HistoryReduction.MaxTokensRecoveryService.HandleMaxTokensRecovery` | src/agent/MaxTokensRecoveryService.ts:28-78 | the history compacted, then reduced, then asked to be continued exactly while attempts remain, with the attempt and the limit in the prompt; the whole event; a well-formed history stays so exactly when the recovery cuts into no bundle |
| `HistoryReduction.ChunkMessagesForCompression` | src/runtime/compression-chunks.ts:91-137 | the chunks are the stretches of the greedy chunking; without system messages they hold every message of the older part once |
| `HistoryReduction.SliceAll` | src/runtime/compression-chunks.ts:162-170 | each chunk becomes the stretch of messages from its first to its last item |
| `HistoryReduction.ChunksForUnique` | src/agent/LlmInputPreparator.ts:197-206 | the chunks of an older part are determined by it |
| `HistoryReduction.ApplyPrecompressIfNeeded` | src/agent/LlmInputPreparator.ts:344-596 | not needed, skipped, failed, thrown or applied: decided by the trigger, the split, and the runs of the chunks. Only when applied does the older part become one summary with a new checkpoint: it holds every chunk's summary in order and without overlap, several behind their numbers, and the notice of dropped messages exactly when there are any; the kept rounds follow, sanitised; the result obeys the protocol |
| `HistoryReduction.AppliedIff` | src/agent/LlmInputPreparator.ts:454-488 | a summary is applied exactly when there are chunks and every one has its summary |
| `HistoryReduction.TriggersIff` | src/runtime/context-reduction-policy.ts:46-70 | a compression is called for by force, by the trigger with enough added since the last, or by 95 per cent of the safe input, and never when disabled |
| `HistoryReduction.KeepRoundsIff` | src/runtime/context-reduction-policy.ts:32-44 | the kept rounds: the override, else the configured number under the cap in the aggressive mode, and at least one |
| `HistoryReduction.SummarySaysAll` | src/agent/agent-compression-utils.ts:40-51 | the summary contains each chunk's summary, at places that increase and do not overlap, and the notice with the number exactly when messages were dropped |
| `HistoryReduction.TriesUnique` | src/agent/LlmInputPreparator.ts:344-596 | older part, tail and chunks of a compression that is tried are determined by the history |
| `HistoryReduction.TailFacts` | src/agent/LlmInputPreparator.ts:551-556 | with the cut between rounds the rebuilt history is well-formed before it is sanitised |
| `LlmAttempts.HandleLlmAttemptError` | src/agent/AgentLlmAttemptService.ts:323-445 | the verdict in the fields of the error and the counts before it: a cancelled run ends; a missing result is reported once in a row and thrown then; an overflow goes on below the limit if the forced preparation succeeds; a transport error goes on exactly if it is retriable, showed nothing and there were fewer than two; what each adds to the trace |
| `LlmAttempts.AttemptOnce` | src/agent/AgentLlmAttemptService.ts:148-297 | one pass: the preparation unless made ahead, the input hook, the provider, and for each event its verdict |
| `LlmAttempts.RunAgentLlmAttemptLoop` | src/agent/AgentLlmAttemptService.ts:122-321 | the outcome is the one the events tell, and so is the whole trace of the last attempt: requests, decisions, provider calls, retries, reports of missing results, and one saved stream exactly when it fails on transport after it showed output; at most M+3 attempts; a completion exactly for a terminal outcome |
| `LlmAttempts.LoopIsTurn` | src/agent/AgentLlmAttemptService.ts:122-321 | the loop with its flags and preparations made ahead refines the turn told by the events and two counts alone |
| `LlmAttempts.OutcomeOfLast` | src/agent/AgentLlmAttemptService.ts:122-321 | the attempt behind which none follows decides, in the fields of its event: a failed preparation throws, a block or an answer is returned, a cancelled run is, the first missing result in a row is reported, every other failure throws |
| `LlmAttempts.CountsIff` | src/agent/AgentLlmAttemptService.ts:122-321 | an attempt is come to exactly when every one before it was an overflow or a transport failure that showed nothing, at most max(1, M) and two of them, and every preparation succeeded |
| `LlmAttempts.VisibleFailureIsLast` | src/agent/TurnRecoveryPolicy.ts:34-46 | an attempt that fails after it showed output, other than by an overflow, is the last, and the turn throws unless cancelled or for a missing result |
| `LlmAttempts.TurnIsTold` | src/agent/AgentLlmAttemptService.ts:122-321 | every request, decision and counter of a turn's trace, told by its events |
| `LlmAttempts.AnsweredIff` | src/agent/AgentLlmAttemptService.ts:122-321 | the turn has an answer exactly when an answer is come to, that is every event before it let the loop go on and no preparation threw |
| `LlmAttempts.StagesNeverGoBack` | src/agent/AgentLlmAttemptService.ts:280-295 | the snapshot stage never moves back and forced-trim options stay in force after the trim |
| `LlmAttempts.AttemptBound` | src/agent/TurnRecoveryPolicy.ts:34-61 | overflows and transport retries bound the attempts by M+3 |
| `LlmAttempts.CompletionHost.CompleteAgentTurn` | src/agent/AgentTurnCompletionService.ts:22-40 | one completion with what the caller gets back |
| `LlmAttempts.CompletionHost.CompleteCancelledRun` | src/agent/AgentTurnCompletionService.ts:42-61 | a cancelled run completes once |
| `AgentRun.Agent.RunWithResult` | src/agent/Agent.ts:793-1067 | outcome and counters are those of the run told by its steps; it returns with a reason, or throws, in an iteration that has a cause for it, and says the last non-empty text of the answers taken, the final one included, for an ended or cut-off answer, the plan text when a tool had a plan approved, the stall text for a stall; at most maxSteps iterations and maxSteps*(M+3) provider calls; events, prompts and counters bounded; one completion on each return with a provider, none on a throw |
| `AgentRun.Agent.RunEndsIff` | src/agent/Agent.ts:829-1067 | the run ends with the first iteration that has an outcome, and at the step limit exactly when none has |
| `AgentRun.Agent.RunEndsWith` | src/agent/Agent.ts:829-1067 | for each reason: the run ends with it exactly when an iteration is come to that has a cause for it, told by what hooks, provider and tools did there; and what it then says |
| `AgentRun.Agent.KeepsLastText` | src/agent/Agent.ts:931-933 | at every head the kept text is the last non-empty one of the answers so far whose response hook did not throw |
| `AgentRun.Agent.CountersMean` | src/agent/Agent.ts:829-1043 | at every head the counters are what they are named for: cut-off answers so far, progress-only answers since the last other answer, a missing result just before; one added user message for each such iteration |
| `AgentRun.Agent.RunCalls` | src/agent/Agent.ts:829-1067 | the provider calls counted over a run are those of its turns together |
| `AgentRun.Agent.StepKeeps` | src/agent/Agent.ts:829-1043 | every iteration keeps the bounds of the run, and a result fits the state it is returned in |
| `AgentRun.Agent.RunStep` | src/agent/Agent.ts:829-875 | one iteration: which script ends it how, and one completion for each result |
| `AgentRun.Agent.AfterAnswer` | src/agent/Agent.ts:896-968 | the response hook and tool phase decide between throw, cancellation, forced completion and going on; a non-empty text replaces the kept one unless the hook throws, and an ended or cut-off answer returns the text then kept |
| `AgentRun.Agent.AfterResponse` | src/agent/Agent.ts:970-1043 | which answers end the run, with which reason, and what each does to the recovery counters |
| `AgentRun.EventsNumbered` | src/agent/Agent.ts:970-984 | the events are numbered in order and all but one past the limit recovered |
| `RunHistory.PrepareMessagesForModel` | src/llm/message-preparation.ts:305-324 | always well-formed with results in call order; a canonical history that fits is returned unchanged |
| `RunHistory.ProjectForProvider` | src/context/ContextPayloadProjector.ts:105-121 | every payload obeys the protocol, and is just the stored messages when they are canonical, shown in full and fit |
| `RunHistory.ApplyInputHookModified` | src/agent/AgentHookEffectApplier.ts:3-45 | which message a passing hook's text replaces; only replaced messages can touch the protocol |
| `RunHistory.CheckedPayload` | src/llm/LLMClient.ts:260-273 | a payload is sent exactly when it obeys the protocol, without system messages |
| `RunHistory.Session.PrepareAttempt` | src/agent/Agent.ts:672-738 | the stored history is normalised, and compressed exactly when that is due; the payload is sent exactly when neither compressor nor input hook throws, the hook does not block, and messages that it puts in obey the protocol |
| `RunHistory.SentIff` | src/agent/AgentLlmAttemptService.ts:148-225 | the same for every stored history, compressor and hook, and that what is sent obeys the protocol and holds no system message |
| `RunHistory.Session.StoreAnswer` | src/agent/Agent.ts:899-949 | an answer leaves the store as its turn and its tool phase determine |
| `RunHistory.Session.Perform` | src/agent/Agent.ts:793-1067 | each edit takes the store to the state that the edit and what it meets determine, and sends the payload that state, compressor and hook determine, or nothing |
| `RunHistory.Session.PerformAll` | src/agent/Agent.ts:793-1067 | over any sequence of edits in any number of runs the store goes through the states that the edits say, the payloads sent are those of its attempts that are not blocked or thrown out, and every one of them obeys the protocol |
| `RunHistory.EffectIsRight` | src/agent/Agent.ts:793-1067 | whether an edit keeps, repairs or breaks the protocol is told beforehand from the stored history and what the edit meets, and is right |
| `RunHistory.AnswerEffect` | src/agent/Agent.ts:899-949 | the stored answer with its tool phase leaves a well-formed history exactly when a summary was applied, or it was before and the scripts give every call its result under usable ids |
| `RunHistory.CutDownEffect` | src/agent/MaxTokensRecoveryService.ts:28-78 | after a cut-off answer a well-formed history stays so exactly when no cut falls into a bundle; one that broke the protocol obeys it afterwards exactly when the stretch kept does |
| `RunHistory.StandsIff` | src/agent/Agent.ts:793-1067 | over any edits from any history: it obeys the protocol exactly when it did at first or was repaired, and no edit broke it since |
| `RunHistory.OnlyHarmBreaks` | src/agent/Agent.ts:793-1067 | a well-formed stored history is so in every later state exactly when no edit broke the history it met |
| `RunHistory.RepairForgets` | src/agent/ContextOverflowHandler.ts:72-84 | a forced trim makes up for everything before it, as long as every later answer has all results under usable ids and none is cut off |
| `RunHistory.OpenBundleStays` | src/agent/AgentToolCallService.ts:68-80 | an answer of which a call never got its result leaves the stored history broken through all later runs, notes, answers and attempts that neither reduce it nor apply a summary |
| `HistoryCheckpoints.SanitizedIds` | src/llm/message-preparation.ts:20-102 | sanitising neither invents nor doubles a checkpoint id, results put in another order included |
| `HistoryCheckpoints.EditKeepsIds` | src/agent/Agent.ts:793-1067 | every edit but the start of a run, refused or not, keeps all checkpoint ids different and the counter not behind any |
| `HistoryCheckpoints.UniqueBetweenResets` | src/agent/MessageStore.ts:81-98 | so over any edits between two starts of a run no id is given twice |
| `HistoryCheckpoints.ResetKeepsIdsIff` | src/agent/MessageStore.ts:29-32 | the start of a run keeps them different exactly when no kept message carries the first id, and the counter covering exactly when none carries a number above one |
| `HistoryCheckpoints.SecondRunRepeats` | src/agent/Agent.ts:800 | the second run on a store doubles the first id at once |
| `RunEdits.LoopEdits` | src/agent/AgentLlmAttemptService.ts:122-321 | the edits of a turn are what its attempt loop does: the preparations it asks for, in order, and the missing results it reports |
| `RunEdits.RunIsCounted` | src/agent/Agent.ts:829-1043 | the counters of a run are the numbers of its edits: one report for each missing result, one reduction for each cut-off answer, one reminder for each mere announcement |
| `RunEdits.WholeRunIsCounted` | src/agent/Agent.ts:793-1067 | the same for a whole run, with at most maxSteps*(M+3) attempts among its edits |
| `RunEdits.PayloadsBounded` | src/agent/Agent.ts:793-1067 | whatever a run meets, it sends at most maxSteps*(M+3) payloads, and each obeys the protocol |
| `RunEdits.RunKeepsProtocol` | src/agent/Agent.ts:793-1067 | a run that ends by itself and met no cut-off answer keeps a well-formed history so throughout, as long as the answers' calls have usable ids |
| `RunEdits.RunKeepsIds` | src/agent/Agent.ts:793-1067 | a whole run gives no checkpoint id twice exactly when no message it finds carries the first id |
| `SideEffectLedger.BuildSideEffectLedgerFromPreview` | src/interrupted-turn-recovery.ts:73-111 | the entries are those of tool results at increasing places: each has its text cut to 240 characters, the policy's view of that, and name and arguments of the last call of the turn before with the result's id; every entry is worth recording, and what would be said of any other result is not |
| `SideEffectLedger.LedgerSplits` | src/interrupted-turn-recovery.ts:73-111 | ledger(a + b) = ledger(a) followed by ledger(b) with the calls carried over |
| `SideEffectLedger.IndependentIffAnchored` | src/interrupted-turn-recovery.ts:73-111 | the rest's ledger needs nothing from before the cut, for every prefix and policy, exactly when no result with an id precedes its first calls |
| `SideEffectLedger.WellFormedIsAnchored` | src/interrupted-turn-recovery.ts:73-111 | a well-formed preview is of that kind |
| `SideEffectLedger.LedgerIsRecorded` | src/interrupted-turn-recovery.ts:73-111 | the fold records just that of every preview |
| `SideEffectLedger.EntriesOfWellFormed` | src/interrupted-turn-recovery.ts:73-111 | in a well-formed preview an entry has the name and arguments of the call of the enclosing bundle whose id the result carries, exactly when that id has no blanks around it |
| `SideEffectLedger.BlankInIdLosesArguments` | src/interrupted-turn-recovery.ts:80-92 | a well-formed preview with a blank before an id: the entry has lost the arguments |
| `SideEffectLedger.ResolveReplayCheckpointPrefixLength` | src/interrupted-turn-recovery.ts:141-151 | the length of the longest common prefix |
| `SideEffectLedger.CommonPrefixUnique` | src/interrupted-turn-recovery.ts:141-151 | there is only one such length |
| `SideEffectLedger.SlicePreviewMessages` | src/interrupted-turn-recovery.ts:65-71 | the preview drops exactly that prefix |
| `SideEffectLedger.LedgerSplitsAtSafeCheckpoint` | src/interrupted-turn-recovery.ts:65-111 | ledger(turn) = ledger(covered part) followed by ledger(preview) when turn and checkpoint obey the protocol |
| `SideEffectLedger.BlockedCheckpointLosesArguments` | src/agent/AgentToolCallService.ts:113-120 | a checkpoint taken after a blocked call makes the later ledger lose another call's arguments |
| `AgentProfiles.TagRoundTrip` | src/agents/AgentProfiles.ts:571-594 | printing and parsing the tag are inverse on every reference whose name has no blank or ']' and whose path is trimmed without ']' |
| `AgentProfiles.NoticeStripped` | src/agents/AgentProfiles.ts:596-607 | the note is stripped whole whatever follows it |
| `AgentProfiles.PrintedParses` | src/agents/AgentProfiles.ts:609-666 | what parsing a printed prompt gives, for every printable reference and every prompt |
| `AgentProfiles.TagIff` | src/agents/AgentProfiles.ts:571-594 | parsing any text gives just the reference that its first bracket reads as: marker, blanks, source, blanks, name, blanks, path trimmed, bracket; and none exactly when it reads as none |
| `AgentProfiles.ParsedIs` | src/agents/AgentProfiles.ts:596-666 | what any text is parsed to: a reference with an expanded body, a block, a bare reference whose note is taken away, or none; and which part of the text is the prompt |
| `AgentProfiles.NormalizedIs` | src/agent/Agent.ts:577-590 | the specified normalisation of each message is the one told by these readings |
| `AgentProfiles.RoundTripIff` | src/agents/AgentProfiles.ts:544-549 | parsing returns exactly what was printed if and only if the reference is printable, the prompt is left-trimmed and the text does not read as a profile body |
| `AgentProfiles.OpenMarkerLosesThePrompt` | src/agents/AgentProfiles.ts:609-666 | a path that ends in the begin marker but for its bracket: the printed prompt is read as a profile body and lost |
| `AgentProfiles.FindLatestUser` | src/agent/Agent.ts:559-567 | the last user message |
| `AgentProfiles.NormalizeAgentProfileMessagesInPlace` | src/agent/Agent.ts:552-597 | every user message that reads as a reference, a block or an expanded body becomes the printed tag, note and prompt it reads as, but for an expanded body in the user's last message, and no other message changes; the changes are counted and the reference of the last user message that has one reported, none exactly when none has |
| `AgentProfiles.CanonicalStableIff` | src/agent/Agent.ts:577-590 | when a second pass leaves a rewritten message alone |
| `AgentProfiles.NormalizeIdempotentIff` | src/agent/Agent.ts:552-597 | normalising twice is normalising once exactly when no rewritten message other than the latest user message reads as a profile body |
| `AgentProfiles.NormalizingTwiceDiffers` | src/agent/Agent.ts:552-597 | a body behind a body: the second pass changes what the first left |
| `ArenaStore.RunStore.CreateDraft` | src/arena/ArenaStore.ts:174-222 | a draft with one branch per contestant in front of the other runs ordered by their last update; what is not given comes from the last configuration, else from the current model, and what comes from the last configuration is never refused; an error, also for a blank source session, changes nothing |
| `ArenaStore.NormalizedConfigStays` | src/arena/ArenaStore.ts:35-83 | normalising an accepted configuration again changes nothing |
| `ArenaStore.ByUpdateSorts` | src/arena/ArenaStore.ts:153-155 | ordering the runs by update loses none and keeps ties in order |
| `ArenaStore.RunStore.UpdateRun` | src/arena/ArenaStore.ts:411-437 | the operation reaches the first run with the id and nothing else; it is accepted exactly when it may be, and has the effect it is named for in the fields of run and branches and no other: a submission leaves the branch submitted exactly when complete and blocked otherwise, with the trimmed summary and the evidence that is not blank; an error changes nothing |
| `ArenaStore.StepIff` | src/arena/ArenaStore.ts:224-437 | when each operation is accepted and what it leaves, for every run |
| `ArenaStore.TransitionsIff` | src/arena/ArenaStore.ts:108-122 | which status may follow which, by stages |
| `ArenaStore.BranchTransitionsIff` | src/arena/ArenaStore.ts:124-146 | from which states each branch status can be reached |
| `ArenaStore.RankNeverDecreases` | src/arena/ArenaStore.ts:108-122 | a run's status never moves to a lower rank over any operations; applied and closed are final |
| `ArenaStore.FrozenAfterJudging` | src/arena/ArenaStore.ts:224-316 | once judging has started a submitted, blocked, frozen or promoted branch stays in these states with its submission unchanged for ever |
| `ArenaStore.NoReopenAfterJudging` | src/arena/ArenaStore.ts:252-267 | a branch not reopened when judging starts is never reopened |
| `ArenaStore.ShapeKept` | src/arena/ArenaStore.ts:252-267 | promoted flag if and only if status promoted, branches numbered in order, and fixed after draft |
| `ArenaStore.WinnerAfterUpdateIff` | src/arena/ArenaStore.ts:224-239 | a winner picked in draft survives a change of the contestants exactly when its number is below that of the given contestants |
| `ArenaStore.WinnerDangles` | src/arena/ArenaStore.ts:224-340 | select a winner in draft, then take its contestant away: the run names a branch it does not have |
| `ArenaStore.DanglingWinnerWitness` | src/arena/ArenaStore.ts:224-340 | such a run with two contestants |
| `ArenaStore.WinnerKept` | src/arena/ArenaStore.ts:318-340 | outside draft an existing winner exists for ever |
| `ArenaStore.BranchIdsDistinct` | src/arena/ArenaStore.ts:96-106 | branch ids differ |
| `ArenaWorkspace.SafePathRoundTripIff` | src/arena/ArenaWorkspaceService.ts:107-113 | a written path is read back exactly when its names hold no separator, are not empty and none is '..' |
| `ArenaWorkspace.PayloadDecodes` | src/arena/ArenaWorkspaceService.ts:145-151 | the hashed text determines the list of paths and digests, line ends in paths included |
| `ArenaWorkspace.PayloadInjective` | src/arena/ArenaWorkspaceService.ts:145-151 | two file maps give the same text exactly when they are the same map |
| `ArenaWorkspace.HashedTextIff` | src/arena/ArenaWorkspaceService.ts:145-151 | the hashed texts of two workspaces are equal exactly when their file digests are |
| `ArenaWorkspace.HashIff` | src/arena/ArenaWorkspaceService.ts:145-151 | equal file digests are hashed equally; different ones differently unless the digest collides on just the two hashed texts |
| `ArenaWorkspace.NoDiffIff` | src/arena/ArenaWorkspaceService.ts:153-171 | no difference is found exactly when all digests agree |
| `ArenaWorkspace.StepFrame` | src/arena/ArenaWorkspaceService.ts:190-210 | one applied change keeps the tree a tree and touches the path and its parents only |
| `ArenaWorkspace.ReconcilesIff` | src/arena/ArenaWorkspaceService.ts:173-216 | applying the computed difference in any order succeeds exactly when no path is a file on one side and a directory on the other and no changed path begins with two dots |
| `ArenaWorkspace.DottedNameIsRefused` | src/arena/ArenaWorkspaceService.ts:107-113 | a new file whose name begins with two dots, such as ..cache, stops the application at once |
| `ArenaWorkspace.Reconciled` | src/arena/ArenaWorkspaceService.ts:173-216 | afterwards the listed files and the hash are the branch's and a second difference is empty |
| `ArenaWorkspace.UntouchedElsewhere` | src/arena/ArenaWorkspaceService.ts:190-210 | for any list of changes: every other entry is as before, new entries are parents that the branch has too, and excluded roots are untouched |
| `ArenaWorkspace.ProposalReadsBack` | src/arena/ArenaWorkspaceService.ts:107-113 | the proposal's texts lead back to the entries when no name holds a backslash |
| `ArenaWorkspace.DifferenceIsCarriedOver` | src/arena/ArenaWorkspaceService.ts:153-216 | from the texts of the difference, in any order, to the reconciled workspace: success exactly without clashes and without paths that begin with two dots, and then the branch's hash |
| `ArenaWorkspace.BackslashIsLost` | src/arena/ArenaWorkspaceService.ts:107-113 | with a backslash in a new file's name the application reports success and carries nothing over |
| `ArenaWorkspace.SourceWorkspace.ApplyPaths` | src/arena/ArenaWorkspaceService.ts:190-210 | the loop applies the changes up to the first that is refused |
| `ArenaWorkspace.SourceWorkspace.ApplyDiff` | src/arena/ArenaWorkspaceService.ts:173-216 | a stale source or branch hash or an unsafe path is rejected before any write, in this order; otherwise the changes are applied and the hash afterwards reported; given the texts of the whole difference, it is applied exactly when nothing clashes and no path begins with two dots, and the hash afterwards is the branch's |
| `AutoLoop.GetWordFreq` | src/auto-loop/AutoLoopController.ts:212-224 | the loop counts every word of at least two characters |
| `AutoLoop.DotPick` | src/auto-loop/AutoLoopController.ts:226-245 | the sums do not depend on the order in which the map is walked |
| `AutoLoop.CauchySchwarz` | src/auto-loop/AutoLoopController.ts:226-248 | dotProduct^2 <= norm1 * norm2 for any two word counts, with equality exactly for proportional ones |
| `AutoLoop.CosineBounds` | src/auto-loop/AutoLoopController.ts:211-249 | similarity is in [0,1]; 1 exactly for non-empty proportional counts, so for identical non-empty ones, and 0 exactly without a common word |
| `AutoLoop.CosineSymmetric` | src/auto-loop/AutoLoopController.ts:211-249 | similarity is symmetric |
| `AutoLoop.CosineSimilarity` | src/auto-loop/AutoLoopController.ts:211-249 | the three loops compute it |
| `AutoLoop.CalculateSimilarity` | src/auto-loop/AutoLoopController.ts:195-209 | the nested loops compute the average over n(n-1)/2 pairs |
| `AutoLoop.SimilarityBounds` | src/auto-loop/AutoLoopController.ts:195-209 | the average is in [0,1], and 1 exactly when all pairs are proportional |
| `AutoLoop.AutoLoopController.ShouldContinue` | src/auto-loop/AutoLoopController.ts:92-138 | one round in the fields of the state: the window moved by one, the counter, and a stop exactly for the first limit reached: rounds, minutes, similarity; or for a requested exit before anything is counted |
| `AutoLoop.RoundIs` | src/auto-loop/AutoLoopController.ts:92-138 | the specified round is that for every state and output |
| `AutoLoop.GoOnsBounded` | src/auto-loop/AutoLoopController.ts:92-138 | whatever is said, the loop goes on fewer than maxRounds times |
| `AutoLoop.WindowIsLastOutputs` | src/auto-loop/AutoLoopController.ts:102-107 | while running the window holds the last compareRounds outputs of the run |
| `AutoLoop.RepetitionStops` | src/auto-loop/AutoLoopController.ts:127-135 | repeating oneself over the compared rounds ends the loop for a threshold of at most one; with a threshold of one nothing else counts as converged |
| `AsrLines.SplitAppend` | src/asr/persistent-local-process-asr.ts:175-182 | more text only touches the last line, also when cut between the two characters of a line break |
| `AsrLines.SplitOfWeave` | src/asr/persistent-local-process-asr.ts:177 | joined separable lines are split into those lines |
| `AsrLines.WeaveOfSplit` | src/asr/persistent-local-process-asr.ts:177 | every text is its lines joined again |
| `AsrRequests.InvariantKept` | src/asr/persistent-local-process-asr.ts:312-339 | a pending entry is always a timed, unsettled request sent under that id |
| `AsrRequests.AfterDoes` | src/asr/persistent-local-process-asr.ts:184-340 | request by request: which event settles it how, stops its timer, and frees its id; nothing else changes |
| `AsrRequests.ReadsIff` | src/asr/persistent-local-process-asr.ts:184-190 | a line is read without the blanks around it, a blank one not at all |
| `AsrRequests.HangsIff` | src/asr/persistent-local-process-asr.ts:209-227 | while the process lives no step leaves a request without timer and answer; the step that ends it leaves just the one whose result could not be read |
| `AsrRequests.SurvivesIff` | src/asr/persistent-local-process-asr.ts:184-227 | the process lives exactly as long as no reply is null or an unreadable result for a request that is pending then (the uncaught error ends it, src/web/server/index.ts:28-31) |
| `AsrRequests.NoneHangs` | src/asr/persistent-local-process-asr.ts:184-227 | as long as the process lives every request is settled or its timer runs, over any run |
| `AsrRequests.OutcomesAreFinal` | src/asr/persistent-local-process-asr.ts:184-227 | a settled request keeps its outcome through any run |
| `AsrRequests.UnambiguousKeptIff` | src/asr/persistent-local-process-asr.ts:325-338 | every waiting request stays reachable by its answer exactly as long as no id is sent again too early or cleared late |
| `AsrRequests.ReusedIdLosesTheLater` | src/asr/persistent-local-process-asr.ts:326-330 | a repeated id makes the earlier timer take down the later request |
| `AsrRequests.FeedTwice` | src/asr/persistent-local-process-asr.ts:175-182 | two chunks are handled like their concatenation, also when a line of the first throws |
| `AsrRequests.StreamIsBatch` | src/asr/persistent-local-process-asr.ts:175-182 | however the output is cut into chunks, the requests, the kept remainder and whether the process lives are those of the whole text at once |
| `AsrRequests.ReaderSurvivesIff` | src/asr/persistent-local-process-asr.ts:175-227 | the reader lives on exactly when none of the complete lines is reached and throws |
| `AsrRequests.PersistentWorker.HandleProtocolLine` | src/asr/persistent-local-process-asr.ts:184-227 | one line settles at most the pending request with its id, and throws exactly for JSON null and for an unreadable result of a pending request |
| `AsrRequests.PersistentWorker.HandleStdout` | src/asr/persistent-local-process-asr.ts:175-182 | the loop handles the complete lines up to one that throws and keeps the last |
| `AsrRequests.PersistentWorker.RejectAllPending` | src/asr/persistent-local-process-asr.ts:379-385 | exactly the pending requests are rejected, in any order |
| `AsrSlots.InvariantKept` | src/asr/local-process-asr.ts:73-93 | over all interleavings active = number of holders, the clamp never acts, the queue keeps its limit, waiters run in order |
| `AsrSlots.NoLostWakeUp` | src/asr/local-process-asr.ts:73-93 | while somebody waits there is a holder or a woken waiter |
| `AsrSlots.FirstComeFirstServed` | src/asr/local-process-asr.ts:73-93 | those served and those in line are those who came, in order |
| `AsrSlots.WokenAfterReleases` | src/asr/local-process-asr.ts:87-93 | a waiter at place k is woken by k+1 releases at the latest |
| `AsrSlots.BoundKeptIff` | src/asr/persistent-local-process-asr.ts:294-310 | a step breaks active + woken <= maxConcurrent exactly when a newcomer overtakes a woken waiter or a stop wakes a non-empty queue |
| `AsrSlots.BoundHolds` | src/asr/local-process-asr.ts:73-93 | without overtaking no more than maxConcurrent hold a slot |
| `AsrSlots.HandOverIsNoOvertaking` | src/asr/local-process-asr.ts:82-83 | an atomic hand-over never overtakes |
| `AsrSlots.OvertakingExceedsTheBound` | src/asr/local-process-asr.ts:82-83 | a run in which two hold the only slot |
| `AsrSlots.SlotKeeper.AcquireSlot` | src/asr/local-process-asr.ts:73-85 | granted, waiting or busy, and the new state |
| `AsrSlots.SlotKeeper.ReleaseSlot` | src/asr/local-process-asr.ts:87-93 | the new state after a release |
| `AsrSlots.SlotKeeper.StopWaiting` | src/asr/persistent-local-process-asr.ts:98-102 | on stop every waiter is woken in order |
| `RequiredOperations.MatchOperation` | scripts/lib/eval-toolcall-context-core.ts:211-248 | the first unused call that fulfils the operation, or the flag of the first excuse |
| `RequiredOperations.ValidateRequiredOperations` | scripts/lib/eval-toolcall-context-core.ts:195-274 | the report is the verdict on the recorded run, told without the code's tables: each operation in turn takes the first free call with its name, arguments equal but for blanks or line ends, and a last result that is no error; validated are those that took one, and the flags explain each other one and then name what lies on the wrong side of the write |
| `RequiredOperations.ReportIsVerdict` | scripts/lib/eval-toolcall-context-core.ts:195-274 | the specified matching and flags are that verdict for every run |
| `RequiredOperations.FulfilsIff` | scripts/lib/eval-toolcall-context-core.ts:186-242 | a call is taken for an operation exactly by name, arguments and its last result |
| `RequiredOperations.ComparedIff` | scripts/lib/eval-toolcall-context-core.ts:150-189 | what an argument is compared by: contents without carriage returns before line feeds and without line ends behind, everything else without blanks around it |
| `RequiredOperations.NoFlagsIff` | scripts/lib/eval-toolcall-context-core.ts:195-274 | with distinct labels nothing is flagged exactly when the picked calls exist and lie in order around the write |
| `RequiredOperations.Sound` | scripts/lib/eval-toolcall-context-core.ts:195-274 | nothing flagged implies an injective assignment to matching successful calls, verification after the write, everything else before it |
| `RequiredOperations.CompleteIfNarrowFirst` | scripts/lib/eval-toolcall-context-core.ts:210-253 | first-fit finds an assignment whenever there is one, provided that of two operations sharing a call the earlier is at least as narrow |
| `RequiredOperations.PairNeverMissesIff` | scripts/lib/eval-toolcall-context-core.ts:210-253 | for two operations first-fit misses no assignment in any trace exactly when they do not overlap or the first is at least as narrow |
| `RequiredOperations.NeverMissesIff` | scripts/lib/eval-toolcall-context-core.ts:210-253 | so for every two of many exactly when overlapping operations come narrow first, and then for all of them together |
| `RequiredOperations.VerdictIff` | scripts/lib/eval-toolcall-context-core.ts:195-274 | if no call fits two operations nothing is flagged exactly when each has a call, the first verification lies after the first write and every other first call before it |
| `RequiredOperations.EarlyVerificationIsFlagged` | scripts/lib/eval-toolcall-context-core.ts:195-274 | verify, write, verify: flagged, although an assignment in order exists |
| `RequiredOperations.GreedyMissesAnAssignment` | scripts/lib/eval-toolcall-context-core.ts:210-253 | a concrete broad requirement takes the call a narrow one needs |
| `Text.PrintRead` | src/agent/MessageStore.ts:81-84 | reading a printed counter gives it back |

## Left out

- Message content: texts only; content blocks, thinking and metadata other than checkpoint ids are not modelled.
- Missing and empty: a missing `toolCallId` is the empty string and a missing `toolCalls` the empty list. The modelled functions treat them alike but one: the comparison of src/interrupted-turn-recovery.ts:160-176 takes a message without `toolCalls` and one with an empty list for different.
- Tool arguments: maps from keys to text; JSON parsing and printing, and the order of keys in comparisons, are not modelled.
- Characters are Unicode scalar values; the order of paths in a workspace hash is the order of those.
- Wording of notes, prompts and summaries: only the markers that the code looks for are exact.
- Classification of provider errors, of progress-only texts and of mutating shell commands: regular-expression word lists are predicates.
- Callbacks and event emission: payloads are left out, and callbacks that the code does not guard are taken not to throw.
- Token estimates, calibration and budget resolution: the figures are inputs; 0.95 is 95/100.
- Timers, processes, sockets, the file system and clocks: events and parameters; the life cycle of the speech process and its restart are not modelled.
- Numbers are unbounded; rounding of floating-point numbers in similarity and durations is not modelled.
- `RunEdits.RunEdits`: what a run meets says by itself whether a preparation throws; that this agrees with the compressor of the settings is not asked, so the number of payloads is bounded and not counted.
- `HistoryReduction.ApplyPrecompressIfNeeded`: the summary text is the merged summaries without the length limit of the merge; progress callbacks and the statistics of the event are left out.
- `Precompress.CompressChunk`: the host shortens messages idempotently and so that the start of the retry notice stays recognisable; both are assumed of it.
- `LlmAttempts.RunAgentLlmAttemptLoop`: usage estimates and the content of preparations are left out; only their requests are recorded.
- `AgentProfiles.NormalizeAgentProfileMessagesInPlace`: parsing of an expanded profile body is modelled as far as the markers; the bootstrap block's own front matter is not.
- `ArenaStore.RunStore.UpdateRun`: events, timestamps, agent names, and the contents of proposals and judge results are left out.
- `ArenaWorkspace.SourceWorkspace.ApplyDiff`: a workspace is a map from paths to files and directories; symbolic links, permissions and failing disks are left out, and the listing is a set where the code walks directories.
- `ArenaWorkspace.HashIff`: a digest is a parameter with values of fixed length; that it does not collide on the two hashed texts is a hypothesis of the converse.
- `AutoLoop.CosineSimilarity`: splitting text into words is left out; the square root is a parameter that is exact.
- `AsrRequests.PersistentWorker.HandleStdout`: reading a line as JSON is a parameter; a process that ends takes its requests with it, whatever hosts the service.
- `RequiredOperations.ValidateRequiredOperations`: argument values are given as their text; extraction of calls and results from the event log is left out.
- `src/dpagent-runtime.ts`, the web server, the desktop and mobile clients, scheduling, and the release scripts: wiring and I/O.
