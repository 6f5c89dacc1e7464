# Agent runtime: long-lived state and its invariants

A Dafny model of the parts of an agent runtime (terminal agent, gateway, memory, tool
client) whose state many operations rewrite, with proofs of what survives every run.
`dafny verify dfyconfig.toml` checks all of it.

Conventions. Objects whose methods update fields are classes; each method's contract ties
the new state to a specification function, and the laws are lemmas about those functions.
Beside the laws that relate several operations, lemmas state the outcome of each one
message by message, line by line or path by path, in terms of its input alone.
Concurrent code is a step relation: one step per stretch of code between two points at
which another thread or coroutine can run, with traces of any length and any
interleaving. Time, identifiers, replies of models and user texts are arbitrary
parameters.

## What is modelled

**The transcript** (`Messages`, `MessageStorage`, `Truncation`, `LightCompression`,
`Compaction`, `CompactionRace`, `SharedSnapshot`, `ProviderView`, `Replay`,
`RuntimeRounds`, `TranscriptRuns`). A list of messages is appended to by the run loop,
truncated, lightly compressed, summarised in full or incrementally, replayed from stored
nodes and rolled back after Plan/Goal rounds. The invariant: a history summary only at index 1, every
carrier of tool calls followed at once by one result per call and no other visible result
(`Arranged`); with the system message first, `WellFormed`.
`TranscriptRuns.ReachableTranscript` states both for every sequence of these operations,
rounds nested in rounds. Records flagged `runtime` are for the timeline
only, so they are no part of pairing. `CompactionRace` takes the background compaction
apart into look, guard and replacement.

**The memory store** (`RWLock`, `EntryCodec`, `DailyFile`, `DailyArchive`,
`MemoryIndex`). The read/write lock as a monitor over any set of threads; the daily file
as text, with the reader's parser and the writer's locator proved to agree on block
boundaries; the index with delayed write-back of weights and the cached scorer.

**Execution and scheduling** (`Execution`, `Scheduler`, `LruDedup`). Exclusive execution
per session with quarantine of timed-out agents, the life of a scheduled job from firing
to its record, and the de-duplication of inbound messages.

**Request correlation** (`Mcp`). Requests multiplexed over a pending map, with timeouts,
disconnects, close and reconnect. `RepliesAreResponses` names the assumption on servers
that sections 4 and 5 of the JSON-RPC 2.0 specification suggest.

**Two transformations** (`Config`, `BoundedBuffer`). Sparse configuration writing against
the loader's merge, and the bounded capture of process output.

## Where the code and its comments part

The model follows the code. Each point is a lemma, with the exact condition where the
promise does hold.

- A compaction is guarded by "no run is active now" only, and the guard is asked before
  the replacement: turns that came and went are lost (`GuardedLoss`, `LosslessCommitIff`),
  a run that begins in between loses its pairing (`LateReplace`), and the fallback without
  a summary is not guarded at all (`UnguardedOrphan`). `PairedThroughoutIff` says exactly
  which interleavings keep pairing. A compaction across a rollback undoes it
  (`RollbackUndone`).
- A Plan/Goal round on an empty transcript leaves its answer there without a system
  message (`HeadlessRound`), and nothing but a new start brings one back
  (`RunWellFormedIff`).
- The round's rollback is followed by a cap that rewrites older answers (`RoundPlainIff`),
  and it restores message objects that the round may have changed in place
  (`RollbackExactIff`), although a comment says they are not.
- A writer whose wait ends in an exception gives up its claim without notifying
  (`InterruptIff`, `InterruptLosesWakeUp`).
- `cleanup` writes the changed weights and leaves the changes pending
  (`CleanupBalancedIff`, `CleanupCountsTwice`).
- A flush overwrites the index without looking whether another process has changed it
  (`FlushKeepsIff`, `LostUpdate`), and calls changed summaries current (`StepTokens`).
- Quarantine silences nothing for a run that has not drawn its id, and at the cap of 1024
  the register forgets older runs (`EarlyQuarantineLeaks`, `CapForgets`); an event that
  passed the sink's check just before it arrives after it (`LateEvent`); cancelling an
  unmanaged wait frees the session with its agent still at work (`SharedAfterCancel`).
- Recovery bypasses admission, `stop` drops watchdogs without their entries, a persistent
  job's late reply ends its next fire, and colons in names make keys ambiguous
  (`RestoreIff`, `RestoreOverlaps`, `StopIff`, `LateReplyTaken`, `KeyClash`).
- The receive loop does not look at `method` (`GenuineIff`, `ServerRequestAccepted`), and a
  disconnect during the last step of the handshake is overwritten (`LiveIff`,
  `LostDisconnect`, `DeafForever`). A caller that is cancelled leaves its id in the map
  until the loop ends.
- Backfilling is documented never to overwrite values; the merge order does
  (`BackfillIff`, `BackfillOverwrites`). Stripping compares with `==`, for which 1, 1.0 and
  true are equal (`StripExactIff`).
- The elision mark is shown for streams from which nothing was elided (`MarkIff`).

## Model

| member | source | states |
|---|---|---|
| Messages.EstimateConcat | core/message_store.py:285-292 | the estimate of a transcript is additive over any split, runtime records counting nothing |
| Messages.TextTokensAre | core/message_store.py:67-70 | a text is estimated at its Chinese characters over 1.5 plus the others over 4, rounded down |
| Messages.BlocksConcat | core/message_store.py:56-66 | a list of blocks costs the sum of its texts and 1000 for each image |
| Messages.PairedCut | core/compressor.py:314-353 | a paired list may be cut wherever the right half does not start with a visible tool result: both halves stay paired |
| Messages.PairedConcat | agent.py:1083-1164 | paired lists concatenate to a paired list |
| Messages.ArrangedShape | core/compressor.py:231-303 | rewriting contents keeps the arrangement of a transcript and the kind of its first message |
| Messages.ArrangedSuffix | agent.py:219-266 | the first message and a suffix that does not start inside a tool run are arranged |
| Messages.ArrangedAppend | agent.py:1124-1164 | appending self-paired messages keeps the arrangement and the first message |
| Messages.BatchPaired | agent.py:1146-1164 | the loop's append order (carrier, then one result per declared call) is paired |
| MessageStorage.MessageStore.SetAnchor | core/message_store.py:225-253 | the anchor holds the input count alone; an empty usage changes nothing, a usage with output only drops back to the plain estimate |
| MessageStorage.MessageStore.ResetAnchor | core/message_store.py:255-262 | afterwards the live count is the full estimate |
| MessageStorage.LiveAfterAppends | core/message_store.py:264-283 | after an anchor and any appends the live count is the anchored total plus the estimate of what was appended |
| MessageStorage.MessageStore.Append | core/message_store.py:190-192 | exactly the message is added at the end |
| MessageStorage.MessageStore.Clear | core/message_store.py:199-206 | the list and the live count are empty |
| Truncation.Agent.TruncateHistory | agent.py:211-266 | the in-place loop with the decremented total equals eviction with a fresh estimate each round; if anything was removed the live count is the full estimate, otherwise the anchor is untouched |
| Truncation.CountGroup | agent.py:237-256 | the scan returns the size of the group at index 1 |
| Truncation.RemovedTokens | agent.py:257-261 | subtracting the removed per-message estimates is re-estimating what is left |
| Truncation.Evict | agent.py:236-261 | eviction terminates with at most 3 messages or within the budget |
| Truncation.EvictFewest | agent.py:236-261 | the number of groups removed is the least that fits |
| Truncation.EvictLeast | agent.py:228-262 | the cut is the first point that separates no tool message from its carrier and leaves a list that fits; every earlier one is over the budget |
| Truncation.OverflowIff | agent.py:207-224 | truncation begins above 95% of the budget |
| Truncation.TruncatedIs | agent.py:211-262 | nothing is removed without a budget, from three messages or up to 95% of the budget; above, everything in front of the first cut point that fits |
| Truncation.EvictSuffix | agent.py:237-261 | what is left is the first message and a suffix that does not start inside a tool run, for every list, damaged ones included |
| Truncation.TruncatedArranged | agent.py:213-218 | truncation keeps tool results with their carriers, the summary second and the first message |
| Truncation.EvictOnlyWhenOver | agent.py:221-236 | messages are removed exactly when there are more than 3 and the plain estimate exceeds the budget, whatever the anchored count said at the entry test |
| LightCompression.DowngradeImages | core/compressor.py:130-150 | image blocks become text placeholders, everything else stays; an unchanged message is reported as such |
| LightCompression.LightCompress | core/compressor.py:231-303 | the single backward pass equals the position-wise specification, and returns the exact token sums before and after |
| LightCompression.StubIsStubbed | core/compressor.py:197-228 | a compressed result is recognised as compressed |
| LightCompression.StubbedIff | core/compressor.py:197-204 | a result counts as compressed if and only if the marker occurs in its text or in one of its text blocks |
| LightCompression.LightShape | core/compressor.py:245-303 | length, roles, kinds, call ids and flags are unchanged |
| LightCompression.LightArranged | core/compressor.py:231-244 | the pass keeps the arrangement of the transcript |
| LightCompression.LightFresh | core/compressor.py:285-296 | after the pass, from every position on, exactly min(before, keep_recent) consumed results are still in full |
| LightCompression.LightKeeps | core/compressor.py:267-278 | messages without a later assistant message, and assistant messages, are unchanged |
| LightCompression.LightResult | core/compressor.py:280-299 | a consumed result is unchanged if results are not compressed, if it carries the marker or if fewer than keep_recent unmarked consumed results follow; every other one becomes marker and description |
| LightCompression.LightOther | core/compressor.py:125-150 | any other consumed message keeps its text, block by block, and each image becomes its placeholder |
| LightCompression.LightIdempotent | core/compressor.py:231-303 | a second pass with the same parameters changes nothing |
| LightCompression.LightImages | core/compressor.py:298-301 | no image is left in a consumed message that is neither answer nor result |
| Compaction.FindSafeTailBoundary | core/compressor.py:314-353 | the loop returns the specified boundary |
| Compaction.BoundaryLargest | core/compressor.py:314-345 | for every list longer than tail_n + 1 the boundary is the largest start of a message group at or before n - tail_n; a tool run without an assistant message in front is a group of its own |
| Compaction.CompactsIff | core/compressor.py:327-352 | a full compaction is made if and only if there are four messages, more than the tail and one, and a group starts in front of the tail; what is kept begins at the last such point |
| Compaction.SegmentCompactsIff | core/compressor.py:327-352 | the same behind an old summary, for a segment of two messages or more |
| Compaction.VisibleGroups | core/compressor.py:337-352 | in a transcript no visible tool result starts a group |
| Compaction.BoundaryPaired | core/compressor.py:316-324 | for every paired list, short ones included, the tail is self-paired |
| Compaction.BoundaryInside | core/compressor.py:325-353 | the tail never holds the system message nor the old summary, and does not start with a visible result |
| Compaction.FullCompress | core/compressor.py:457-558 | succeeds exactly when there is something to summarise and the model replied; then the list is head, one summary, tail and the anchor is reset; otherwise nothing changed |
| Compaction.SummaryHolds | core/compressor.py:536-547 | the summary is a visible user message that holds the reply between its two marks |
| Compaction.HeadIs | core/compressor.py:525-534 | the message kept in front is the first system message |
| Compaction.IncrementalCompress | core/compressor.py:604-680 | both branches: fallback to the full compaction without looking at the guard, or merge with the old summary if summary, reply and guard allow; on failure nothing changed |
| Compaction.IncrementalSummarize | core/compressor.py:562-602 | a merged summary comes out unless the old summary or the reply is blank |
| Compaction.HistoryNotBlank | core/compressor.py:371-405 | the text for the language model is never blank when there is a message, whatever the limit, so the test for that in `incremental_summarize` never fails |
| Compaction.HistoryIs | core/compressor.py:371-412 | the text for the language model is the longest end of the entries that fits the limit; a newest entry too long by itself is cut and goes alone |
| Compaction.EntryTells | core/compressor.py:383-397 | an entry names role and tool and holds the text, or its first 2000 characters |
| Compaction.FullArranged | core/compressor.py:525-558 | after a full compaction: first message, one summary, self-paired tail |
| Compaction.SegmentArranged | core/compressor.py:639-680 | the same after an incremental compaction |
| CompactionRace.PairedThroughoutIff | core/compressor.py:604-680 | over all interleavings of runs, batches, rollbacks and any number of compactors, with guard and replacement as separate steps: pairing holds in every state if and only if at every replacement the open calls are those that the kept tail was cut with |
| CompactionRace.FullPlanIs | core/compressor.py:478-490 | a compactor finds something to do, and cuts, exactly where the full compaction does |
| CompactionRace.AppendsAre | agent.py:1126-1165 | each step of a run puts its own message, under a new id, behind the list |
| CompactionRace.ReplaceIff | core/compressor.py:663-680 | the same for one replacement |
| CompactionRace.OwedUnique | core/compressor.py:644-649 | the results that a kept tail waits for are determined by the tail |
| CompactionRace.GuardedCommitFits | agent.py:377-388 | a guarded replacement keeps pairing if the compactor looked between batches and no run began between the guard's answer and the replacement |
| CompactionRace.LateReplace | core/compressor.py:659-661 | without the second condition it need not: wherever a guarded compaction can start, the guard can say yes, a run begin and make a call, and the replacement break pairing |
| CompactionRace.EarlyLook | core/agent_runtime/loop.py:109-135 | without the first condition it need not: a compactor that looks while a call is out keeps the carrier and later drops the result |
| CompactionRace.TornReplaceIff | core/compressor.py:677-678 | an append between the clearing and the extending of the list ends up in front of the system message: the result is well formed if and only if nothing was appended |
| CompactionRace.ReplaceLoses | core/compressor.py:640-680 | of the messages behind the first, a replacement drops without having seen them exactly those that were not in the list when the compactor looked; all others are summarised or kept |
| CompactionRace.LosslessCommitIff | core/compressor.py:635-679 | over all interleavings: nothing is lost if and only if every message that some step has put into the list since the look, and that the compactor had not seen, has left the list again |
| CompactionRace.GrowingLoss | core/compressor.py:635-679 | if nothing is taken out of the list in between, the loss is exactly the messages appended, one for each append |
| CompactionRace.UntouchedCommit | core/compressor.py:663-680 | if the list reads as it did at the look, whatever happened in between, the replacement is the atomic compaction of it |
| CompactionRace.GuardedLoss | core/compressor.py:655-661 | wherever a guarded compaction can start, a whole user turn between look and guard passes and disappears |
| CompactionRace.UnguardedOrphan | core/compressor.py:631-637 | the no-summary fallback is not guarded: wherever it can start in a run, it can replace between a call and its result and leave the result without a carrier |
| CompactionRace.RollbackUndone | core/agent_runtime/loop.py:141-152 | a compaction that looks before the dispatcher rolls a round back and replaces after it makes the round's hidden prompt visible |
| CompactionRace.BringsBackIff | core/compressor.py:648-678 | a replacement brings back a message that the list has given up if and only if it is in the kept tail |
| CompactionRace.Compactable | core/compressor.py:627-647 | there are states in which these runs can begin |
| SharedSnapshot.RollbackShape | gateway/dispatcher.py:2388-2399 | restoring the shallow snapshot of a Plan/Goal round gives back messages of the same shape, so pairing is untouched |
| SharedSnapshot.RollbackExactIff | gateway/dispatcher.py:2137-2152 | every run of a round, giving at most the one answer a run can give, leaves the snapshot as it was if and only if it holds no image outside answers and tool results, no new prompt is pending for its system message, and each goal answer that is over the cap, counting one answer more in a goal round, is archived already; the source's comment says no message is changed in place but the system prompt |
| SharedSnapshot.FewAnswersExact | gateway/dispatcher.py:2388-2434 | with no image, no pending prompt and fewer goal answers than the cap allows, every run gives the snapshot back as it was |
| SharedSnapshot.AnswersCounted | agent.py:1126-1144 | the count is at most one if and only if no two answers are among the messages |
| SharedSnapshot.RestoredIsRound | gateway/dispatcher.py:2388-2434 | read as values, the restored objects are the front of the list that `RuntimeRounds.AfterRound` gives |
| SharedSnapshot.FadingRound | core/compressor.py:298-299 | one answer and one light pass in the round are enough to lose the images of a snapshot message |
| SharedSnapshot.RepromptedRound | core/agent_runtime/loop.py:86-107 | a pending prompt is written into the snapshot's own system message |
| SharedSnapshot.ArchivingRound | gateway/dispatcher.py:238-242 | one new answer, the most a run gives, archives in the snapshot's own object an answer of the goal that it pushes over the cap |
| ProviderView.KeepPass | core/agent_runtime/context.py:17-43 | the first pass hides runtime records and orphaned or repeated results |
| ProviderView.CompletePass | core/agent_runtime/context.py:44-74 | the second pass adds one placeholder per declared call without a result |
| ProviderView.LlmMessages | core/agent_runtime/context.py:10-74 | the two passes together compute the view |
| ProviderView.ViewAccepted | core/agent_runtime/context.py:10-60 | for every list whatsoever the view is acceptable to a provider if and only if no visible assistant message declares an empty call id |
| ProviderView.ViewKeepsOthers | core/agent_runtime/context.py:17-73 | every visible message that is no tool result is sent unchanged and in order, whatever the list |
| ProviderView.ViewKeepsResult | core/agent_runtime/context.py:17-73 | the first stored result of a call, behind timeline records and other results, is sent as it is |
| ProviderView.ViewOfPaired | core/agent_runtime/context.py:12-16 | a paired transcript with distinct, named calls is sent unchanged apart from runtime records |
| Replay.ToolRunMessages | gateway/agent_factory.py:153-205 | the loop builds one carrier with the usable calls, their results in order, and notes for the rest |
| Replay.TurnNodesToMessages | gateway/agent_factory.py:208-266 | the loop over the stored nodes computes the specified replay |
| Replay.ApplyHistory | gateway/agent_factory.py:333-337 | a replayed history comes out well formed, with the prompt in front and unchanged behind it |
| Replay.AppliedIs | gateway/agent_factory.py:325-337 | a history that begins with this very prompt is taken as it is, any other is put behind it |
| Replay.TurnPaired | gateway/agent_factory.py:208-230 | whatever was stored, the replay is paired |
| Replay.TurnKeepsCalls | gateway/agent_factory.py:170-190 | each tool node with usable arguments comes back exactly once, in stored order |
| Replay.TurnRecalls | gateway/agent_factory.py:153-266 | the user messages are the stored user nodes that say something, in order and with their own text; the tool messages are the stored results of the usable calls, in order, with id, name and result |
| Replay.TurnSays | gateway/agent_factory.py:153-266 | the texts of the assistant messages, one below the other, are the stored assistant texts and the notes in stored order |
| Replay.TurnConcat | gateway/agent_factory.py:208-266 | cut anywhere but inside a tool run or between it and its text, the halves are replayed one behind the other |
| Replay.AnswerReplayed | gateway/agent_factory.py:237-256 | between any other nodes an assistant text without tools comes back alone, with its own text, marked final or intermediate as stored |
| Replay.RunReplayed | gateway/agent_factory.py:153-205 | a tool run with the text in front of it becomes one carrier with that text first, its calls and their results, or one intermediate message |
| Replay.RunCallsAre | gateway/agent_factory.py:161-192 | calls and results of a run are those of its usable nodes, and each other node leaves a note with its tool, arguments and result |
| Replay.HistoryConcat | gateway/agent_factory.py:319-322 | each turn is replayed by itself, in its place, without the nodes that are never shown |
| Replay.RestoredWellFormed | gateway/agent_factory.py:153-266 | a restored transcript satisfies the transcript invariant, whatever nodes were stored |
| RuntimeRounds.CollectRounds | gateway/dispatcher.py:223-235 | the scan finds the answers of the goal in order |
| RuntimeRounds.ApplyGoalInjectCap | gateway/dispatcher.py:206-242 | the in-place cap archives all but the latest answers of one goal |
| RuntimeRounds.RetainRuntimeActivity | gateway/dispatcher.py:2388-2441 | the round's activity is put behind the restored snapshot as runtime records and plain answers, then capped |
| RuntimeRounds.RetainedIs | gateway/dispatcher.py:2396-2420 | what a round leaves of each message: prompts and empty answers go, tool traffic and unpublished answers stay in the timeline under goal and round, published answers stay visible |
| RuntimeRounds.RoundVisible | gateway/dispatcher.py:2388-2441 | whatever the round did to the list, the model afterwards sees the old transcript and the published answers, which are plain, under the cap |
| RuntimeRounds.RoundPlainIff | gateway/dispatcher.py:206-242 | it sees the old transcript itself and the answers if and only if the round added nothing, or all but the latest inject_keep_last answers of the goal were archived already |
| RuntimeRounds.RoundRewrites | gateway/dispatcher.py:239-242 | a second answer under a cap of one rewrites the first, which the model had seen |
| RuntimeRounds.UnpublishedRound | gateway/dispatcher.py:2400-2420 | a plan step that is not the last adds nothing to what the model sees; only the cap may rewrite older answers there, and only if the round added something |
| RuntimeRounds.CapOthers | gateway/dispatcher.py:227-234 | messages that are no answer of this goal are untouched |
| RuntimeRounds.CapBound | gateway/dispatcher.py:236-242 | after the cap at most inject_keep_last answers of the goal carry their text |
| RuntimeRounds.RoundBounded | gateway/dispatcher.py:2396-2441 | a round keeps that bound for its own goal and all others, even one that adds nothing and is not capped |
| RuntimeRounds.CapKeepsLatest | gateway/dispatcher.py:238-242 | the answers kept are the latest ones and all others become stubs |
| RuntimeRounds.ArchivedNames | gateway/dispatcher.py:238-242 | the stub of an archived answer names goal and round and keeps nothing of the answer |
| RuntimeRounds.RoundArranged | gateway/dispatcher.py:2396-2441 | a round keeps the arrangement even if it truncated or compacted the list, and on an empty list |
| RuntimeRounds.RoundWellFormedIff | gateway/dispatcher.py:2398-2427 | afterwards the transcript is well formed if and only if it was before and the round did not begin on an empty list and retain something |
| RuntimeRounds.HeadlessRound | gateway/dispatcher.py:2152 | the first goal round of a new session leaves a lone answer without a system message |
| TranscriptRuns.ApplyInv | agent.py:1083-1164 | each operation, replay, user turn, batch, answer, truncation, the three compressions and whole background rounds, on an empty list too, keeps the invariant |
| TranscriptRuns.AppendsAre | agent.py:1060-1165 | a turn begins with the user's message, behind the system message in a new session; a batch appends its carrier and one result per call in order, an answer itself |
| TranscriptRuns.ApplyWellFormedIff | agent.py:1059-1060 | an operation leaves the system message first if and only if it starts a new transcript, or it was first before and the operation is no round that beheads an empty transcript |
| TranscriptRuns.RunInv | gateway/dispatcher.py:2137-2199 | so does any sequence of operations, with rounds nested in it to any depth |
| TranscriptRuns.ReachableTranscript | core/agent_runtime/context.py:10-74 | in every reachable transcript tool results follow their carriers, calls are answered and a summary is only second; what the model is sent is acceptable, and with distinct calls is exactly the visible messages; the system message is first if and only if every round that beheaded an empty transcript has been followed by a new start |
| TranscriptRuns.RunWellFormedIff | gateway/dispatcher.py:2396-2427 | the last part, over every sequence of operations |
| TranscriptRuns.ReachableAnswers | gateway/dispatcher.py:206-242 | with a fixed cap no reachable transcript holds more than inject_keep_last full answers of any goal |
| RWLock.Lock.TryRead | memory/manager.py:167-173 | one round of read() is the step of the lock, and enters exactly if it did |
| RWLock.Lock.TryWrite | memory/manager.py:181-190 | likewise for write(), whose entry announces the writer |
| RWLock.Lock.EndRead | memory/manager.py:174-179 | the last reader wakes everybody |
| RWLock.Lock.EndWrite | memory/manager.py:191-196 | the writer wakes everybody |
| RWLock.ReachableInv | memory/manager.py:151-196 | for any number of threads and any schedule: writers exclude everybody, the counters equal the holders and waiters, and no wake-up is lost |
| RWLock.SomeoneProceeds | memory/manager.py:170-172 | with no holder and somebody waiting, some waiter is awake and its next step enters |
| RWLock.WritersFirst | memory/manager.py:155-156 | no reader enters past a waiting writer |
| RWLock.InterruptIff | memory/manager.py:184-190 | an exception in the writer's wait keeps exclusion and counters; it loses a wake-up if and only if the lock is free, the interrupted writer is the only awake one and a reader sleeps |
| RWLock.InterruptLosesWakeUp | memory/manager.py:184-190 | a concrete run reaches that state: lock free, a reader asleep, nobody to wake it |
| EntryCodec.DecodeEncode | memory/manager.py:118-132 | decoding an encoded value, padding included, gives the value back |
| EntryCodec.EncodeOneLine | memory/manager.py:109-116 | an encoded value is one line, whatever it contains |
| EntryCodec.EncodePlain | memory/manager.py:109-116 | a text without quotes, backslashes and control characters is only put in quotes |
| EntryCodec.EscapesAre | memory/manager.py:109-116 | the escapes of the characters that have one, and of the other control characters |
| EntryCodec.TrailingRejected | memory/manager.py:118-132 | anything behind the closing quote makes the text no value |
| DailyFile.ReadDailySummaries | memory/manager.py:855-921 | the parser's loop computes the fold over the lines |
| DailyFile.FindBlockLineSpan | memory/manager.py:1201-1239 | the locator's nested loops compute the specified span |
| DailyFile.UpdateOrAppend | memory/manager.py:1160-1198 | the text written: span replaced, or block appended behind the stripped file |
| DailyFile.RemoveEntryBlocks | memory/manager.py:1004-1025 | the text left, untouched if no id was found, and no file if nothing is left |
| DailyArchive.ReadFile | memory/manager.py:855-921 | a file of blocks and blank lines reads as the summaries of its entries, also with `---`, `ID:` or quotes in message and call texts |
| DailyArchive.SummaryIs | memory/manager.py:911-940 | the summary of an entry is its message's lines that are not blank, trimmed, in order, joined by line breaks; over 500 characters it is cut at the last line break before 500, or at 500 if that lies before 200, and says how long it was |
| DailyArchive.ReaderSummary | memory/manager.py:855-940 | what the reader captures from the written lines of a message comes to exactly that summary |
| DailyArchive.ReadOpenBlock | memory/manager.py:917-920 | a block that is still open at the end of the file is read all the same |
| DailyArchive.OutsideIgnored | memory/manager.py:877-914 | text outside of blocks says nothing to the reader |
| DailyArchive.OldCallRead | memory/manager.py:877-907 | a call text in the old form over several lines says nothing to the reader, whatever its lines look like |
| DailyArchive.OldCallLocated | memory/manager.py:1221-1236 | and the locator passes over the same lines |
| DailyArchive.LocatePresent | memory/manager.py:1201-1239 | the span of a present id is exactly its block, also if the call text ends in a backslash |
| DailyArchive.LocateAbsent | memory/manager.py:1201-1239 | an absent id is not found, whatever the texts contain |
| DailyArchive.LocateFirst | memory/manager.py:1216-1239 | in any file the locator finds the first separator that the id line follows |
| DailyArchive.BuiltText | memory/manager.py:399-427 | the writer's block text, trimmed, is the block's lines |
| DailyArchive.BlockDetermines | memory/manager.py:399-427 | nothing of an entry is lost in its block: different entries have different blocks |
| DailyArchive.UpsertRead | memory/manager.py:1160-1198 | after an upsert the reader returns the new summary for that id and the old one for every other |
| DailyArchive.RemoveRead | memory/manager.py:1004-1025 | removal deletes exactly the named ids |
| DailyArchive.ArchiveFaithful | memory/manager.py:1160-1239 | every history of upserts and removals, from no file at all, reads back as the map it is meant to be |
| MemoryIndex.MemoryManager.ApplyHits | memory/manager.py:641-658 | each hit still in the cache adds one to weight and pending change alike |
| MemoryIndex.MemoryManager.UpdateWeight | memory/manager.py:1054-1077 | feedback adds the delta to weight and pending change of the entry, if there is one after a refresh |
| MemoryIndex.MemoryManager.Flush | memory/manager.py:711-721 | a dirty index is written and its pending changes are cleared |
| MemoryIndex.MemoryManager.ScoringCorpus | memory/manager.py:603-628 | for the candidates of any search the corpus is what building afresh gives, whether or not the cached one is taken |
| MemoryIndex.Noted | memory/manager.py:652-656 | for every id the pending change grows by the delta if it was hit and by nothing otherwise |
| MemoryIndex.Ledger | memory/manager.py:641-789 | in every run, over hits, feedback, flushes, saves, reloads and foreign changes: an entry's weight is what it was, plus every hit and feedback exactly once, plus the foreign changes, minus those that flushes have overwritten; while current the cached weight is that weight |
| MemoryIndex.FlushKeepsIff | memory/manager.py:711-721 | a flush keeps the weight of the ledger if and only if the cache is current, or nothing is dirty, or the file holds the weight last seen |
| MemoryIndex.CountedOnce | memory/manager.py:641-721 | if that holds at every flush, every hit, feedback and foreign change counts exactly once |
| MemoryIndex.LostUpdate | memory/manager.py:711-721 | a hit here, a hit in another process and a flush: two hits, and the file says one |
| MemoryIndex.TraceInv | memory/manager.py:641-789 | cached weight = weight last seen in the file + pending change, entry by entry, in every run |
| MemoryIndex.FlushInv | memory/manager.py:711-721 | a flush keeps the balance and leaves the cache on disk |
| MemoryIndex.StoreInv | memory/manager.py:380-395 | saving a conversation keeps the balance: pending changes are cleared with the write |
| MemoryIndex.SavedEntry | memory/manager.py:330-397 | a save puts the entry into cache and file and its summary and tokens in place, and leaves nothing to be written |
| MemoryIndex.ReloadInv | memory/manager.py:778-789 | reloading after an external change applies the pending changes to what the disk holds now |
| MemoryIndex.RefreshedCache | memory/manager.py:778-790 | a stale cache becomes the entries on disk, each with its weight there plus what was still to be written |
| MemoryIndex.RefreshedIndex | memory/manager.py:809-828 | after a refresh the cached object covers the entries of weight -5 or more and no others |
| MemoryIndex.CleanupBalancedIff | memory/manager.py:942-999 | cleanup keeps the balance if and only if no surviving entry has a pending change |
| MemoryIndex.CleanupSettled | memory/manager.py:984-987 | clearing the pending changes there, as the other writers do, restores it |
| MemoryIndex.CleanupCountsTwice | memory/manager.py:738-789 | otherwise a reload before the next flush adds each surviving change a second time |
| MemoryIndex.CachedScorerExact | memory/manager.py:603-628 | in every reachable state, cleanups included, a search scores with exactly the token lists a scorer built over the candidates would have, in the same order |
| MemoryIndex.TraceCache | memory/manager.py:791-853 | the cached corpus covers the ids it remembers, in index order, in every run, cleanups included |
| MemoryIndex.StepTokens | memory/manager.py:711-761 | every step keeps each entry's tokens those of its call and the summary last read; the summaries stay those of the files if and only if the step is no flush over summaries changed elsewhere |
| MemoryIndex.SearchesFiles | memory/manager.py:550-628 | so a search scores with the tokens of the very summaries in the files, unless such a flush has hidden a change |
| MemoryIndex.SearchCorpus | memory/manager.py:603-628 | spelled out: the entries scored are those wanted with weight -5 or more, each with the tokens of its call, a blank and its summary in the files; without any token there is no corpus |
| MemoryIndex.CandidatesInOrder | memory/manager.py:550-580 | candidates keep the order of the index |
| MemoryIndex.KeptInOrder | memory/manager.py:960-1000 | cleanup keeps exactly the entries not dropped, in their order |
| MemoryIndex.LoadInv | memory/manager.py:778-789 | the first load establishes all these invariants |
| Execution.Dispatcher.TryEnter | gateway/dispatcher.py:1888-1904 | the try-lock: entered exactly if the session was idle |
| Execution.Dispatcher.RetireAgent | gateway/dispatcher.py:2318-2331 | the agent's current run id, if it has one, is registered; the register is emptied first at its cap |
| Execution.Dispatcher.QuarantineAfterTimeout | gateway/dispatcher.py:2338-2385 | the session forgets the agent, its run is registered, the lock is free |
| Execution.Dispatcher.SinkCheck | gateway/dispatcher.py:2064-2072 | the check lets the event pass or drops it, as a step of its own |
| Execution.Dispatcher.SinkDeliver | gateway/dispatcher.py:2079-2080 | the event that passed reaches the bridge |
| Execution.NeverShared | gateway/dispatcher.py:1888-2001 | over all interleavings of any sessions, hard timeouts and managed cancellations included, no two workers run the same agent, as long as no unmanaged cancellation leaves a worker behind |
| Execution.OrderlyIff | gateway/dispatcher.py:1888-2001 | the exclusion invariant holds throughout a run if and only if no unmanaged cancellation in it leaves a worker behind |
| Execution.UnmanagedCancelIff | gateway/dispatcher.py:2260-2274 | cancelling the unmanaged wait is harmless if and only if its worker has finished, or its job was still queued and the wait was the second, unshielded one, which withdraws it |
| Execution.SharedAfterCancel | gateway/dispatcher.py:2260-2277 | otherwise the next message starts a second worker on the same agent |
| Execution.ReturnKeepsAgent | gateway/dispatcher.py:1888-1911 | after a normal return the session is free and its next turn runs on the same agent; nothing else has changed |
| Execution.EndsAreOpen | gateway/dispatcher.py:1888-1911 | what has begun can end, and a turn without work frees the session and keeps its agent |
| Execution.QuarantineForgets | gateway/dispatcher.py:2338-2360 | after a quarantine the next turn cannot run before it has created an agent that no worker uses |
| Execution.OtherSessions | gateway/dispatcher.py:1888-2001 | a step of one session leaves the entries of all others alone |
| Execution.QuarantineSilences | gateway/dispatcher.py:2338-2385 | quarantine of a run with its id drawn registers that run |
| Execution.SilentForever | gateway/dispatcher.py:2064-2087 | in any continuation in which the register is not emptied, exactly those events of a registered, detached run arrive that had passed the check before, one for each thread then on its way |
| Execution.QuarantinedRunSilent | gateway/dispatcher.py:2333-2385 | in any run of the dispatcher, given that the id was drawn and the cap not reached: after the quarantine only events whose check came before it arrive, at most one for each emitting thread |
| Execution.LateEvent | gateway/dispatcher.py:2064-2080 | such a late event: check, quarantine, delivery |
| Execution.CheckIff | gateway/dispatcher.py:2064-2072 | the check drops an event if and only if the run it belongs to is registered |
| Execution.EarlyQuarantineLeaks | agent.py:1039 | a worker quarantined before it draws its run id escapes: its later events pass |
| Execution.CapForgets | gateway/dispatcher.py:515-516 | at the cap a quarantine forgets every older run |
| Execution.WithdrawnJob | gateway/dispatcher.py:2255-2277 | a job withdrawn before it began may still begin, on an agent that no session has any more |
| Scheduler.Scheduler.Fire | gateway/scheduler.py:594-617 | both capability checks, or the entry in all tables with its deadline |
| Scheduler.Scheduler.TryFire | gateway/scheduler.py:582-592 | admitted exactly if the name is not running and there is room; each refusal has its record |
| Scheduler.Scheduler.OnReply | gateway/scheduler.py:678-708 | a reply ends the entry with its key, or is the late reply of an expired one, or is ignored |
| Scheduler.Scheduler.Release | gateway/scheduler.py:566-576 | an entry leaves both tables, frees its name and gets its record |
| Scheduler.Scheduler.SweepWatchdogs | gateway/scheduler.py:554-578 | the loop over the snapshot of the table equals the sweep of the specification |
| Scheduler.Scheduler.RestoreRuntimeContext | gateway/scheduler.py:632-674 | recovery puts the entry in without admission |
| Scheduler.Scheduler.MakeRecord | gateway/scheduler.py:418-440 | one record is logged; history keeps the latest and the counters agree with the whole log |
| Scheduler.DeadlineLeast | gateway/scheduler.py:359-368 | the deadline is the earliest instant that leaves both the agent's hard limit and the job's own limit their grace |
| Scheduler.TriedIs | gateway/scheduler.py:582-617 | a tick's decision: refused with a record for overlap, lack of room, capability or goal, in that order, and otherwise in all tables with its deadline |
| Scheduler.ManualIs | gateway/scheduler.py:792-801 | a manual start is refused without a record and otherwise is such a fire |
| Scheduler.ReplyIs | gateway/scheduler.py:678-708 | a reply to a fire in flight makes its record and is passed on, a late one is passed on once, any other changes nothing but a stray watchdog |
| Scheduler.SweptKeyIs | gateway/scheduler.py:554-578 | a watchdog that is due gives its entry up with a record and leaves it open to a late reply, or goes if it has none |
| Scheduler.RecoveryIs | gateway/scheduler.py:632-674 | a recovered fire keeps its instant if and only if that lies in the past, and counts from now otherwise; stopping forgets watchdogs and late replies alone |
| Scheduler.ClassifyIs | gateway/scheduler.py:710-717 | a reply counts as failed or timed out exactly if, behind blanks, it begins with the one or the other mark |
| Scheduler.CountedAre | gateway/scheduler.py:418-433 | the statistics of a job are the numbers of its records that count as runs and of those that failed or timed out |
| Scheduler.KeyName | gateway/scheduler.py:604-607 | a session key determines the job's name if that has no colon |
| Scheduler.KeyClash | gateway/scheduler.py:604-607 | with colons two jobs can share a key |
| Scheduler.RegularRun | gateway/scheduler.py:554-708 | in every run without recovery, stop or lowered limits: watchdogs guard exactly the pending entries, running names and entries correspond one to one, at most max_concurrent run, each accepted fire is in flight or has exactly one record, and no fire is answered twice |
| Scheduler.RegisteredIff | gateway/scheduler.py:582-617 | putting in an entry keeps the invariant if and only if key and name are free and there is room |
| Scheduler.FreeKey | gateway/scheduler.py:604-613 | admission of a name implies that its key is free |
| Scheduler.SweepReleases | gateway/scheduler.py:554-578 | a sweep releases exactly the entries at or past their deadline, frees their names and gives each its one record |
| Scheduler.ReloadIff | gateway/scheduler.py:370-375 | a new limit keeps the invariant if and only if no more than that many jobs run |
| Scheduler.StopIff | gateway/scheduler.py:460-474 | stop keeps it if and only if nothing is pending: it clears the watchdogs alone |
| Scheduler.RestoreIff | gateway/scheduler.py:632-674 | recovery keeps it if and only if what admission would have checked holds |
| Scheduler.RecoveredRunDrains | gateway/scheduler.py:632-674 | with recoveries and lowered limits anywhere, a sweep after the last deadline still leaves nothing pending and nothing running |
| Scheduler.RestoreOverlaps | gateway/scheduler.py:664-673 | two recovered entries of one job: the first reply frees the name while the second is in flight |
| Scheduler.MiscreditIff | gateway/scheduler.py:678-708 | the reply to a fire is credited to another one if and only if another fire of that key is pending, or one is awaited late and this one is not pending |
| Scheduler.MiscreditLater | gateway/scheduler.py:604-617 | in every regular run only a later fire can take the reply to an unanswered one |
| Scheduler.LateReplyTaken | gateway/scheduler.py:604-607 | a persistent job has one key for ever: fired again after its watchdog, the late reply ends the new fire |
| LruDedup.LRUDedup.IsDup | gateway/dispatcher.py:443-460 | the ordered dictionary always holds the capacity most recently used distinct ids of the whole history, and the answer is the history's |
| LruDedup.DuplicateIff | gateway/dispatcher.py:448-455 | an id is remembered if and only if it occurred with fewer than capacity other ids since |
| LruDedup.LargerFindsMore | gateway/dispatcher.py:443-460 | a larger capacity reports a superset on every message sequence; with room for all, every repetition |
| Mcp.MCPConnection.Register | core/mcp_client.py:846-859 | a fresh id is drawn and its future registered |
| Mcp.MCPConnection.OnTimeout | core/mcp_client.py:865-867 | the caller gets a timeout and its id leaves the map |
| Mcp.MCPConnection.FailPending | core/mcp_client.py:881-886 | every waiting future is failed and the map emptied |
| Mcp.MCPConnection.OnMessage | core/mcp_client.py:894-913 | a message completes the future of its id, if that is waiting |
| Mcp.MCPConnection.OnLoopExit | core/mcp_client.py:919-924 | the loop's end drops the flag and fails what is pending |
| Mcp.Target | core/mcp_client.py:906-911 | a message is matched with a pending id exactly if it bears one |
| Mcp.TraceInv | core/mcp_client.py:837-924 | the correlation invariant holds in every run |
| Mcp.RepliesAreOwn | core/mcp_client.py:837-924 | in every run with timeouts, late replies, disconnects and reconnects: a reply handed to a caller is the first message with its id since the request, and no message reaches two callers |
| Mcp.CompletedOnce | core/mcp_client.py:861-870 | an outcome once given never changes |
| Mcp.LateReplyIgnored | core/mcp_client.py:908-911 | a message for no pending id touches no call |
| Mcp.FatalIs | core/mcp_client.py:888-924 | a line that is no object, or an id that is no key, ends the loop, breaks what is pending and drops the flag; other lines without an id are passed over |
| Mcp.GiveUpIs | core/mcp_client.py:837-870 | a caller that times out leaves no id behind and cancels a waiting future; a cancelled one leaves its id, and its future waits on if nothing was sent yet |
| Mcp.NothingLeftPending | core/mcp_client.py:745-759 | after the loop's end and after close the map is empty and every waiting caller is about to be told |
| Mcp.GenuineIff | core/mcp_client.py:906-911 | the completing message is a response if and only if it is no request of the server's own |
| Mcp.FirstMessageWins | core/mcp_client.py:888-924 | in every continuation the first message with a pending id stays that call's result, whoever gets a reply gets it, and it is a response if and only if it is no request of the server's own |
| Mcp.RepliesAreResponses | core/mcp_client.py:888-913 | if no inbound message with an id is a request, every reply is a response |
| Mcp.ServerRequestAccepted | core/mcp_client.py:907-911 | a server request that bears the handshake's id completes the handshake |
| Mcp.LiveIff | core/mcp_client.py:678-743 | every step keeps `initialised implies a reader` except finishing a handshake whose loop has ended |
| Mcp.LostDisconnect | core/mcp_client.py:715-743 | a disconnect during the handshake's notification leaves the connection initialised with no reader |
| Mcp.DeafForever | core/mcp_client.py:678-700 | nothing but an explicit close leads out of that state: no later call is answered |
| Config.DeepMerge | core/config_loader.py:422-430 | the entry-by-entry loop computes the recursive merge |
| Config.MergeLeaves | core/config_loader.py:422-431 | at every path a merged tree has the leaf of the upper one, or that of the lower one if the upper one has no value on the way |
| Config.StripDefaultEqualLeaves | core/init_wizard.py:1095-1119 | the loop computes the sparse tree |
| Config.FindMissing | core/init_wizard.py:1066-1074 | the search with early exit decides whether a key is missing at any depth |
| Config.SectionsNeedingBackfill | core/init_wizard.py:1077-1092 | the sections that lack something |
| Config.WriteConfig | core/init_wizard.py:1191-1235 | what the wizard writes, with answers and with an accepted backfill, and that nothing changes unless it is confirmed |
| Config.SameIff | core/init_wizard.py:1115 | two values are equal if and only if they are once every number and truth value is written as a number of one kind |
| Config.StripMeaning | core/init_wizard.py:1095-1119 | for all configurations and defaults the sparse file loads as the full one |
| Config.StripExact | core/init_wizard.py:1095-1119 | without numbers and truth values the sparse file loads as the very same values |
| Config.StripLeaves | core/init_wizard.py:1107-1118 | at every path the sparse file has a leaf if and only if the full one has it and the defaults have none of the same normal form there |
| Config.LeafDropped | core/init_wizard.py:1115-1116 | a text, null or list of texts is dropped if and only if it is the default itself; an integer only for a default of the same number |
| Config.StripExactIff | core/init_wizard.py:1108-1119 | the loaded values are identical, and not merely equal, if and only if no leaf differs from its default in kind alone |
| Config.StripKindLost | core/init_wizard.py:1112-1116 | a 1 over a default of true is dropped and loads as true |
| Config.StripIdempotent | core/init_wizard.py:1095-1119 | stripping twice is stripping once |
| Config.StripNoEcho | core/init_wizard.py:1098-1103 | no leaf equal to its default is left at any depth |
| Config.StripLeast | core/init_wizard.py:1095-1107 | any file with the same loaded meaning contains all leaves of the stripped one |
| Config.MissingIff | core/init_wizard.py:1066-1074 | nothing is missing if and only if loading adds nothing |
| Config.SectionsIff | core/init_wizard.py:1077-1092 | a section is listed if and only if it is absent or loading changes it |
| Config.FillKeeps | core/init_wizard.py:1077-1080 | filling in under the existing values, as documented, changes neither them nor what is loaded |
| Config.FillMeaning | core/init_wizard.py:1224-1235 | written sparsely, such a fill loads as before |
| Config.OverwriteIff | core/init_wizard.py:1201-1208 | putting defaults over values keeps the meaning if and only if they agree |
| Config.BackfillIff | core/init_wizard.py:1191-1235 | the merge order in use keeps the meaning of the file if and only if no completed section holds a value that differs from its default |
| Config.BackfillOverwrites | core/init_wizard.py:1201-1208 | one missing key resets the section's chosen value |
| Config.MergeAssociativeIff | core/config_loader.py:422-430 | merging is associative exactly unless a plain value hides a section |
| Config.AnswersTakeEffectIff | core/init_wizard.py:1224-1235 | after writing, the program loads what it would have loaded before with the answers on top, in order, if and only if every section of the defaults for which the file or an answer once had a plain value comes out plain or with all its defaults, at every depth |
| Config.LastAnswerWins | core/init_wizard.py:1224-1235 | what the latest answer sets is loaded, whatever file, defaults and earlier answers say, up to the kind of a number |
| BoundedBuffer.BoundedStreamBuffer.Append | core/shell.py:167-188 | head, tail and flag depend on the concatenated stream alone, not on its chunks |
| BoundedBuffer.BoundedStreamBuffer.Value | core/shell.py:190-198 | head, mark if flagged, tail |
| BoundedBuffer.BoundedStreamBuffer.Drain | core/shell.py:201-213 | reading chunks up to the first empty one leaves what their concatenation leaves |
| BoundedBuffer.Bounded | core/shell.py:148-160 | the bytes kept never exceed the limit; they are a prefix and a suffix of the stream |
| BoundedBuffer.LimitIs | core/shell.py:148-160 | without a positive limit everything is kept and shown |
| BoundedBuffer.LosslessIff | core/shell.py:172-188 | nothing is lost if and only if the stream fits |
| BoundedBuffer.MarkIff | core/shell.py:182-198 | the mark is shown if and only if the head overflows: for streams between head size and limit it is shown although no byte is missing |

## Left out

- Model calls, prompts and the wording of summaries and stubs: a reply is any string, the stub's text any function of the message.
- `ToolBatchExecutor` is not part of this model: it is taken to yield one result per call, in order.
- DailyArchive.ArchiveFaithful: for files that this writer makes; blocks with an old call text over several lines are read and passed over (`OldCallRead`, `OldCallLocated`) but are no part of such a file.
- The legacy tool-result format (`role="user"`, `name="tool_result"`).
- Message fields that no modelled operation reads (`internal`, timestamps, `is_error`, names of models), and the cached per-message estimates and cache-hit counters of `MessageStore`.
- DailyArchive.UpsertRead: time stamp and session id are taken to be one line each, as the program makes them; message text has no bare carriage return, which text-mode reading would turn into a line break.
- EntryCodec.DecodeEncode: `\u` escapes of surrogate pairs in foreign files are not decoded; the encoder never writes them.
- MemoryIndex.CachedScorerExact: BM25 is any function of the list of token lists, so the equality is of its argument; tokenisation is a parameter, and ranking and filters behind the scores are left out.
- CompactionRace.PairedThroughoutIff: look and replacement are one step each; what an append between the two list operations of a replacement does is the separate `TornReplaceIff`. An empty list, exceptions inside a batch and clearing the session do not occur in that module, and a light pass after the look does not reach the kept tail, although the image downgrade writes into the shared message objects; `SharedSnapshot` models that sharing for rounds.
- MemoryIndex.Ledger: for entries that exist in cache and file throughout, over runs whose cleanups find no pending change of an entry they keep; the others are `CleanupBalancedIff`.
- MemoryIndex.StoreInv: saving and cleanup refresh and write in one step; the file is locked for each access only, so a write of another process between the two is not captured.
- MemoryIndex.MemoryManager.ScoringCorpus: returns the corpus the scorer is built from, not the scores.
- Files, fsync, file locks and modification times: a file is its text, the index on disk a value, and a foreign change a step that replaces it.
- RWLock.ReachableInv: exceptions that end a writer's wait are the separate step of `InterruptIff`; fairness of the host's condition variable is not assumed and not stated.
- Execution.NeverShared: other places that drop a session's agent (workspace interface, runner) and the log-only table of timed-out agents are not modelled.
- Scheduler.RegularRun: names have no colon, since keys are then injective in them; recovery, `stop` and a lowered limit have their own if-and-only-if rows.
- Cron ticks, leases, delivery modes, durations and previews of scheduler records, clean-up of isolated sessions.
- Mcp.RepliesAreOwn: payloads and error bodies are not modelled; an error reply counts as a reply, also for the handshake, as in the code.
- Config.WriteConfig: the backup of the old file, and the normalisation of known agent-runtime values after stripping.
- Config.DeepMerge: on values, so the aliasing of nested dictionaries that the in-place merge shares between base and override is not captured; neither are NaN and float rounding.
- BoundedBuffer.BoundedStreamBuffer.Append: the bytes held for the length of one append, before the tail is trimmed, are not counted.
- The HTTP server, channels, command line, web interface, sandbox, permission policy, process control, metrics and text utilities: plumbing, operating-system behaviour or easy.
