# The Cursor Agent v1 bridge, proved

This project is a Dafny model of the durable session machinery in `cursoragentv1`: the bridge that turns
stateless Claude and Responses requests into long-lived Cursor agent runs, parks a run while the caller
executes its tools, and replays finished answers to retried requests. It proves what that machinery is for:

- **Session store.** Exclusive leases with owner generations and tokens, a pending-batch index with per-tool
  pointers, and completed snapshots that expire. Over every run of every store call, by any number of
  processes, with crashes between the records and the index: the index answers what a scan of all sessions
  answers; a completed snapshot keeps its content until its record has outlived its own retention, and exactly
  when an ephemeral save may shorten that is stated; a session has at most one live owner, and a released or
  superseded owner changes nothing; ids that span two live batches are never resolved to one of them. Who may
  claim a session is stated exactly, and what the new owner finds in it; after a save of pending tools, results
  for exactly those tools find the session until something named ends its wait.
- **Session managers.** Any number of managers on one store, in every interleaving: two stored generations of
  one history key are more than the retention apart, no engine starts while its snapshot is live, and every replay
  carries the events of a generation that stored them. One managed
  session with its engine, Park, Cancel, resume and run-finish interleaved: the terminal event comes once, after
  the save it owes and the release; a failed save is the result exactly when a full tool-result queue did not
  close the output before; every output holds what was addressed to it, in order; the error of a run is the first
  thing that went wrong.
- **Snapshot compaction.** The online compactor keeps usage facts, visible text and both client projections, is
  a normal form, round-trips through its stored form, and counts bytes exactly.
- **Usage.** Sums of turns do not depend on order or grouping, and a carry keeps them.
- **History rebuild.** Which histories are accepted, and with which error the others are refused. Every tool call gets exactly one later result, every block is conserved in order, and
  lifting media out of results keeps both.
- **Streams.** What a Claude or a Responses client reassembles from the stream is the non-stream answer, and that
  answer holds all text, thinking, searches and calls of the events that went in, in order.
- **Agent loop and framing.** What its events say is exactly what arrived. When a run may end, when it hands over its tools, and that chunk boundaries in the
  upstream body do not matter.

## How it is built

Each source file that changes state step by step has a class or an imperative method here (`EventSnapshot`,
`ClaudeProjection`, `ResponsesProjection`, `PendingIndexFiles`, `CompletedFiles`, `FileStateStore`,
`ManagedOutput`, `HistoryBuilder`, `AgentRun`, `ReadFrames`, ...). Its methods are proved equal to functions on
values, and the properties are lemmas about runs of those functions. A `Run` or `Reach` function folds arbitrary
calls or moves, so a lemma about it is a statement about every reachable state.

| file | models |
|---|---|
| `Events`, `Usage`, `Strings`, `Json` | events, usage observations and facts, string helpers, the stored JSON of an event |
| `EventSnapshot`, `CompactionMeaning` | the compactor, its byte counter, and what the projections make of it |
| `ClaudeProjection`, `ClaudeStream`, `ClaudeContent` | the Claude stream and answer; the class over them; what an answer holds |
| `ResponsesProjection`, `ResponsesStream`, `ResponsesContent` | the Responses stream and envelope; the class over them; what an answer holds |
| `ToolIds`, `StateSnapshot` | tool-id normalization and hashed material; the session record |
| `PendingIndex`, `PendingIndexFiles` | the pending index and tool pointers; the class over them |
| `CompletedSnapshot`, `CompletedFiles`, `CompletedReplay` | completed and history snapshots; the class over them; what a retry is answered with |
| `StateStore`, `FileStateStore` | every store call; the class over them |
| `StoreRuns`, `StorePointers`, `StoreRetention`, `StoreFencing` | theorems about all runs of the store |
| `StoreClaims`, `StoreWaits` | who may claim a session and what it finds; who is found for submitted results |
| `HistoryRuns`, `HistoryReplay` | managers sharing a store; what their replays carry |
| `ManagedOutput`, `OutputDelivery` | one managed session; what its outputs hold and how its run ends |
| `FullHistory`, `HistoryAcceptance`, `ToolResultMedia` | `structuredHistory`; what it accepts; lifting media out of tool results |
| `AgentLoop`, `AgentRun`, `AgentContent`, `ConnectFraming` | the runner's event loop; the class over it; what its events say; Connect frames |

## What the runs assume

- Clocks do not run backwards, store calls are atomic and prune as often or as seldom as each process finds due,
  UUID tokens are fresh, a lock is held by one handle, and SHA-256 is injective. Besides, a process may die inside
  any call that writes or removes session records and then updates the index (`StoreRuns.DiesIn`: claim, save of
  pending tools, both deletes, pruning, resolving, opening); the index is then left with arbitrary contents.
- Every session record names its account, and a new process lists its whole directory (`StoreRuns.AllowedRun`).
  Until a process has rebuilt the index, or after a crash or a failed index write, a world is `unsynced`, and
  agreement is claimed again from the next rebuild on.
- `PendingIndexes.TwoBatchesAreAmbiguous`, `PendingIndexes.CoveredBatchResolves` and the lemma over runs assume
  that the batches one account waits for are pairwise equal or disjoint, which the store does not enforce. The
  lemma over runs also assumes that the first files name a batch only where they wait, as the store writes them
  and every call keeps them (`StorePointers.StepTidy`): a claim points the ids of any recorded batch to it.
- An event that carries a checkpoint or blobs next to text (`LooseText`) never reaches the compactor; for those
  that do, `EventSnapshots.SnapshotIsExactIffLossless` says exactly what goes wrong.

## Where the code does not do what one might expect

- **A lost text builder.** A text delta that carries a checkpoint is stored, but a delta merged into it starts
  from an empty builder. The byte counter, the visible text and the kept events are exact if and only if this
  does not happen (`EventSnapshots.SnapshotIsExactIffLossless`; two deltas where it does: `EventSnapshots.LostText`).
- **An interrupted Claude text.** A search that was announced earlier and completes while a text block is open
  puts its result after that block in the stream, but before it in the non-stream answer. The two agree if and
  only if this never happens (`ClaudeProjections.StreamReassemblesIffUncrossed`);
  `ClaudeProjections.InterruptedTextDiffers` is an event sequence where it does.
- **A billing carry after the end.** An emit of `resume` that has already picked its output can land after
  `EventDone`. `EventDone` stays last if and only if none is under way or the output is closed
  (`ManagedOutputs.DoneStaysLastIff`). `ManagedOutputs.CarryLandsAfterDone` gives the run: Park only asks for
  pending tools, which stay until the engine accepts their results, so a second Park and resume can follow before
  it does; the engine then accepts the results of the first resume and finishes while the second emits its carry.
- **A failed save that nobody sees.** While the results of such an earlier resume are still in the queue, and
  take more than half of it, those of the next one do not fit. A Park that takes the output while they are being
  queued saves its segment, but `resume` closes the output with the queue's error, and an error of the save comes
  too late. The save's error is the result if and only if this did not happen to the output
  (`ManagedOutputs.FailedSaveIsTheResult`; the run is `ManagedOutputs.FullQueueHidesFailedSave`).
- **A durable snapshot that goes early.** Saving the same results again as ephemeral turns the stored record
  ephemeral, and five minutes later it is pruned, however long the first save was meant to last
  (`StoreRetention.EphemeralSaveShortens`, with one literal run in `StoreRetention.DurableSnapshotGoesEarly`).
  A snapshot is served for the retention it was first stored with if and only if it was ephemeral already, no such
  save was accepted, or its latest save was so late that five minutes from it reach as far
  (`StoreRetention.FirstRetentionIff`).
- **Colliding file keys.** The completed-snapshot file of `({a}, follow-up "b")` is that of `({a, b}, none)`
  (`CompletedSnapshots.KeysCoincide`); lookups still never return the other record
  (`CompletedSnapshots.LookupFits`). The result digest is faithful on NUL-free results; with NUL,
  different results can collide (`CompletedSnapshots.NulBlursDigest`).
- **A stuck index record.** When nobody waits in a record any more, reading it drops its sessions one by one. If
  the record still has more sessions than the limit without the first one, even that first removal is refused,
  and the read fails instead of answering "not pending"; in every other case it answers as a scan does
  (`PendingIndexes.ResolveIsScan`). A record of n stale sessions fails exactly from the limit and two more on
  (`PendingIndexes.StaleRecordFails`).

## Model

| member | source | states |
|---|---|---|
| `Usages.MeasureTurn` | cursoragentv1/usage_observation.go:163-181 | A turn is measured exactly when all counts are present, valid, consistent and fit in int64; then net input, cache read and cache write add up to the total input, and reasoning lies within output |
| `Usages.TotalIsExact` | cursoragentv1/usage_observation.go:243-254 | Folding any number of turns gives, per counter, the exact presence, validity and saturated sum of an independent definition |
| `Usages.TotalIsMeasured` | cursoragentv1/usage_observation.go:243-254 | A summed counter is a valid measurement if and only if every turn measured it and the true sum fits in int64, and then it is the true sum; once spoiled it never recovers |
| `Usages.AddCountsAssociates` | cursoragentv1/usage_observation.go:243-254 | Adding observed counts is associative, overflow and malformed counts included |
| `Usages.BracketingIsIrrelevant` | cursoragentv1/usage_observation.go:243-254 | Any bracketing of a list of turns sums to the same observation |
| `Usages.GroupingAndOrderAreIrrelevant` | cursoragentv1/usage_observation.go:243-254 | Two groupings of the same turns, in any order, sum to the same observation |
| `Usages.UsageFacts.ObserveEvent` | cursoragentv1/usage_observation.go:201-241 | The facts after an event: usage, searches, progress and visible text, branch by branch |
| `Usages.UsageFacts.ObserveDelta` | cursoragentv1/usage_observation.go:256-272 | Token deltas wrap like int64 sums and become invalid for good on a malformed or negative one |
| `Usages.MeteredTerminalIsTotal` | cursoragentv1/usage_observation.go:201-241 | Folded over any events, the terminal usage is the total of all turn ends, and it is fresh if and only if one of them is not carried |
| `Usages.BuildMeteredCarry` | cursoragentv1/segment.go:60-75 | The loop that builds the carry computes the evidence events, marked as carried, with an empty turn end where there was none |
| `Usages.CarryKeepsSums` | cursoragentv1/segment.go:60-75 | A metered carry keeps every counter's sum, cannot make a missing measurement appear, and is never fresh |
| `Json.ProgressFieldSizeIsExact` | cursoragentv1/completed_events.go:100-105 | The counted size of the progress field is the length of its JSON, sign and digits included, and zero when the field is omitted |
| `Json.EscapeOfConcatenation` | cursoragentv1/completed_events.go:93-98 | JSON escaping of whole code points is additive, which is what lets the counter grow by the delta's length |
| `EventSnapshots.EventSnapshot.GrowBy` | cursoragentv1/completed_events.go:80-86 | The counter grows exactly when it stays within the limit and is otherwise untouched |
| `EventSnapshots.EventSnapshot.AppendText` | cursoragentv1/completed_events.go:28-47 | A text delta joins the last event and the builder, or is rejected without changing anything |
| `EventSnapshots.EventSnapshot.AppendUsage` | cursoragentv1/completed_events.go:48-58 | A usage delta joins the last usage event, or is rejected without changing anything |
| `EventSnapshots.EventSnapshot.AppendEvent` | cursoragentv1/completed_events.go:22-78 | The whole append: which events merge, what is kept, and that a rejected event leaves the kept events unchanged |
| `EventSnapshots.FillCounts` | cursoragentv1/completed_events.go:22-105 | After any accepted appends the counter stays within the limit, equals the length of the stored JSON array and the last size equals the last event's JSON, as long as no text was lost; then the kept events are the compaction |
| `EventSnapshots.RejectedIffOverLimit` | cursoragentv1/completed_events.go:22-86 | An append is rejected if and only if the compacted array would be over the limit |
| `EventSnapshots.SnapshotIsExactIffLossless` | cursoragentv1/completed_events.go:22-105 | Exact counter, unchanged visible text and kept events equal to the compaction: each holds if and only if no delta is merged into a text that carries a checkpoint or blobs |
| `EventSnapshots.LostText` | cursoragentv1/completed_events.go:71-76 | A delta with a checkpoint and one without: the snapshot holds one event, with the second text only |
| `EventSnapshots.CompactionKeepsFacts` | cursoragentv1/completed_events.go:22-130 | Usage facts folded over the compacted events equal those over the originals, from any earlier facts |
| `CompactionMeanings.ClaudeIgnoresCompaction` | cursoragentv1/completed_events.go:22-130 | From any session state, the Claude projection ends in the same state, and gives the same non-stream answer, on compacted and original events |
| `CompactionMeanings.ResponsesIgnoreCompaction` | cursoragentv1/completed_events.go:22-130 | The same for the Responses projection |
| `EventSnapshots.CompactIsNormalForm` | cursoragentv1/completed_events.go:22-78 | No two neighbours of a compacted list can be merged |
| `EventSnapshots.NormalFormIsFixed` | cursoragentv1/completed_events.go:22-78 | Compacting a list that is already compact returns it unchanged |
| `EventSnapshots.NormalFormRefills` | cursoragentv1/completed_events.go:22-86 | A compact list within the limit is buffered again without being rejected or changed |
| `EventSnapshots.PersistEvents` | cursoragentv1/completed_state.go:216-228 | Persisting succeeds exactly when the events fit, and stores the kept events one by one |
| `EventSnapshots.EventsFromPersisted` | cursoragentv1/completed_state.go:234-243 | Reading back fails exactly on an event without a type, and otherwise restores each event |
| `EventSnapshots.NewSnapshotOutput` | cursoragentv1/completed_events.go:134-149 | The replay queue holds exactly what the compactor keeps, or nothing when it is refused |
| `EventSnapshots.ReplayIsWhatWasStored` | cursoragentv1/completed_state.go:216-243 | Persisting and reading back yields the compaction, and buffering that for replay gives it again unchanged |
| `ClaudeProjections.RunAgrees` | cursoragentv1/project_claude.go:95-343 | At every point of any event sequence a client that reads the stream is in step with the projection: started once, block indices 0, 1, 2, ... each started once, deltas only to open blocks |
| `ClaudeProjections.StreamReassemblesIffUncrossed` | cursoragentv1/project_claude.go:95-343 | For every event sequence the stream is well formed, at its end every block is stopped before message_stop, and the reassembled blocks, citations included, equal the non-stream answer if and only if no search announced earlier completed while a text block was open |
| `ClaudeProjections.InterruptedTextDiffers` | cursoragentv1/project_claude.go:319-332 | A search announced, text begun, the search completed, the end: the stream's blocks are not the answer's, where the result precedes the text |
| `ClaudeContents.RunTells` | cursoragentv1/project_claude.go:95-343 | At every point of any event sequence the blocks so far, with the open text, hold all text, each signed thinking, and each announced search and search result of the events, in order; collected calls and citations are those of the events |
| `ClaudeContents.AnswerHoldsWhatWasSaid` | cursoragentv1/project_claude.go:155-225 | The event that ends a turn fails exactly when calls are to be handed over and there is none or one does not parse; otherwise the answer holds all that was said and one tool block, with its id, name and input, for each call handed over |
| `ClaudeStreams.ClaudeProjection.StartMessage` | cursoragentv1/project_claude.go:227-233 | message_start is sent once |
| `ClaudeStreams.ClaudeProjection.StopText` | cursoragentv1/project_claude.go:235-247 | Closing the text block records text and citations and stops the block at its index |
| `ClaudeStreams.ClaudeProjection.NextBlock` | cursoragentv1/project_claude.go:282-286 | Block indices are handed out in order |
| `ClaudeStreams.ClaudeProjection.ProjectCitations` | cursoragentv1/project_claude.go:334-343 | One citation delta for each collected citation, in order, to the given block |
| `ClaudeStreams.ClaudeProjection.ProjectText` | cursoragentv1/project_claude.go:115-127 | A text delta opens a block with its pending citations when none is open |
| `ClaudeStreams.ClaudeProjection.ProjectSignedThinking` | cursoragentv1/project_claude.go:264-280 | Buffered thinking is emitted as one signed block, or dropped without a signature |
| `ClaudeStreams.ClaudeProjection.ProjectSearchStarted` | cursoragentv1/project_claude.go:293-317 | A search start settles open blocks and sends one server_tool_use block |
| `ClaudeStreams.ClaudeProjection.ProjectSearchCompleted` | cursoragentv1/project_claude.go:319-332 | A search end sends its result block and collects its citations |
| `ClaudeStreams.ClaudeProjection.ProjectTools` | cursoragentv1/project_claude.go:172-195 | The loop over tool calls sends one block each and fails at the first argument that is not an object |
| `ClaudeStreams.ClaudeProjection.HandOff` | cursoragentv1/project_claude.go:172-195 | A hand-off without tool calls fails, otherwise it settles, sends the calls and finishes with tool_use |
| `ClaudeStreams.ClaudeProjection.Finish` | cursoragentv1/project_claude.go:288-291 | message_delta with usage and stop reason, then message_stop |
| `ClaudeStreams.ClaudeProjection.HandleEvent` | cursoragentv1/project_claude.go:95-170 | The state, chunks and verdict for every event type |
| `ResponsesProjections.RunAgrees` | cursoragentv1/project_responses.go:25-334 | At every point of any event sequence a client that reads the stream is in step with the projection: output indices 0, 1, 2, ..., each item opened once, deltas adding up to the done text |
| `ResponsesProjections.StreamReassembles` | cursoragentv1/project_responses.go:25-338 | For every event sequence the stream is well formed, and when it finishes the completed envelope is the non-stream answer and lists the done items in index order; an item without a done event is a search that never completed |
| `ResponsesProjections.OutputIsDoneItems` | cursoragentv1/project_responses.go:392-402 | The output list is the last done item of each index, in order, whatever is missing |
| `ResponsesContents.RunTells` | cursoragentv1/project_responses.go:25-402 | At every point of any event sequence the stored and open items hold all text and all thinking of the events, and each search the result of its last completion |
| `ResponsesContents.AnswerHoldsWhatWasSaid` | cursoragentv1/project_responses.go:68-90 | The event that ends a turn fails exactly when a handover has no calls; otherwise the output holds all text, all thinking, exactly the last result of each search, and at a handover each call with its id, name and arguments, in order |
| `ResponsesStreams.StreamEvents` | cursoragentv1/project_responses.go:25-89 | Running the class over any events sends the specified payloads, numbered 1, 2, 3, ... without a gap |
| `ResponsesStreams.ResponsesProjection.NextSequence` | cursoragentv1/project_claude.go:656-659 | Sequence numbers start at 1 and grow by 1 |
| `ResponsesStreams.ResponsesProjection.NextOutput` | cursoragentv1/project_claude.go:661-665 | Output indices start at 0 and grow by 1 |
| `ResponsesStreams.ResponsesProjection.StartResponse` | cursoragentv1/project_responses.go:91-104 | created and in_progress are sent once |
| `ResponsesStreams.ResponsesProjection.OpenReasoning` | cursoragentv1/project_responses.go:106-125 | Opens a reasoning item and its part unless one is open |
| `ResponsesStreams.ResponsesProjection.StopReasoning` | cursoragentv1/project_responses.go:127-156 | Closes it with the text the deltas added up to, and stores the item |
| `ResponsesStreams.ResponsesProjection.OpenMessage` | cursoragentv1/project_responses.go:158-177 | Opens a message item and its part unless one is open |
| `ResponsesStreams.ResponsesProjection.StopMessage` | cursoragentv1/project_responses.go:179-213 | Closes it with text and annotations, and stores the item |
| `ResponsesStreams.ResponsesProjection.TextAnnotations` | cursoragentv1/project_responses.go:433-450 | The annotation loop keeps one entry for each usable citation, in order |
| `ResponsesStreams.ResponsesProjection.ProjectSearchStarted` | cursoragentv1/project_responses.go:215-252 | A search item is added once per search id |
| `ResponsesStreams.ResponsesProjection.ProjectSearchCompleted` | cursoragentv1/project_responses.go:254-278 | A search item is done at the index it was added at, added first when it was never announced |
| `ResponsesStreams.ResponsesProjection.ProjectFunctionCall` | cursoragentv1/project_responses.go:280-318 | Added, delta, done text and done item carry the same arguments |
| `ResponsesStreams.ResponsesProjection.FinishResponse` | cursoragentv1/project_responses.go:320-334 | The completed event carries the output list |
| `ResponsesStreams.ResponsesProjection.OutputItems` | cursoragentv1/project_responses.go:392-402 | The loop over indices computes the output list, skipping absent ones |
| `ResponsesStreams.ResponsesProjection.HandleEvent` | cursoragentv1/project_responses.go:25-89 | The state, payloads and verdict for every event type |
| `ToolIds.Normalize` | cursoragentv1/state.go:732-748 | Normalized ids are trimmed, not empty, strictly increasing |
| `ToolIds.NormalizeIsCanonical` | cursoragentv1/state.go:732-748 | Two lists normalize alike if and only if they name the same set of ids |
| `ToolIds.JoinedIsInjective` | cursoragentv1/state.go:750-755 | NUL-joined key material determines its fields when none of them contains NUL |
| `PendingIndexes.FilesAreDistinct` | cursoragentv1/state.go:750-755 | The index file of an account and batch is no other's, on NUL-free fields |
| `PendingIndexes.MutateKeeps` | cursoragentv1/state.go:771-817 | Adding or removing a session keeps every other entry of the index |
| `PendingIndexes.SyncAdds` | cursoragentv1/state.go:757-769 | A successful sync lists the session under its new batch |
| `PendingIndexes.RebuildLists` | cursoragentv1/state.go:984-1014 | A successful rebuild from any index contents lists every pending session of the directory under its account and batch |
| `PendingIndexes.ResolveIsScan` | cursoragentv1/state.go:592-642 | Reading through the index fails exactly when nobody waits in the record and it is over the limit even without its first session; otherwise it answers the match, not pending or ambiguous as a scan of all sessions does; its self-repair loses no pending session |
| `PendingIndexes.StaleRecordFails` | cursoragentv1/state.go:771-817 | For every n, reading a record of n sessions that are all gone fails if and only if n is at least the limit and two more |
| `PendingIndexes.ResolvedCovers` | cursoragentv1/state.go:566-590 | A resolved session has the caller's account, has pending tools, and its whole batch was submitted, from any index contents |
| `PendingIndexes.TwoBatchesAreAmbiguous` | cursoragentv1/state.go:819-841 | Ids that cover two different live batches are ambiguous and never resolve to one of the sessions; the read fails exactly on a stuck record of just these ids |
| `PendingIndexes.CoveredBatchResolves` | cursoragentv1/state.go:566-590 | A superset of one live batch, its pointers leading to no other submitted batch, resolves as the scan of that batch does |
| `PendingIndexStore.PendingIndexFiles.MutatePendingIndex` | cursoragentv1/state.go:771-817 | The new index and whether the limit allowed it |
| `PendingIndexStore.PendingIndexFiles.SyncPendingIndex` | cursoragentv1/state.go:757-769 | Removal under the old batch, then addition under the new one, stopping at a failure |
| `PendingIndexStore.PendingIndexFiles.RebuildPendingIndex` | cursoragentv1/state.go:984-1014 | The loop over the directory computes the rebuilt index |
| `PendingIndexStore.PendingIndexFiles.ResolvePendingExact` | cursoragentv1/state.go:592-642 | The answer and the repaired record |
| `PendingIndexStore.PendingIndexFiles.PendingCoveringBatch` | cursoragentv1/state.go:819-841 | The loop over the submitted ids finds the one batch they point to, or that there are several |
| `PendingIndexStore.PendingIndexFiles.ResolvePending` | cursoragentv1/state.go:566-590 | Exact batch first, then the covering batch |
| `PendingIndexStore.PendingIndexFiles.WriteToolPointers` | cursoragentv1/state.go:850-869 | The loop points every id of the batch to the batch |
| `PendingIndexStore.PendingIndexFiles.RemoveToolPointers` | cursoragentv1/state.go:871-880 | The loop removes only pointers that still lead to this batch |
| `CompletedSnapshots.CanonicalIsOrdered` | cursoragentv1/state.go:1306-1334 | Canonical results are a sorted permutation of the trimmed ones, each with an id |
| `CompletedSnapshots.OrderedIsCanonical` | cursoragentv1/state.go:1306-1334 | The same results in any order have the same canonical form |
| `CompletedSnapshots.DigestIsFaithful` | cursoragentv1/state.go:1344-1360 | On NUL-free results two digests agree if and only if ids, contents and error flags agree; media is ignored |
| `CompletedSnapshots.NulBlursDigest` | cursoragentv1/state.go:1344-1360 | With NUL, two results and a single one have the same digest |
| `CompletedSnapshots.KeysCoincide` | cursoragentv1/completed_state.go:263-272 | The files of ({a}, follow-up b) and ({a, b}, none) coincide |
| `CompletedSnapshots.KeysDiffer` | cursoragentv1/completed_state.go:263-272 | On NUL-free fields two files coincide if and only if account and ids with the follow-up appended coincide |
| `CompletedSnapshots.WriteRetains` | cursoragentv1/completed_state.go:274-310 | A write keeps every live record's events, results, billing run, session and conversation; a conflict changes nothing |
| `CompletedSnapshots.SavedIsFound` | cursoragentv1/completed_state.go:274-310 | After a write the matching request finds the record, with the content first stored; after a conflict it finds a conflict, or the stored record had expired |
| `CompletedSnapshots.SaveThenLookup` | cursoragentv1/completed_state.go:48-105 | Saving results and looking up the same results in any order, untrimmed ids included, finds the first stored content |
| `CompletedSnapshots.LookupFits` | cursoragentv1/completed_state.go:76-201 | A lookup, exact or covering, from any files, returns only an unexpired record whose account, batch, follow-up and digest are the request's |
| `CompletedSnapshots.PruneKeeps` | cursoragentv1/completed_state.go:412-474 | Pruning removes only expired records |
| `CompletedSnapshots.HistoryFits` | cursoragentv1/completed_request.go:15-91 | A history lookup returns only an unexpired record of its own account and request key, and finds what was just stored |
| `CompletedReplays.SavedResultsAreFound` | cursoragentv1/completed_state.go:48-105 | After the first accepted save for some results and a follow-up, the same results in any order are answered with the saved events, compacted, under the session, conversation, billing run and segment of the owner |
| `CompletedReplays.SavedResultsMark` | cursoragentv1/completed_state.go:48-74 | An accepted save changes nothing but the snapshot, the follow-up, and that an ephemeral session without pending tools may go |
| `CompletedStore.CanonicalToolResults` | cursoragentv1/state.go:1306-1334 | The trimming, duplicate check and sort compute the canonical results or the error |
| `CompletedStore.CompletedFiles.WriteCompletedTombstone` | cursoragentv1/completed_state.go:274-310 | Mismatch, digest conflict, merge with the stored content, and tool pointers only without a follow-up |
| `CompletedStore.CompletedFiles.RemoveExpiredTombstone` | cursoragentv1/completed_state.go:328-355 | Removes an expired record with its pointers, and nothing else |
| `CompletedStore.CompletedFiles.MatchCompletedTombstone` | cursoragentv1/completed_state.go:116-145 | Hit, miss or conflict, and the removal of an expired record |
| `CompletedStore.CompletedFiles.LookupCompletedCovering` | cursoragentv1/completed_state.go:147-201 | The loop over submitted ids visits each pointed batch once and answers the one hit, a conflict or ambiguity |
| `CompletedStore.CompletedFiles.FindCompleted` | cursoragentv1/completed_state.go:76-114 | Canonicalize, exact batch, then covering batch |
| `CompletedStore.CompletedFiles.PruneExpiredCompleted` | cursoragentv1/completed_state.go:412-474 | The loop over the directory removes what has expired, with its pointers |
| `CompletedStore.CompletedFiles.WriteHistorySnapshot` | cursoragentv1/completed_request.go:48-91 | A live record of the key is kept, an expired or absent one is replaced, a foreign one is an error |
| `FileStateStores.FileStateStore.constructor` | cursoragentv1/state.go:192-240 | A store over any files on disk, holding no lock |
| `FileStateStores.FileStateStore.OpenDirectory` | cursoragentv1/state.go:192-240 | Opening prunes what has expired and rebuilds the index |
| `FileStateStores.FileStateStore.PruneExpiredFiles` | cursoragentv1/state.go:659-721 | Not before its interval; skips held sessions; stops at the first index failure |
| `FileStateStores.FileStateStore.ClaimSession` | cursoragentv1/state.go:253-393 | Validation, pruning, lease, then the claim under the lease |
| `FileStateStores.FileStateStore.ClaimUnderLease` | cursoragentv1/state.go:268-393 | Replay of a live history snapshot, expiry, every reason to refuse, and the lease freed on each of them |
| `FileStateStores.FileStateStore.WriteClaim` | cursoragentv1/state.go:365-393 | The next generation under a new token, with the index moved from the old batch to the new one |
| `FileStateStores.FileStateStore.Update` | cursoragentv1/state.go:528-549 | Only the lease holder with matching generation and token changes the record |
| `FileStateStores.FileStateStore.SavePendingTools` | cursoragentv1/state.go:432-453 | An empty list clears the batch, a first list or one longer than the pending one replaces it, any other keeps it; then the index follows |
| `FileStateStores.FileStateStore.SaveCompletedResults` | cursoragentv1/completed_state.go:48-74 | Every refusal, the snapshot write, and the session's own completion marks |
| `FileStateStores.FileStateStore.SaveHistorySnapshot` | cursoragentv1/completed_request.go:48-91 | The snapshot is written before the session's run fields are cleared, under the lease |
| `FileStateStores.FileStateStore.DeleteOwned` | cursoragentv1/state.go:473-493 | Only its owner deletes a session, record and index entry together |
| `FileStateStores.FileStateStore.ReleaseLease` | cursoragentv1/state.go:559-564 | Frees this handle's lock and no other |
| `FileStateStores.FileStateStore.ResolvePendingSession` | cursoragentv1/state.go:566-590 | Prunes, normalizes the ids and resolves |
| `StoreRuns.StepAgrees` | cursoragentv1/state.go:253-880 | Each store call, and the death of a process inside any that updates the index, keeps every waiting session listed unless an index update was lost |
| `StoreRuns.IndexAgreesWithScan` | cursoragentv1/state.go:592-642 | From any session files and any index contents, in every state of every run after a rebuild, resolving through the index answers as a scan of all sessions, and fails exactly on a stuck record |
| `StoreClaims.ClaimedIff` | cursoragentv1/state.go:253-393 | A claim is granted if and only if it names a session, a conversation and an account, nobody holds the session, no snapshot answers instead, the unexpired record admits it (present if required, pending tools and another account only if allowed, catalog usable and matching if required) and the index follows |
| `StoreClaims.RefusedKeeps` | cursoragentv1/state.go:253-393 | A claim that is refused changes no unexpired record and takes no lease |
| `StoreClaims.OtherAccountsAreRefused` | cursoragentv1/state.go:328-331 | Without leave to change the account, no claim of another account is granted or changes the record |
| `StoreClaims.ClaimedFinds` | cursoragentv1/state.go:253-393 | A granted claim finds checkpoint, blobs, pending tools, batch and conversation where the run goes on, and none of them for a history request or another account, whose catalog and billing run do not stay either; a cold rebuild is reported exactly for another account; the record gets the next generation, the new token and lease, and no other unexpired record changes |
| `StoreClaims.SavedFieldsAreFound` | cursoragentv1/state.go:395-471 | The next owner of the account finds the checkpoint, follow-up, billing run and usage carry that the last one saved |
| `StoreClaims.PruningIsExact` | cursoragentv1/state.go:659-721 | Pruning removes exactly the listed sessions that have expired and that nobody holds |
| `StoreClaims.PruningCompletedIsExact` | cursoragentv1/completed_state.go:412-474 | Pruning removes exactly the listed completed snapshots that have expired |
| `StoreClaims.DeletedIsGone` | cursoragentv1/state.go:473-493 | An accepted delete removes the owner's session and no other |
| `StoreClaims.DeletedSessionIsGone` | cursoragentv1/state.go:495-526 | An accepted delete by account removes that session and no other, and only when it was free and of that account |
| `StoreClaims.ReleasedIsFree` | cursoragentv1/state.go:559-564 | The release of the only holder frees its session and no other |
| `StoreWaits.SavedListIsAwaited` | cursoragentv1/state.go:432-453 | An accepted save stores exactly the list; the session then waits for its ids when none were recorded or the list got longer, for the recorded ones otherwise, and for nothing after an empty list; nothing else changes |
| `StoreWaits.SaveIsRefusedIff` | cursoragentv1/state.go:432-453 | A save is refused for a retired owner or an invalid list exactly then, and changes nothing |
| `StoreWaits.RunWaits` | cursoragentv1/state.go:528-557 | A session keeps waiting for the same tools over every run that neither ends the wait (another list or finished history request of its owner, a deletion, a claim that clears the run) nor lets it expire |
| `StoreWaits.WaitingIsResolved` | cursoragentv1/state.go:566-642 | Where nobody else of the account waits for them, ids that name what a session waits for resolve to it, in any order and padding |
| `StoreWaits.SavedIsResolved` | cursoragentv1/state.go:432-642 | Both together: after an accepted save and any such run, results for exactly the saved ids find the session |
| `StorePointers.RunIndexed` | cursoragentv1/state.go:850-949 | The tool pointers of every waiting batch stay in place over every run in which no recorded batch of the account overlaps it |
| `StorePointers.StepTidy` | cursoragentv1/state.go:432-453 | No store call, finished or not, leaves a record that names a batch without waiting for it |
| `StorePointers.TwoBatchesAreNeverResolved` | cursoragentv1/state.go:819-841 | In every state of a run whose waiting batches are equal or disjoint, ids that cover two live batches are ambiguous |
| `StoreRetention.StepKeeps` | cursoragentv1/completed_state.go:203-310 | Each store call keeps the content of every completed snapshot within its retention |
| `StoreRetention.SnapshotsAreKept` | cursoragentv1/completed_state.go:203-310 | Over every run, a stored snapshot keeps its events, results, billing run, session and conversation, or there was a call at which its record, kept until then, had outlived its own retention |
| `StoreRetention.FirstRetentionHolds` | cursoragentv1/completed_state.go:274-310 | Over every run without an ephemeral save of its key, a snapshot is served for the whole retention it was first stored with |
| `StoreRetention.FirstRetentionIff` | cursoragentv1/completed_state.go:298-300 | At any point of a run, a snapshot is promised for that retention, over every continuation without such a save, if and only if it was ephemeral already, no such save was accepted so far, or its latest save reaches as far |
| `StoreRetention.EphemeralSaveShortens` | cursoragentv1/completed_state.go:298-300 | For any owner and results: a durable save and an ephemeral one of the same results leave a record that is pruned after five minutes, though the first retention has not passed |
| `StoreRetention.DurableSnapshotGoesEarly` | cursoragentv1/completed_state.go:298-300 | That run on one literal store that keeps for 30 days |
| `StoreFencing.RunFenced` | cursoragentv1/state.go:1071-1117 | Over every run, an owner that was issued before another of the same session has neither its lock nor the record's token |
| `StoreFencing.OneOwner` | cursoragentv1/state.go:253-393 | Of two owners ever issued for a session, the earlier has neither its lease nor the record any more, even after a delete restarts the generations |
| `StoreFencing.RetiredOwnersChangeNothing` | cursoragentv1/state.go:528-557 | After any further run, a call through a released or superseded owner fails and changes no session and no completed snapshot |
| `HistoryRuns.GenerationsAreSeparated` | cursoragentv1/manager.go:617-673 | Two generations that both stored a snapshot for one key: the later was claimed after the earlier snapshot expired |
| `HistoryRuns.FileIffSession` | cursoragentv1/manager_history.go:11-14 | Two history requests share their session if and only if they share their snapshot file |
| `HistoryRuns.ReachKeepsInv` | cursoragentv1/manager.go:165-230 | The invariant of any number of managers on one store survives every interleaving |
| `HistoryRuns.NoStartWhileLive` | cursoragentv1/manager.go:542-596 | In every reachable state, a request that gets the lease while a live snapshot of its key exists does not start the engine |
| `HistoryReplays.SavedHistoryIsFound` | cursoragentv1/completed_request.go:21-91 | After a save that wrote, and until the snapshot expires, a lookup of that account and key is a hit with the saved events, compacted, and the session, conversation, billing run and segment of the owner; it says whether a tool call was among them |
| `HistoryReplays.WrittenIffNotLive` | cursoragentv1/completed_request.go:48-91 | An accepted save writes if and only if no unexpired snapshot of the key is there |
| `HistoryReplays.ReplaysAreCommitted` | cursoragentv1/manager.go:165-230 | From files without history snapshots, in every interleaving of any number of managers, every replayed request carries the compacted events of a generation that stored them for its account and key |
| `ManagedOutputs.ManagedOutput.SendEvent` | cursoragentv1/manager.go:1213-1225 | Nothing is sent after the close or into a full queue |
| `ManagedOutputs.ManagedOutput.CloseWith` | cursoragentv1/manager.go:1193-1203 | The first close decides the result |
| `ManagedOutputs.DoneAfterSaves` | cursoragentv1/manager.go:617-673 | In every interleaving, an output with EventDone has it once and is the only one, the owed snapshot was saved without error and the lease released |
| `ManagedOutputs.FailedSaveIsTheResult` | cursoragentv1/manager.go:453-517 | In every interleaving, after a failed save, at Park or at the end, that error is the output's result if and only if no resume closed the output before because its results did not fit into the queue; then that is the result; EventDone is not in it either way |
| `ManagedOutputs.FullQueueHidesFailedSave` | cursoragentv1/manager.go:812-824 | A run in which the results of a second resume, queued behind those of the first, close the output before the failed save does |
| `ManagedOutputs.FailedFinalSaveEndsTheRun` | cursoragentv1/manager.go:617-673 | A failed save at the end is what the run ends with, and no output ever gets EventDone |
| `ManagedOutputs.DoneStaysLastIff` | cursoragentv1/manager.go:862-892 | EventDone stays the last event over every continuation if and only if no emit to that output is under way or it is closed |
| `ManagedOutputs.LateCarry` | cursoragentv1/manager.go:747-828 | Wherever an emit of a resume is under way to an open output with EventDone, it lands after it |
| `ManagedOutputs.CarryLandsAfterDone` | cursoragentv1/manager.go:747-828 | A run, for any carry event, that reaches such a state and in which the event does land after EventDone |
| `ManagedOutputs.DoneIsLastWithoutCarry` | cursoragentv1/manager.go:862-892 | Without billing carries EventDone is the last event for ever |
| `OutputDeliveries.OutputHoldsWhatWasSent` | cursoragentv1/manager.go:1213-1225 | In every interleaving an output holds, in order, exactly the events that were sent to it while it was open and not full, and the terminal event when that was sent |
| `OutputDeliveries.EngineEventsAreHandled` | cursoragentv1/manager.go:862-892 | In every interleaving the events the engine addresses to the output of the moment are sent in the order in which it emitted them; at most the last one is still on its way |
| `OutputDeliveries.CarryEventsAreHandled` | cursoragentv1/manager.go:747-811 | A resume emits its billing carry in order, and its events are sent in that order |
| `OutputDeliveries.FirstErrorIsTheRuns` | cursoragentv1/manager.go:617-673 | The error of a run is the first thing that went wrong: a snapshot over its limit or a full open queue while the engine works, the engine itself, the save its last segment owes, or a full queue for the terminal event |
| `OutputDeliveries.LastTerminalIsRemembered` | cursoragentv1/manager.go:862-880 | What a run sends at its end is the last terminal event of its engine |
| `OutputDeliveries.LastSegmentOwes` | cursoragentv1/manager.go:617-645 | The save at the end is owed exactly by a history request and by a segment that was opened by a resume, or from the start, and not parked since |
| `OutputDeliveries.ParkedSegmentIsSaved` | cursoragentv1/manager.go:453-517 | Whatever happens in between, a parked output is closed with a failed save exactly when its segment owed a snapshot and saving it failed |
| `OutputDeliveries.QuietRunDelivers` | cursoragentv1/manager.go:617-892 | A run without Park, Cancel, full queue or snapshot over its limit delivers all its engine has said, in order, and at its end the terminal event if nothing went wrong, and closes the output with the run's error |
| `FullHistories.HistoryIsPaired` | cursoragentv1/full_history.go:50-276 | A rebuilt history has, for every call, exactly one result, of the same name and in a strictly later message, and no other results |
| `FullHistories.HistoryIsConserved` | cursoragentv1/full_history.go:87-276 | Without placeholders the rebuilt history is the in-order translation of the blocks since the last compaction, its summary first; no placeholder answers a server tool |
| `FullHistories.StructuredHistory` | cursoragentv1/full_history.go:50-276 | The nested loops compute the specified history or the first error, and what they return is paired |
| `FullHistories.HistoryBuilder.FlushUnansweredCallerCalls` | cursoragentv1/full_history.go:74-86 | One placeholder, in id order, for each open caller call that the message does not answer |
| `FullHistories.HistoryBuilder.TakeMessage` | cursoragentv1/full_history.go:87-273 | A message's effect on output, open parts, names and resolved calls, or its error |
| `FullHistories.HistoryBuilder.TakeBlock` | cursoragentv1/full_history.go:113-272 | A block's effect, including a compaction's reset |
| `FullHistories.HistoryBuilder.TakeCall` | cursoragentv1/full_history.go:113-272 | A call is recorded once, or refused as invalid |
| `FullHistories.HistoryBuilder.TakeResult` | cursoragentv1/full_history.go:113-272 | A result closes the open message and answers a known, unanswered call of its kind, or is refused as invalid |
| `HistoryAcceptances.AcceptedIff` | cursoragentv1/full_history.go:50-276 | A history is accepted if and only if every block fits what was said since the last compaction (calls named, fresh and of the assistant; results of an earlier call of their own kind that no result or user turn has closed; content that converts) and every server call has its result; otherwise the error is that of the first block that does not fit, or a conflict when only a server call is unanswered |
| `HistoryAcceptances.ExchangeIsAccepted` | cursoragentv1/full_history.go:188-254 | To any accepted history a fresh call and its result can be added, if and only if the result is of the call's kind; otherwise it is refused as invalid |
| `ToolResultMediaLift.LiftToolResultMedia` | cursoragentv1/wire.go:187-244 | The nested loops compute the lifted messages |
| `ToolResultMediaLift.LiftKeepsRefs` | cursoragentv1/wire.go:187-244 | Calls and results stay the same, in order and each result after its call |
| `ToolResultMediaLift.LiftKeepsPairing` | cursoragentv1/wire.go:187-244 | A paired history stays paired |
| `ToolResultMediaLift.LiftConserves` | cursoragentv1/wire.go:187-244 | Without the inserted messages the output is the input without experimental content, and the inserted messages show all recognised media in order |
| `ToolResultMediaLift.MediaFollowTheirTool` | cursoragentv1/wire.go:187-244 | Every message stands in its place, and directly after a tool message that returned media stands one user message with a label that names the call of the first result with media, and all media in order |
| `ToolResultMediaLift.LiftedHistory` | cursoragentv1/wire.go:187-244 | A rebuilt history, lifted, is paired and conserved, and each inserted message stands directly after the single result that returned its media and is labelled with that result's call |
| `ConnectFraming.FrameWithFlags` | cursoragentv1/connect.go:69-77 | The buffer holds the flag byte, the big-endian length and the payload |
| `ConnectFraming.ParseEncoded` | cursoragentv1/connect.go:86-102 | Parsing an encoded frame, whatever follows it, returns the frame and its length |
| `ConnectFraming.ChunksDoNotMatter` | cursoragentv1/runner.go:331-348 | However the body is cut into chunks, the loop finds the same frames, fails alike, and keeps the same rest |
| `ConnectFraming.FramesArrive` | cursoragentv1/runner.go:331-348 | Any frames within the limit, cut into any chunks, arrive unchanged and in order and leave the buffer empty |
| `ConnectFraming.ReadFrames` | cursoragentv1/runner.go:331-348 | The buffer-and-drain loop computes this and terminates |
| `AgentLoops.RunKeepsInv` | cursoragentv1/runner.go:277-576 | The loop's maps and flags agree with the events emitted so far, over every input |
| `AgentLoops.OpenIsUnanswered` | cursoragentv1/runner.go:277-300 | A call is open in a trace if and only if its last announcement has no accepted result after it |
| `AgentLoops.DoneIsLast` | cursoragentv1/runner.go:355-384 | EventDone is the last event of a run that returned; without a history key a turn end was seen, nothing is pending, unmatched or searching, required searches and fetches ran, and every announced call has a later accepted result |
| `AgentLoops.TurnsAreHandedOverOnce` | cursoragentv1/runner.go:424-434 | EventTurnEnded comes only with calls open, and between two of them no call was open at some point |
| `AgentContents.EventsSayWhatArrived` | cursoragentv1/runner.go:277-576 | For any inputs the events of a run are, each kind in order, what arrived while it ran: every delta with its text, every usage report and checkpoint, every hosted tool with all that was said about it, every admitted call with its ids, name and arguments, every accepted result |
| `AgentContents.HostedIsKnown` | cursoragentv1/runner.go:730-773 | The hosted tools that are open are those with messages since they were last completed, merged field by field to the last non-empty value |
| `AgentContents.QueuedIsLastGiven` | cursoragentv1/runner.go:311-330 | A result that waits for its call is the last one that was given for it |
| `AgentContents.BlobsAreStored` | cursoragentv1/runner.go:439-446 | The blobs of a checkpoint are the given ones and those stored since |
| `AgentRuns.AgentRun.SendToolResult` | cursoragentv1/runner.go:287-299 | A written result leaves the pending set, may re-arm parking, and is announced |
| `AgentRuns.AgentRun.OnResult` | cursoragentv1/runner.go:311-330 | A result is sent, queued for a call to come, or an error |
| `AgentRuns.AgentRun.OnTurnEnd` | cursoragentv1/runner.go:424-434 | Usage is always reported; pending tools are handed over once |
| `AgentRuns.AgentRun.OnHosted` | cursoragentv1/runner.go:730-773 | Search starts and completions are merged per id and emitted when their arguments are ready |
| `AgentRuns.AgentRun.OnMcp` | cursoragentv1/runner.go:523-566 | Limits, queued results, the announcement, and the end of a history run |
| `AgentRuns.AgentRun.OnMessage` | cursoragentv1/runner.go:390-573 | Every message type's effect on the loop |
| `AgentRuns.AgentRun.OnInput` | cursoragentv1/runner.go:301-384 | Results, messages, trailers and failures |
| `AgentRuns.RunAgent` | cursoragentv1/runner.go:277-576 | The loop over any inputs emits the specified trace, and EventDone only as its last event |

## Left out

- HTTP/2, heartbeats, idle timers, gzip, Protobuf and JSON parsing: upstream is any sequence of decoded messages.
- SHA-256, UUIDs, flock, fsync and temporary files: keys are their material, tokens are parameters, locks are exclusive handles, writes are atomic.
- Corrupt or unreadable files and record version migration, except that a stored event list may fail to decode.
- SaveCompleted and SaveHistory as two writes: the snapshot and the session record change in one step.
- `rebuildCompletedIndex` and the partial pointer writes of a failed record write.
- DeleteSession, SaveCheckpoint, SaveFollowUp, SaveUsageCarry, SetBillingRunID: steps of every run on values, without a method of the class; `OriginalPendingBatch` is not modelled.
- Index and pointer maps are keyed by their fields and completed records by hashed text; only the material's collisions are modelled.
- Blob limits: whether a checkpoint or a blob fits is a parameter of the call or message that brings it.
- Tool-catalog normalization (protocol.go): its outcome is a parameter of Claim.
- StartFollowUp, ResumeTools flights, routed tool ids and the metering checks of the session manager; the managers are modelled for history requests, and every other use of the store may interleave with them.
- ManagedOutputs: the engine is any sequence of events, not the agent loop; whether a save succeeds is a parameter of the move that makes it.
- ClaudeProjections, ResponsesProjections: argument parsing, link-list expansion, URL checks and rendered usage are parameters (`Libraries`); response ids and timestamps are not part of the model.
- The OpenAI Chat projection, which goes through an external translator.
- Progress counters are unbounded integers; token sums wrap or saturate as in the source.
- EventSnapshots.CompactIsNormalForm: not for a text event that carries a checkpoint or blobs, which handleEvent keeps away from the compactor.
- PendingIndexes.CoveredBatchResolves: not when a stale pointer of a submitted id leads to another submitted batch, because the answer is then that batch's or ambiguous.
- CompletedSnapshots.DigestIsFaithful: only NUL-free ids and contents, because the digest blurs others (CompletedSnapshots.NulBlursDigest).
- FullHistories: conversion of media blocks, provider ciphertext removal and result normalization are parameters of each block.
- AgentLoops: hosted-use counters, replies that change no state of the loop, and generated message ids.
- generationSegmentID, normalizeFollowUp, completedResultsForBatch's id rewriting, request validation tables, inference_runner.go and the plugin ABI: easy additions or I/O.
