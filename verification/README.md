# Verification of the bot server's state machines

The bot server is a set of small durable state machines (SQLite rows changed by guarded updates), protocols
between promises in one process, and two translators between model APIs. This project models the hardest of them
and proves what they promise, for every input, every interleaving and every crash point.

Two kinds of file stand beside each other. A file named after a component holds its transition function on
values and the class whose methods, loops and branches follow the source; each method's `ensures` ties the new
fields to that function. A file named `...Theorems` proves what the function guarantees over whole runs. A run is
a sequence of events, one per stretch between two awaits; what an awaited call answers, the clock and random
choices are arguments of the event, so a statement about all sequences covers every answer and every order.

| component | model | theorems |
|---|---|---|
| JSON-lines collector | `Text`, `JsonLines` | `JsonLines` |
| chat stream to Responses stream | `ResponseStream`, `ChatStream` | `StreamShape`, `StreamTheorems`, `StreamParts`, `StreamMeaning` |
| Responses input to chat messages | `ChatMessages` | `ChatMessageTheorems`, `ChatVoice` |
| timeline merge | `Timeline` | `TimelineTheorems` |
| RPC multiplexer | `RpcChannels` | `RpcTheorems`, `RpcBalance` |
| pending deletion | `PendingDeletion`, `DeletionReconciler` | `DeletionTheorems` |
| schedule store | `ScheduleStore` | `ScheduleTheorems` |
| schedule runner | `ScheduleRunner`, `BotScheduleRunner` | `RunnerTheorems`, `RecoveryTheorems`, `RunOutcomes` |
| invocations, handoffs, continuations | `Invocations` | `InvocationTheorems` |
| desktop driver | `DesktopDriver` | `DesktopTheorems` |
| connection interactions | `ConnectionInteractions` | `ConnectionTheorems` |
| runtime broker leases | `RuntimeBroker` | `BrokerTheorems` |
| history paging | `HistoryReader` | `HistoryReader` |
| owned-skill revisions | `OwnedSkills` | `OwnedSkillTheorems` |

## Findings

Five properties one might expect are false of the code; each is stated with the condition under which it holds,
for every run, and with a run that starts from the empty state and fails.

- Recovery beside a live execution (`apps/bot/server/bot-schedule-runner.ts:82-84`). Constructing a second schedule
  runner in one process recovers interrupted runs while executions of the first may still be before their thread.
  `RecoveryTheorems.RecoverySafeIffCalm` shows that recovery is safe if and only if no claimed or starting run has
  such an execution, which a caller can check and a process start guarantees (`RunnerTheorems.CrashIsCalm`);
  `RunnerTheorems.AtMostOneDispatch` holds for all such runs, and `RecoveryTheorems.SecondDispatchReachable` gives
  a run from the empty store that dispatches twice.
- Late rejection of `initialize` (`apps/bot/server/codex-rpc-channels.ts:38-43`). The catch block of `send` forgets
  whatever `initialize` is pending, also another one than the rejected. `RpcTheorems.OneAtATimeIffNoClobber` shows
  that an `initialize` would at no point be sent while one is outstanding if and only if every rejected one is the
  pending one or nothing is pending, the guard the block does not have; a transport that rejects no write after an
  exit meets it (`RpcTheorems.OneInitializeAtATime`), and `RpcTheorems.LateRejectionBreaksIt` is a run that does not.
- Processing a handoff directly (`apps/bot/server/bot-handoff.ts:351-386`). `InvocationTheorems.ShownIffNeverHidden`
  shows that terminal outcomes stay visible on their handoffs all along a run if and only if no unprocessed handoff of
  a terminal invocation is ever processed; `InvocationTheorems.OutcomeHidden` is a run of three steps that does it.
- Gapless sequence numbers (`apps/bot/server/model-response-stream.ts:23-69`). A provider event that is refused half
  way loses the events it had numbered. `StreamTheorems.GapIffRefusedMidway` shows that the last event's number skips
  some if and only if an event was refused that carries text, or a tool fragment before the refused one that opens a
  tool or carries arguments; `StreamTheorems.GapHappens` is such a run. All other numbers are positions
  (`StreamTheorems.DrainedRun`).
- Terminal turns (`apps/bot/server/bot-timeline.ts:166-168`). A `turn/completed` whose turn is in progress revives a
  finished one. `TimelineTheorems.TerminalIffNotRevived` shows that this is the only way, along every run, and
  `TimelineTheorems.RevivedTurn` is a run of two events that does it.

The flags of a deletion batch (`apps/bot/server/bot-deletion-reconciler.ts:123-151`) are redundant:
`DeletionTheorems.RestoredIffAllRefused` shows that they never decide differently from the durable counter.

## Model

| member | source | states |
|---|---|---|
| JsonLines.Collector.Feed | apps/bot/server/jsonl.ts:1-13 | each chunk reports the trimmed non-empty lines it completes and keeps exactly the unterminated rest |
| JsonLines.CollectAll | apps/bot/server/jsonl.ts:1-13 | the reported lines depend only on the concatenation of the chunks, not on the cuts |
| Text.CutUnique | apps/bot/server/jsonl.ts:6-10 | the cut into lines is the only newline-free way to spell a text |
| Text.CutResumes | apps/bot/server/jsonl.ts:4-9 | cutting a text in two goes, carrying the rest over, is cutting the whole |
| ChatStream.ChatStream.Take | apps/bot/server/model-response-stream.ts:23-69 | one provider event yields the numbered events of the specification, or throws its error with the state it had reached |
| ChatStream.ChatStream.DrainBuffer | apps/bot/server/model-response-stream.ts:77-86 | the read loop handles the buffer's terminated lines in order until one throws, and leaves the unterminated rest |
| ChatStream.ReadPieces | apps/bot/server/model-response-stream.ts:73-88 | reading pieces one by one reads exactly the lines of their concatenation |
| ChatStream.ChatStreamToResponses | apps/bot/server/model-response-stream.ts:70-124 | yields and reports are those of a batch reading of the concatenated text, whatever the chunks and the point of failure |
| StreamShape.ReadAllSound | apps/bot/server/model-response-stream.ts:23-89 | while reading, the numbered events tell exactly what the state holds: items added, deltas per item, nothing done yet |
| StreamTheorems.DrainedRun | apps/bot/server/model-response-stream.ts:90-117 | an accepted and reported run is numbered 0..n-1, adds and closes items 0..k-1 once each, its deltas concatenate to the done texts and one terminal event is last; any other run ends in one failed event |
| StreamTheorems.GapIffRefusedMidway | apps/bot/server/model-response-stream.ts:23-69 | the last number skips some if and only if a provider event was refused that carries text, or a fragment before the refused one that opens a tool or carries arguments |
| StreamTheorems.GapHappens | apps/bot/server/model-response-stream.ts:23-69 | a run whose three events are numbered 0, 1 and 5 |
| StreamParts.PartsMatchMessages | apps/bot/server/model-response-stream.ts:40-110 | on every run that ends well each message's content part is added once and done once, with the text of the final message, and no other item has one |
| StreamMeaning.BodyRead | apps/bot/server/model-response-stream.ts:73-89 | a body spelled as an event stream's lines is read as its event data says: data lines after any white space, with or without carriage returns, joined up to a blank line or the end |
| StreamMeaning.ConsumeMeans | apps/bot/server/model-response-stream.ts:23-69 | an event is refused exactly for its reason, and otherwise the state says what all chunks so far say; the end marker is accepted after a finish reason |
| StreamMeaning.VerdictJudges | apps/bot/server/model-response-stream.ts:90-96 | a fully read stream ends well exactly when its last finish reason is known, a tool-call finish has calls, and complete arguments parse |
| StreamMeaning.StreamSays | apps/bot/server/model-response-stream.ts:21-124 | the last event of every drained run: the response whose message is all the content, whose calls have the id and name of their first fragment and all its argument text, in order of first mention, with the usage last reported; or the failure of the first refused event, of the end or of the report |
| StreamMeaning.Begins | apps/bot/server/model-response-stream.ts:70-72 | every run begins with the created and the in-progress event |
| StreamTheorems.ReportsOnce | apps/bot/server/model-response-stream.ts:97-124 | drained, or cancelled at any yield, a run has called onFinish; at most one call returned and none follows it |
| StreamTheorems.CompletedIff | apps/bot/server/model-response-stream.ts:90-110 | `response.completed` is yielded exactly on fully read runs that finish by stop or tool_calls with parsing arguments and whose COMPLETED report returned |
| ChatMessages.FunctionCallOutput | apps/bot/server/model-gateway-relay.ts:130-151 | the loop over an output collects its texts joined by newlines and its images, in order |
| ChatMessages.ReadItems | apps/bot/server/model-gateway-relay.ts:384-432 | the one-pass loop with three buffers renders the maximal runs of the input, and between items at most one buffer is filled |
| ChatMessages.ResponseInputToMessages | apps/bot/server/model-gateway-relay.ts:352-434 | the translation equals the declarative segmentation |
| ChatMessages.OneBuffer | apps/bot/server/model-gateway-relay.ts:362-429 | at most one of the three pending buffers is non-empty between items |
| ChatMessageTheorems.SegmentMaximal | apps/bot/server/model-gateway-relay.ts:384-428 | neighbouring runs are of different kinds, so each run is maximal |
| ChatMessageTheorems.SegmentFlattens | apps/bot/server/model-gateway-relay.ts:384-428 | the runs, put together, are the input's items in order |
| ChatMessageTheorems.CallsAndAnswersKept | apps/bot/server/model-gateway-relay.ts:388-406 | the messages ask for exactly the valid calls and carry exactly the valid outputs, each once, in input order |
| ChatMessageTheorems.NoGapsIffAnswered | apps/bot/server/model-gateway-relay.ts:352-434 | the messages have no gap between calls and results if and only if each run of n calls is answered by the next n valid outputs before anything else is shown |
| ChatMessageTheorems.MatchedInputHasNoGaps | apps/bot/server/model-gateway-relay.ts:352-434 | input whose call runs are each followed by the run of their outputs has no message between a call and its results |
| ChatVoice.InputVoice | apps/bot/server/model-gateway-relay.ts:352-434 | read from the raw items: every letter and picture appears once, in its item's role, in input order, and a tool's pictures behind the note of their own call |
| ChatVoice.TurnsPlaced | apps/bot/server/model-gateway-relay.ts:408-416 | each role item has a message of its own, in its role, with its texts and its pictures, in input order |
| ChatVoice.NoOtherRoles | apps/bot/server/model-gateway-relay.ts:352-434 | in another role than the user's there are only the instructions and the items of that role, one message each |
| ChatVoice.RawCallsAndAnswers | apps/bot/server/model-gateway-relay.ts:388-406 | read from the raw items: exactly the named calls and the outputs with a call id, each once, in order, with their own ids, names, arguments and text |
| ChatVoice.TextInput | apps/bot/server/model-gateway-relay.ts:352-361 | a plain text is one user message after the instructions |
| Timeline.BotTimelineStore.PutTurnRow | apps/bot/server/bot-timeline.ts:108-122 | merges items by id, metadata by precedence, and writes a revision only when something changed |
| Timeline.BotTimelineStore.Import | apps/bot/server/bot-timeline.ts:124-129 | a snapshot keeps completed items and preserves the row when it is stale or would revive a finished turn |
| Timeline.BotTimelineStore.RecordEvent | apps/bot/server/bot-timeline.ts:159-180 | a live event marks its turn and updates the row by its kind |
| Timeline.BotTimelineStore.InterruptTurn | apps/bot/server/bot-timeline.ts:43-48 | only a turn in progress becomes interrupted |
| TimelineTheorems.RunProgress | apps/bot/server/bot-timeline.ts:108-180 | no run loses or reorders a stored item or forgets a completed id |
| TimelineTheorems.TerminalIffNotRevived | apps/bot/server/bot-timeline.ts:108-180 | along every run a terminal turn never returns to inProgress if and only if no turn/completed that is itself in progress comes while it is terminal |
| TimelineTheorems.RevivedTurn | apps/bot/server/bot-timeline.ts:166-168 | a run from the empty store in which a completed turn is in progress again |
| TimelineTheorems.TerminalForGood | apps/bot/server/bot-timeline.ts:108-180 | a terminal turn stays terminal when every turn/completed of it carries a terminal status |
| TimelineTheorems.CompletedIsFinal | apps/bot/server/bot-timeline.ts:124-179 | a completed item is never changed by snapshots, deltas, starts, interrupts or other completions |
| TimelineTheorems.CompletionStores | apps/bot/server/bot-timeline.ts:170-172 | item/completed stores its item and marks it |
| TimelineTheorems.TurnReported | apps/bot/server/bot-timeline.ts:166-168 | after turn/completed, or turn/started of a turn that is not over, each reported item is stored as last reported, the others stay, the status is the report's, details merge and the first known start is kept |
| TimelineTheorems.ItemReported | apps/bot/server/bot-timeline.ts:169-172 | item/completed, and item/started of an item not completed, store their item and change nothing else but the mark |
| TimelineTheorems.InterruptEnds | apps/bot/server/bot-timeline.ts:43-48 | interrupting changes only the status of a turn in progress |
| TimelineTheorems.MergeAt | apps/bot/server/bot-timeline.ts:114-115 | after an overwriting merge each place holds the last incoming item of its id, else what was stored |
| TimelineTheorems.ImportTwice | apps/bot/server/bot-timeline.ts:124-129 | importing the same snapshot twice in a row changes nothing, not even the revision |
| TimelineTheorems.StaleExactly | apps/bot/server/bot-timeline.ts:128-164 | the staleness test is true exactly when a live event of that turn came after the revision was read |
| TimelineTheorems.StaleSnapshotOnlyAppends | apps/bot/server/bot-timeline.ts:124-129 | a snapshot read before a later live event only appends unseen items and keeps all metadata |
| TimelineTheorems.FreshImportTakes | apps/bot/server/bot-timeline.ts:124-129 | a snapshot that is not stale decides the status, and its uncompleted items are stored as they read, without unverified artifacts |
| TimelineTheorems.DeltasAddUp | apps/bot/server/bot-timeline.ts:173-178 | successive deltas of a message concatenate to its text |
| RpcChannels.CodexRpcChannels.Send | apps/bot/server/codex-rpc-channels.ts:13-54 | forwards, rewrites the id, joins the pending initialize or answers it at once |
| RpcChannels.CodexRpcChannels.SendRejected | apps/bot/server/codex-rpc-channels.ts:18-52 | what a failed write undoes and whom it tells |
| RpcChannels.CodexRpcChannels.Receive | apps/bot/server/codex-rpc-channels.ts:59-78 | routes an answer, and claims the line unless it is a request, has no string id or a foreign one |
| RpcChannels.CodexRpcChannels.Detach | apps/bot/server/codex-rpc-channels.ts:80-85 | removes exactly the owner's requests and waiters |
| RpcTheorems.RequestsAreOpenCalls | apps/bot/server/codex-rpc-channels.ts:45-76 | the request table is exactly the calls not yet answered, rejected, detached or ended by an exit |
| RpcTheorems.AnswerRouted | apps/bot/server/codex-rpc-channels.ts:72-76 | an answer reaches the asking channel under its original id exactly while the call is open |
| RpcTheorems.AnsweredOnce | apps/bot/server/codex-rpc-channels.ts:72-76 | a second answer to a call is delivered to no one |
| RpcTheorems.DeliveriesWereAskedFor | apps/bot/server/codex-rpc-channels.ts:59-85 | every delivery goes to a channel that asked under that id and has not detached since |
| RpcTheorems.PendingIsOpen | apps/bot/server/codex-rpc-channels.ts:27-35 | the pending initialize is the one open in the history, and its waiters are the attached clients that asked since |
| RpcTheorems.InitializeAnswered | apps/bot/server/codex-rpc-channels.ts:61-70 | every attached waiter gets the one result under its own id |
| RpcTheorems.OneAtATimeIffNoClobber | apps/bot/server/codex-rpc-channels.ts:26-43 | in every history an `initialize` would at no point be sent while another is outstanding, if and only if no rejected one is another than the pending one |
| RpcTheorems.OneInitializeAtATime | apps/bot/server/codex-rpc-channels.ts:26-43 | with a transport that rejects no write after an exit, a second initialize line is sent only after the first ended without success |
| RpcTheorems.NoInitializeAfterSuccess | apps/bot/server/codex-rpc-channels.ts:27-30 | after one success none is sent, and a client that asks is told that result at once |
| RpcTheorems.InitializedBySuccess | apps/bot/server/codex-rpc-channels.ts:64-68 | the multiplexer believes itself initialized only after a success |
| RpcTheorems.RejectionForgets | apps/bot/server/codex-rpc-channels.ts:38-43 | a rejected write fails the waiters of whatever initialize is pending |
| RpcTheorems.LateRejectionBreaksIt | apps/bot/server/codex-rpc-channels.ts:38-43 | a run that clobbers the pending initialize and has two lines outstanding |
| RpcTheorems.ExitTellsTheOwed | apps/bot/server/codex-rpc-channels.ts:87-97 | an exit is told to exactly the channels that still wait for an answer |
| RpcTheorems.NoticeOnce | apps/bot/server/codex-rpc-channels.ts:15-21 | the initialized notification is passed on once unless its write failed in between |
| RpcTheorems.WrittenAt | apps/bot/server/codex-rpc-channels.ts:13-54 | each step writes at most one line: the client's own message, as it is or under the step's id |
| RpcTheorems.LinesPassedOn | apps/bot/server/codex-rpc-channels.ts:22-25 | in every run the lines that are no requests reach the runtime unchanged, once each, in order |
| RpcBalance.ToldAtMostAsked | apps/bot/server/codex-rpc-channels.ts:13-85 | in every run the answers a channel gets under an id, to calls and initialize alike, and those still owed are at most its requests under that id, and exactly as many while nothing detaches or exits and no call's write is rejected |
| DeletionReconciler.BotDeletionReconciler.BeginPendingDeletion | apps/bot/server/bot-registry.ts:664-679 | fences a bot, tells whether the row is new, refuses an absent or otherwise archived bot, and touches no other bot |
| DeletionReconciler.BotDeletionReconciler.Attempt | apps/bot/server/bot-deletion-reconciler.ts:99-117 | one attempt per token: claims, joins the batch, and ends ambiguous when the workspace is busy |
| DeletionReconciler.BotDeletionReconciler.Resume | apps/bot/server/bot-deletion-reconciler.ts:115-154 | finalizes, settles or marks ambiguous by the platform's answer, then runs the finally block |
| DeletionReconciler.BotDeletionReconciler.Finally | apps/bot/server/bot-deletion-reconciler.ts:146-153 | the last attempt of a batch rolls back when the batch is definitive and unambiguous |
| DeletionReconciler.BotDeletionReconciler.RollbackPendingDeletion | apps/bot/server/bot-registry.ts:695-702 | restores only at the named generation with nothing unresolved |
| DeletionTheorems.RunConsistent | apps/bot/server/bot-registry.ts:664-702 | in every run the pending row exists exactly while the bot is archived, so BOT_DELETE_FENCE_MISSING is unreachable |
| DeletionTheorems.CountersExact | apps/bot/server/bot-registry.ts:681-693 | the generation counts the claims under this fence and the unresolved counter those never refused, across crashes |
| DeletionTheorems.RestoredOnlyIfAllRefused | apps/bot/server/bot-deletion-reconciler.ts:146-151 | a bot is restored only if every attempt claimed under the fence was settled by a 401 or 403 |
| DeletionTheorems.RestoredIffAllRefused | apps/bot/server/bot-deletion-reconciler.ts:123-151 | when the last attempt in flight ends unconfirmed, restored if and only if all were refused |
| DeletionTheorems.LostAttemptBlocks | apps/bot/server/bot-registry.ts:681-702 | one ambiguous or lost attempt blocks the rollback forever |
| DeletionTheorems.GoneForever | apps/bot/server/bot-registry.ts:939-947 | a finalized deletion is never rolled back and its row never returns |
| DeletionTheorems.GoneIffConfirmed | apps/bot/server/bot-deletion-reconciler.ts:115-121 | a fenced bot and its pending row are gone after a step if and only if it confirms one of its attempts with the workspace idle and the transaction committed |
| DeletionTheorems.BeginFences | apps/bot/server/bot-registry.ts:664-679 | beginning a deletion fences exactly a live bot, with a fresh row |
| DeletionTheorems.TryingClaims | apps/bot/server/bot-deletion-reconciler.ts:77-117 | trying a token claims one attempt exactly when the bot is fenced, none of it is in flight and the sweep has not seen it refused |
| DeletionTheorems.DeleteRemovesLive | apps/bot/server/bot-registry.ts:932-937 | deleting outright removes only a live bot |
| DeletionTheorems.RefusedTokenNotSwept | apps/bot/server/bot-deletion-reconciler.ts:77-97 | until a crash the sweep does not try a refused token again |
| DeletionTheorems.FencedUntilRestored | apps/bot/server/bot-registry.ts:664-702 | from the fence until a restore, and after finalization forever, the bot is not live |
| ScheduleStore.NextBotScheduleAt | apps/bot/server/bot-schedules.ts:107-119 | the next slot is strictly later than the given time, or none |
| ScheduleStore.BotSchedules.CoalescePendingRuns | apps/bot/server/bot-schedules.ts:361-373 | the loop blocks exactly the pending runs that a later pending slot of their schedule supersedes |
| ScheduleStore.BotSchedules.ClaimDue | apps/bot/server/bot-schedules.ts:281-305 | advances every due schedule, queues each due slot once, and coalesces |
| ScheduleStore.BotSchedules.ClaimRunnable | apps/bot/server/bot-schedules.ts:307-322 | claims exactly the queried runs of the coalesced table |
| ScheduleStore.BotSchedules.ResumeAuthorized | apps/bot/server/bot-schedules.ts:342-359 | requeues the principal's newest waiting run per schedule and blocks the older ones |
| ScheduleStore.BotSchedules.RecoverInterrupted | apps/bot/server/bot-schedules.ts:336-340 | requeues interrupted runs without a thread and doubts those with one |
| ScheduleStore.BotSchedules.CancelBot | apps/bot/server/bot-schedules.ts:260-271 | blocks the bot's undispatched runs and deletes its schedules |
| ScheduleTheorems.CoalescingKeepsNewest | apps/bot/server/bot-schedules.ts:361-373 | a pending run survives exactly when it has the greatest slot of its schedule |
| ScheduleTheorems.CoalescedAtMostOne | apps/bot/server/bot-schedules.ts:361-373 | at most one pending run per schedule is left |
| ScheduleTheorems.CoalescedAtLeastOne | apps/bot/server/bot-schedules.ts:361-373 | and one is left whenever there was one |
| ScheduleTheorems.CoalescedTwice | apps/bot/server/bot-schedules.ts:361-373 | coalescing again changes nothing |
| ScheduleTheorems.NextIsLater | apps/bot/server/bot-schedules.ts:288-294 | every processed schedule is next due later than now or never, the others are untouched |
| ScheduleTheorems.NextIsTheCrons | apps/bot/server/bot-schedules.ts:107-119 | a processed recurring schedule is next due exactly when its cron answers after now, a one-off one only while its time is to come |
| ScheduleTheorems.DueOnlyBeyondLimit | apps/bot/server/bot-schedules.ts:281-294 | a schedule is still due afterwards only if the limit was reached, for schedules due no later |
| ScheduleTheorems.EveryDueSlotQueued | apps/bot/server/bot-schedules.ts:295-301 | each due slot has its run afterwards |
| ScheduleTheorems.OnlyDueSlotsQueued | apps/bot/server/bot-schedules.ts:295-301 | a new run belongs to a due schedule at its due slot and has never been tried |
| ScheduleTheorems.QueueingKeeps | apps/bot/server/bot-schedules.ts:295-301 | queueing keeps every run and one run per schedule and slot |
| ScheduleTheorems.NeverTwoOfOneSchedule | apps/bot/server/bot-schedules.ts:307-322 | one call never claims two runs of a schedule |
| ScheduleTheorems.RunnableOnlyBeyondLimit | apps/bot/server/bot-schedules.ts:307-322 | a runnable run is left unclaimed only if the limit was reached |
| ScheduleTheorems.ClaimMarks | apps/bot/server/bot-schedules.ts:316-319 | a claimed run is CLAIMED for one more attempt, with its error cleared; the others are untouched |
| ScheduleTheorems.CancelBlocks | apps/bot/server/bot-schedules.ts:260-271 | cancelling a bot blocks exactly its undispatched runs |
| ScheduleTheorems.ResumedClears | apps/bot/server/bot-schedules.ts:342-359 | no run of the principal is left waiting for a login, and other principals' runs are untouched |
| ScheduleTheorems.ResumeRequeues | apps/bot/server/bot-schedules.ts:342-359 | of each schedule the principal's pending run with the latest slot is queued, the earlier ones are superseded |
| ScheduleTheorems.FenceStopsSchedules | apps/bot/server/bot-schedules.ts:281-322 | from fencing until restore, and forever after finalization, no run is created or claimed for the bot |
| BotScheduleRunner.Runner.Advance | apps/bot/server/bot-schedule-runner.ts:294-373 | one stretch of `execute` or `startTurn` marks, moves on or sends as its answer says |
| BotScheduleRunner.Runner.OnMessageTurnCompleted | apps/bot/server/bot-schedule-runner.ts:165-183 | a native terminal event ends the run it is registered for |
| BotScheduleRunner.Runner.OnExit | apps/bot/server/bot-schedule-runner.ts:184-195 | a runtime's exit makes its active and owned runs uncertain and forgets its keys |
| BotScheduleRunner.Runner.ReleaseScheduleRuntime | apps/bot/server/bot-schedule-runner.ts:198-209 | a release is started once and forgets exactly that runtime's keys of the run |
| BotScheduleRunner.Runner.Stop | apps/bot/server/bot-schedule-runner.ts:94-105 | stopping doubts the ongoing owned runs and releases every runtime |
| RunnerTheorems.AtMostOneDispatch | apps/bot/server/bot-schedule-runner.ts:294-535 | over every interleaving of ticks, executions, callbacks, stops, crashes and restarts turn/start is sent at most once per run |
| RunnerTheorems.DispatchedForGood | apps/bot/server/bot-schedule-runner.ts:494-530 | a stored thread is never cleared, and its run is never queued, parked or claimed again |
| RunnerTheorems.CrashIsCalm | apps/bot/server/bot-schedule-runner.ts:82-84 | recovery by a process that starts after a crash meets the condition |
| RunnerTheorems.ClaimDueIsQueueing | apps/bot/server/bot-schedules.ts:281-305 | the store's claim of due slots is the runner's queueing and coalescing steps |
| RunnerTheorems.ClaimRunnableIsClaim | apps/bot/server/bot-schedules.ts:307-322 | the store's claim of queued runs is the runner's coalescing and claim steps |
| RunnerTheorems.MovesFit | apps/bot/server/bot-schedule-runner.ts:294-535 | a run is requeued or parked only before its thread is stored, and the thread is stored before sending |
| RunOutcomes.TurnEndsItsRun | apps/bot/server/bot-schedule-runner.ts:165-183 | in every run a native terminal event ends exactly the run its turn is registered for: COMPLETED, FAILED or BLOCKED as it says, with the turn named and an error unless completed; any other changes nothing |
| RunOutcomes.OnlyAsReported | apps/bot/server/bot-schedule-runner.ts:165-292 | a run is COMPLETED, or FAILED, only if a native terminal event, the answer to its turn/start or recovery said so of it |
| RunOutcomes.ActiveWasRegistered | apps/bot/server/bot-schedule-runner.ts:519-527 | a turn counts as a run's only after the runtime answered, or recovery found, that it goes on |
| RunOutcomes.EndsAsAnswered | apps/bot/server/bot-schedule-runner.ts:294-535 | an execution leaves its run as the answer it got says, wherever it came: logged out AUTH_REQUIRED, busy QUEUED, an error BLOCKED before sending and UNCERTAIN after |
| RunOutcomes.SendsIff | apps/bot/server/bot-schedule-runner.ts:511-518 | turn/start is sent exactly when the composed turn is reached and the runner has not been stopped |
| RunOutcomes.ExitDoubts | apps/bot/server/bot-schedule-runner.ts:184-195 | after an exit exactly the runs with a turn on it and its ongoing owner are uncertain, and none of its turns is registered |
| RunOutcomes.StopDoubts | apps/bot/server/bot-schedule-runner.ts:94-105 | after a stop exactly the ongoing runs that own a runtime are uncertain |
| RunOutcomes.RecoverySorts | apps/bot/server/bot-schedules.ts:336-340 | recovery queues the runs interrupted before their thread, doubts those with one, and leaves the others |
| RecoveryTheorems.RecoverySafeIffCalm | apps/bot/server/bot-schedule-runner.ts:82-84 | from a safe state, recovery keeps dispatches unique in all later runs if and only if no claimed or starting run has an execution before its thread |
| RecoveryTheorems.RecoveryBesideExecution | apps/bot/server/bot-schedule-runner.ts:82-84 | otherwise, once the runner is started, there is a continuation without further recovery that dispatches a run twice |
| RecoveryTheorems.SecondDispatchReachable | apps/bot/server/bot-schedule-runner.ts:82-84 | such a state is reached from the empty store by one claim, and the whole run dispatches twice |
| Invocations.BotRegistry.DecideInvocation | apps/bot/server/bot-registry.ts:1386-1395 | decides, expires or denies a pending invocation and concludes a terminal one |
| Invocations.BotRegistry.BeginInvocation | apps/bot/server/bot-registry.ts:1397-1412 | starts an approved invocation once, delivers its handoff, and returns whatever row a revoked target leaves |
| Invocations.BotRegistry.ExpirePendingInvocations | apps/bot/server/bot-registry.ts:1377-1384 | expires exactly the overdue pending invocations and concludes each |
| Invocations.BotRegistry.CompleteInvocation | apps/bot/server/bot-registry.ts:1414-1421 | completes only a running invocation, and concludes what the row then is |
| Invocations.BotRegistry.FailInvocation | apps/bot/server/bot-registry.ts:1423-1430 | fails only an approved or running invocation, and concludes what the row then is |
| Invocations.BotRegistry.EnqueueContinuation | apps/bot/server/bot-continuations.ts:18-25 | a continuation is inserted once, for a terminal invocation that is no FYI and, if completed, has a summary |
| InvocationTheorems.EveryRunRight | apps/bot/server/bot-registry.ts:1377-1441 | after every transaction a continuation exists exactly for terminal non-FYI invocations (completed ones with a summary) with their state as outcome, and a running one has been delivered |
| InvocationTheorems.RunForward | apps/bot/server/bot-invocation-store.ts:133-200 | the state graph is acyclic and a terminal row never changes again |
| InvocationTheorems.StartedOnce | apps/bot/server/bot-invocation-store.ts:168-183 | APPROVED becomes RUNNING at most once |
| InvocationTheorems.ClaimedOnce | apps/bot/server/bot-continuations.ts:44-50 | a continuation is claimed at most once |
| InvocationTheorems.DecisionDecides | apps/bot/server/bot-invocation-store.ts:148-166 | a pending invocation expires when overdue, is denied when revoked, and otherwise becomes what the decision says; no other changes |
| InvocationTheorems.BeginStarts | apps/bot/server/bot-invocation-store.ts:168-183 | an approved invocation starts exactly when it is neither overdue nor revoked, and its handoff is then delivered |
| InvocationTheorems.CompletionCompletes | apps/bot/server/bot-invocation-store.ts:190-192 | exactly a running invocation completes, with its summary |
| InvocationTheorems.FailureFails | apps/bot/server/bot-invocation-store.ts:194-196 | exactly an approved or running invocation fails, for the reason given |
| InvocationTheorems.DenialDenies | apps/bot/server/bot-invocation-store.ts:198-200 | exactly a running invocation is denied |
| InvocationTheorems.ExpiryExpires | apps/bot/server/bot-invocation-store.ts:133-136 | exactly the overdue pending invocations expire |
| InvocationTheorems.HandoffStarts | apps/bot/server/bot-handoff.ts:204-345 | a new handoff's invocation is approved at once if pre-approved or within one owner, and waits otherwise |
| InvocationTheorems.ContinuationMoves | apps/bot/server/bot-continuations.ts:44-60 | a continuation starts in its thread, runs its turn and ends as that turn ended, not as another |
| InvocationTheorems.StepShows | apps/bot/server/bot-handoff.ts:453-468 | a transaction keeps every terminal invocation's outcome on its handoff if and only if it does not hide one |
| InvocationTheorems.ProcessShows | apps/bot/server/bot-handoff.ts:351-386 | direct processing hides an outcome exactly when the handoff of a terminal invocation was never processed |
| InvocationTheorems.ShownIffNeverHidden | apps/bot/server/bot-handoff.ts:351-386 | along a run every terminal invocation's handoff shows its outcome at all times if and only if no step processes an unprocessed handoff of a terminal invocation |
| InvocationTheorems.OutcomeHidden | apps/bot/server/bot-handoff.ts:351-386 | a run from the empty tables in which an expired handoff is processed and shows DELIVERED |
| DesktopDriver.E2BDesktopDriver.Proceed | apps/bot/server/desktop-driver.ts:76-84 | the checks made when the previous operation has ended |
| DesktopDriver.E2BDesktopDriver.ExecuteOperation | apps/bot/server/desktop-driver.ts:108-137 | validates the arguments before anything is attempted |
| DesktopDriver.E2BDesktopDriver.ScreenshotReturned | apps/bot/server/desktop-driver.ts:87-112 | only an accepted screenshot moves the revision and the observer |
| DesktopDriver.E2BDesktopDriver.ActionReturned | apps/bot/server/desktop-driver.ts:87-97 | an attempted action moves the revision and ends the observation, whether or not it succeeded |
| DesktopTheorems.EveryRunGood | apps/bot/server/desktop-driver.ts:60-106 | every attempted action quotes a successful screenshot of its own bot with no attempt or other successful screenshot in between, SDK operations never overlap, and none starts after close resolves |
| DesktopTheorems.OneActionPerScreenshot | apps/bot/server/desktop-driver.ts:79-96 | a screenshot licenses at most one attempted action |
| DesktopTheorems.LetThroughIff | apps/bot/server/desktop-driver.ts:60-84 | in every run the next call is let through exactly when the driver is open, its bot is named, it quotes the number of screenshots and actions so far, and an action's last mark is its own bot's screenshot |
| DesktopTheorems.GoesToTheSdk | apps/bot/server/desktop-driver.ts:108-131 | a checked call goes to the SDK as asked, an action only with permitted arguments |
| DesktopTheorems.ClickGoesToTheSdk | apps/bot/server/desktop-driver.ts:132-137 | a click is attempted exactly when it lies on the measured screen |
| DesktopTheorems.ReturnsMove | apps/bot/server/desktop-driver.ts:87-112 | a successful screenshot is a new revision for its bot to act on, and an action uses it up |
| ConnectionInteractions.BotConnectionInteractions.AfterConnectionState | apps/bot/server/bot-connection-interactions.ts:153-164 | re-checks the entry after the await and alone moves it to RESUMING |
| ConnectionInteractions.BotConnectionInteractions.Conclude | apps/bot/server/bot-connection-interactions.ts:165-198 | completes, goes stale, or waits again or expires after a failed retry |
| ConnectionTheorems.EveryRequestRight | apps/bot/server/bot-connection-interactions.ts:101-228 | for each request in every run: at most one retry at a time, one exactly while RESUMING; pending exactly while waiting or resuming; timer set exactly while waiting; settled exactly once it has left, and resolved exactly when completed |
| ConnectionTheorems.LeftForGood | apps/bot/server/bot-connection-interactions.ts:142-228 | an entry that has left is never changed or settled again |
| ConnectionTheorems.EveryStepFates | apps/bot/server/bot-connection-interactions.ts:101-228 | in every run each step does to a request exactly what it means for it: cancel, timer, staleness or a connected check while it waits, the end of its own retry while it resumes, nothing once it left |
| RuntimeBroker.Broker.EnsureTier | apps/bot/server/runtime-broker.ts:262-302 | starts a provisioning only for a live session that is not stopping, has none in progress and no provisioned lease in the other tier |
| RuntimeBroker.Broker.AcquireTier | apps/bot/server/runtime-broker.ts:304-324 | asks the provider only when the tier is free and the other holds no provisioned lease |
| RuntimeBroker.Broker.ProvisionTier | apps/bot/server/runtime-broker.ts:545-563 | stores the desktop, or discards one that exited early or whose session is gone |
| RuntimeBroker.Broker.AttachEndpoint | apps/bot/server/runtime-broker.ts:343-353 | refused while the tier is taken or a provisioning is in progress |
| RuntimeBroker.Broker.StopSessionStep | apps/bot/server/runtime-broker.ts:679-702 | waits for the provisioning, closes both tiers, and removes the session only then |
| BrokerTheorems.LeasesAccountedFor | apps/bot/server/runtime-broker.ts:262-337 | at most one provisioned lease per session, every open one stored, none open or being provisioned once the session is removed, and the branch for a removed session is unreachable |
| BrokerTheorems.OneProvisioningAtATime | apps/bot/server/runtime-broker.ts:282-301 | the provider is not asked again before the last provisioning has finished |
| BrokerTheorems.RemovedForGood | apps/bot/server/runtime-broker.ts:643-702 | a removed session stays removed with no lease open |
| BrokerTheorems.EnsureStarts | apps/bot/server/runtime-broker.ts:262-302 | a provisioning starts exactly for a ready session whose tier is no user's machine and whose other tier is free |
| BrokerTheorems.ProvisioningDelivers | apps/bot/server/runtime-broker.ts:262-324 | a free tier asked for gets one ready lease for its bot and workspace, if the provider answers |
| BrokerTheorems.FailedProvisioning | apps/bot/server/runtime-broker.ts:545-563 | a provider that fails, or a desktop already gone, leaves the leases as they were |
| BrokerTheorems.EndpointsComeAndGo | apps/bot/server/runtime-broker.ts:343-365 | an endpoint is attached exactly to a free live session, and detached only by its own id |
| BrokerTheorems.TierStopCloses | apps/bot/server/runtime-broker.ts:643-676 | stopping a tier closes and removes its lease, or leaves it ready if the close fails |
| BrokerTheorems.SessionStopRemoves | apps/bot/server/runtime-broker.ts:679-702 | a session stop whose awaits succeed closes both tiers and removes the session within eight steps |
| HistoryReader.CollectMatches | apps/bot/server/bot-history-reader.ts:20-27 | the backward loop collects the matching messages newest first |
| HistoryReader.PagesListMatches | apps/bot/server/bot-history-reader.ts:29-43 | following nextCursor lists every matching message exactly once, newest first |
| HistoryReader.ReadingIsOneText | apps/bot/server/bot-history-reader.ts:46-57 | however the history changes between reads, a reading that succeeds is the whole text the message had at first |
| HistoryReader.ReadingSucceeds | apps/bot/server/bot-history-reader.ts:46-57 | on a fixed history following nextOffset terminates with the full text |
| HistoryReader.PagesAreFull | apps/bot/server/bot-history-reader.ts:29-43 | a page holds at most 20 messages and 20 when there is a further one; exactly an unknown cursor is refused |
| HistoryReader.ReadIff | apps/bot/server/bot-history-reader.ts:46-57 | a read succeeds exactly for a known message, an offset within it and, past the start, its present revision, and gives at most 4000 characters |
| OwnedSkills.BotOwnedSkills.ValidateOwnedSkillFiles | apps/bot/server/bot-owned-skills.ts:89-115 | the loop over the entries refuses with the first error in their order, else gives the sorted files |
| OwnedSkills.BotOwnedSkills.Write | apps/bot/server/bot-owned-skills.ts:183-189 | validates and appends a revision if the expected one is current |
| OwnedSkills.BotOwnedSkills.Revert | apps/bot/server/bot-owned-skills.ts:191-201 | appends the files of an earlier revision, or refuses an unknown or deleted one |
| OwnedSkills.BotOwnedSkills.Delete | apps/bot/server/bot-owned-skills.ts:203-217 | appends an empty revision and marks the skill deleted |
| OwnedSkillTheorems.ValidatedIsAcceptable | apps/bot/server/bot-owned-skills.ts:89-115 | accepted files have distinct valid paths, sizes within the limits and a descriptor of this name, and are sorted |
| OwnedSkillTheorems.StoredIsValid | apps/bot/server/bot-owned-skills.ts:89-115 | such files, handed in again, are accepted unchanged |
| OwnedSkillTheorems.EveryRunSound | apps/bot/server/bot-owned-skills.ts:183-253 | in every run the stored revisions of a skill are exactly 1..current, and it is deleted exactly when the current one has no files |
| OwnedSkillTheorems.WrittenOnce | apps/bot/server/bot-owned-skills.ts:240-253 | a stored revision never changes |
| OwnedSkillTheorems.ReadingNeverFails | apps/bot/server/bot-owned-skills.ts:167-173 | reading a known skill never misses its revision or fails its validation, and gives the current files |
| OwnedSkillTheorems.RevertIff | apps/bot/server/bot-owned-skills.ts:191-201 | a revert succeeds if and only if the revision exists with files and the current one is expected, and then appends a revision with the same files |
| OwnedSkillTheorems.ValidatedIff | apps/bot/server/bot-owned-skills.ts:89-115 | exactly well-named lists of proper entries with distinct valid paths, sizes within the limits and a descriptor are accepted |
| OwnedSkillTheorems.WriteIff | apps/bot/server/bot-owned-skills.ts:183-189 | a write succeeds if and only if its files are accepted and the current revision is expected, and appends them |
| OwnedSkillTheorems.DeleteIff | apps/bot/server/bot-owned-skills.ts:203-217 | a delete succeeds if and only if the skill is undeleted and its current revision is expected, and appends an empty one |

## Left out

- HTTP, WebSocket, process, E2B and database I/O: an awaited call is an event whose answer is an argument; a transaction is one step; a query's rows are an argument with the query's condition as a precondition.
- JSON: parsing is a parameter of the stream model and the identity elsewhere; strings are sequences of characters, not UTF-16 units.
- Random ids: output indices stand for the item ids of the stream, step numbers for runtime request ids, fresh numbers for run and lease ids.
- ChatStream.ChatStreamToResponses: cancellation is the trace cut at a yield, and an upstream read error is the end of the text; token usage is copied, and the created-at time and the model name are left out.
- RpcChannels.CodexRpcChannels.Receive: a callback that throws, or that calls back into the multiplexer while waiters are being told (also in `SendRejected`), is not modelled; the values passed through are opaque.
- RpcTheorems.OneInitializeAtATime: assumes that a request whose write was rejected is never answered.
- Timeline: the other keys of a turn are one map of strings; the projection to chat messages, legacy history and the sidebar are left out.
- DeletionReconciler.BotDeletionReconciler.Finally: a database error inside the rollback itself is not modelled.
- ScheduleStore: creating and updating schedules, receipts, listing and report authorizations; which runnable runs a full limit leaves out plays no part.
- ScheduleRunner: which owner runtimes are retained, policy reports, the preparation calls of a turn and the paging of recovery are outcomes of a step; the claim of a bot's turn is the outcome `Busy`.
- Invocations: who may create an invocation or a handoff, the caller's reply events, fan-out and request idempotency.
- DesktopDriver: the key grammar is a flag, and the SDK's own effects are left out.
- ConnectionInteractions: deliveries to subscribers and the annotation of saved credentials.
- RuntimeBroker: opening sessions, detaching listeners, the broker-wide close, bot turn claims, relay grants and the attempts ledger of workspaces; a lease that exited before it was ready counts as closed.
- HistoryReader.ReadingIsOneText: assumes that SHA-256 tells apart the texts the message has at the reads.
- HistoryReader: excerpts, document metadata and the checks of the query's type and length.
- OwnedSkills: listing skills and revisions, and timestamps; the sort is assumed to permute and to leave a sorted list alone.
- Policy wrappers, argument validators, environment configuration and UI copy: easy members or plumbing.
