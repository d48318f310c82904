# Durable agent runs

A model of the protocol that keeps agent runs durable: the `agent-runtime` crate, the parts of
the conversation store that give its operations their effect, and the agent loop and message
writer above it. Everything is proved for all inputs and over whole runs; no property is bounded.

The modules, from the bottom up:

- `Wrappers` — values that may be missing, and results that may fail.
- `JsonText` — the bytes a string takes as JSON (section 7 of RFC 8259), and that serialized
  tuples, decimals and escapes determine what they were made from.
- `Protocol` — identities, payloads, limits, `validate` and `plan`, with the serialized size of
  every payload, command and event written out byte by byte.
- `Journal`, `Aliases` — the append-only journal: one transaction validates, deduplicates, plans
  and appends. The state of a run is the fold of `plan` over the journal. Beneath it the store
  keeps the identities of every command it ever acknowledged.
- `Serialized` — the JSON text of every payload, command, event and page, byte for byte what the
  sizes of `Protocol` and `Replay` count.
- `Execution`, `ToolFence`, `Ingest`, `EventSinks` — deterministic record identities, the durable
  fence around a tool execution as an interleaved system of any number of calls that crash, fail
  and are retried, the record sequence of a model response, and both operations as methods on a
  sink.
- `Replay`, `RunProjections`, `Paging`, `Delivery`, `CatchingUp` — pages, the client's acknowledged
  cursor, its watermark-tagged run state, the server's reads, and server, network and client
  together.
- `Lifecycle`, `Workspace`, `LifecycleJournal`, `TransactionRecords`, `TransactionCommits`,
  `AgentRecords`, `OrphanExample`, `Endings` — the pure planners of a leased run, all runs of a
  workspace under competing owners, the transactions that write run rows and journals together,
  the records they leave and when they commit, what records appended by agents do to them, and the
  records that end runs.
- `Agent`, `ChatRows`, `Writing`, `Adapter`, `TurnWrites`, `TurnReloads`, `TurnExamples` — the
  bounded agent loop, stored messages and how they are read back, the writer that stores a turn
  while it runs and once more at its end, and what comes of its writes.

What the environment decides is a parameter: faults of the store, which answers arrive, when
clocks read what, what the model and the tools answer, which row writes fail, generated ids. The
SHA-256 digests of the original are values of a constructor, so different texts have different
digests.

Findings about the code, stated as lemmas:

- A final answer can be planned and yet never be written. `plan_finalize` bounds the raw bytes of
  the content, `validate` the escaped bytes of the record (`PlannedEndingIsValid`,
  `PlannedEndingCanBeUnwritable`).
- An answer of nothing but white space is stored but not read back, because such a row counts as
  an unfilled placeholder (`ReloadRoundTrip`, `StoredTurnReloads`). `BlankAnswerIsLost` is such a
  turn.
- A user row that the adapter inserts gets the identity its caller chose, and already announced,
  exactly if every write that an iteration boundary tried for it failed, since identities are
  attached after the loop (`UserRowHasChosenId`); when no write fails, exactly if the turn called
  no tool. The comment on `UserMessagePersistence` promises it always. `ChosenIdIsLost` is a turn
  that breaks the promise.
- A state record that an agent appends to its own leased run is accepted like any other. Row and
  journal move together, but the run ends with its lease kept, which no operation ever takes back,
  its started calls without receipts and, unless it is an approval, no ending projected.
  `HealthyStep` and `HealthyIffDisciplined` say exactly when, `FailureOrphans` what such a run
  looks like, and `OrphanIsReached` that a new store gets there.
- The factor six between a string and its escaped form, on which the smallest page budget rests,
  is reached (`EscapeGrowthReached`), so the constant cannot be smaller for that reason.

## Model

| member | source | states |
|---|---|---|
| JsonText.EscapeGrowth | crates/agent-runtime/src/replay.rs:8-16 | escaping grows a string to at most six times its bytes |
| JsonText.EscapeGrowthReached | crates/agent-runtime/src/replay.rs:8-16 | the factor six is reached at every length |
| JsonText.EscapedLenIsSize | crates/agent-runtime/src/lib.rs:287-300 | the size function counts exactly the bytes of the escaped text |
| JsonText.Utf8RoundTrip | crates/agent-runtime/src/lib.rs:287-300 | the width of a character is the number of its UTF-8 bytes, which give it back |
| JsonText.TupleTextInjective | crates/agent-runtime/src/execution.rs:88-98 | the serialized identity tuple determines its four strings |
| JsonText.DecimalInjective | crates/agent-runtime/src/execution.rs:168-169 | a number is read back from its decimal digits, so the index in a planning key is determined |
| Protocol.IntegerWidths | crates/agent-runtime/src/replay.rs:8-16 | a u16 takes at most 5 bytes and an i64 at most 20 |
| Protocol.MinReplayBytesHoldsOneEvent | crates/agent-runtime/src/replay.rs:8-16 | every event a writer could store fits the smallest page budget, brackets included |
| Protocol.ValidateAccepts | crates/agent-runtime/src/lib.rs:273-356 | a command is valid exactly when it is of version 1, its identities and those in its payload take 1 to 128 bytes, it is within its sizes, and a detail comes exactly with a reference; what is wrong decides the refusal |
| Protocol.PlanMeans | crates/agent-runtime/src/lib.rs:357-434 | which records a run accepts in which state and why others are refused; the state each leaves, and that only a submitted message and an approved answer are projected, whole |
| Serialized.CommandJson | crates/agent-runtime/src/lib.rs:174-183 | the size of a command is the number of bytes of its JSON text |
| Serialized.IdLen | crates/agent-runtime/src/lib.rs:273-300 | the length of an envelope identity is that of its text, a digest's that of 64 hexadecimal digits |
| Serialized.PageJson | crates/agent-runtime/src/replay.rs:46-54 | the size of a page is the number of bytes of its JSON text |
| Journal.CommitKeepsBuilt | crates/agent-runtime/src/lib.rs:435-440 | a commit keeps the journal buildable, appends at most the command, and its receipt names a record with the same run, payload and detail |
| Journal.CommitAnswers | crates/kyomi-auth/src/conversation_events.rs:144-237 | a record under one of a command's two identities, or else a report of the same call, answers it if it says the same and is a conflict otherwise; any other command is planned and appended next |
| Journal.PlansItsReceipt | crates/agent-runtime/src/lib.rs:419-433 | the receipt or usage key that keeps a record unique is the one its plan writes |
| Aliases.StoreRefinesJournal | crates/kyomi-auth/src/conversation_events.rs:139-216 | what the store acknowledges the journal acknowledges with the same effect and receipt; the store refuses more only under an identity that an acknowledged command has |
| Aliases.AcknowledgedForGood | crates/kyomi-auth/src/conversation_events.rs:144-216 | a command acknowledged once, as a record or by a receipt, is acknowledged with the same sequence ever after and changes nothing; anything else under one of its identities is a conflict ever after |
| Journal.BuiltUnique | crates/kyomi-auth/src/conversation_events.rs:144-216 | no two records of a journal share an idempotency identity or a receipt |
| Journal.StateMoves | crates/agent-runtime/src/lib.rs:391-418 | between any two watermarks a run's state only moves forward |
| Journal.HistoryCompleted | crates/agent-runtime/src/lib.rs:395-415 | a run is completed exactly when it has an approved answer |
| Journal.ErasureKeepsState | crates/agent-runtime/src/lib.rs:367-375 | erasing every restricted record leaves the state of every run as it was |
| Journal.JournalPolicy | crates/agent-runtime/src/lib.rs:357-434 | in every journal: one submission per run and it comes first, nothing follows a terminal state, completed means approved, erasure keeps states |
| Execution.KeyTextInjective | crates/agent-runtime/src/execution.rs:138-175 | the seven kinds of record key coincide only for the same kind, id and index, whatever the ids contain |
| Execution.EnvelopesInjective | crates/agent-runtime/src/execution.rs:89-110 | two commands share an envelope identity exactly when they are the same record of the same run and conversation |
| Execution.BoundedTextRoundTrip | crates/agent-runtime/src/execution.rs:111-120 | a reader gets the whole body back, and a detail body comes exactly with its reference |
| Execution.ReferencesInjective | crates/agent-runtime/src/execution.rs:89-120 | a detail reference names one text of one record, and never a record |
| Execution.IngestCommandsDistinct | crates/agent-runtime/src/execution.rs:132-179 | the records of one response lie under different envelopes and receipts |
| ToolFence.NextKeepsInv | crates/agent-runtime/src/execution.rs:180-245 | every step, crash, retry, lost acknowledgement and foreign commit keeps the fence invariant |
| ToolFence.ToolRunsAtMostOnce | crates/agent-runtime/src/execution.rs:180-245 | over every interleaving the action of a tool call id runs at most once, and only with its intent, by name and arguments, and its start in the journal |
| ToolFence.ActionIsFenced | crates/agent-runtime/src/execution.rs:207-222 | a call about to act has its start committed and no other call of its id has started |
| ToolFence.ReturnedOutcomeIsDurable | crates/agent-runtime/src/execution.rs:188-195 | every Ok is the outcome the journal holds then and ever after, and neither its transport nor its domain is unknown |
| ToolFence.CommittedOutcomeIsReturned | crates/agent-runtime/src/execution.rs:186-195 | a call that finds its outcome committed returns it exactly when neither side of it is unknown, and is uncertain otherwise |
| ToolFence.OtherReceiptIsAnError | crates/kyomi-auth/src/conversation_events.rs:440-458 | a receipt that is not an outcome is an error of the store |
| ToolFence.UncertainWhenItMayHaveRun | crates/agent-runtime/src/execution.rs:207-245 | a call is uncertain when another one appended its start, or its own outcome is not acknowledged |
| ToolFence.PersistenceMeansNotRun | crates/agent-runtime/src/execution.rs:180-222 | a call that fails for the store's sake has not run its action |
| ToolFence.RecordedOutcomeIsRead | crates/kyomi-auth/src/conversation_events.rs:440-458 | a committed outcome is what every read of the outcome returns, text included |
| Ingest.CommitRecord | crates/agent-runtime/src/execution.rs:139-177 | committing the next record of a sequence leaves the journal as it was or appends exactly that record |
| Ingest.IngestIsCrashIdempotent | crates/agent-runtime/src/execution.rs:132-179 | overlapping and interrupted attempts leave a prefix of the record sequence, in order; once one completes, the journal is that of one uninterrupted attempt |
| Ingest.AttemptsMove | crates/agent-runtime/src/execution.rs:132-179 | an attempt goes on exactly when its next record is acknowledged, and stops where it is otherwise |
| EventSinks.EventSink.Ingest | crates/agent-runtime/src/execution.rs:132-179 | from wherever earlier attempts stopped, a completed call leaves the raw response and the candidate restricted, the usage with its cost and every planning text whole, an interrupted one some of that in order; nothing else becomes public; it completes exactly when every acknowledgement arrives and the missing records are valid, on a live run, with sequence numbers left |
| EventSinks.EventSink.Tool | crates/agent-runtime/src/execution.rs:180-245 | one call is one schedule of the interleaved system: same journal, same result, same number of executions |
| EventSinks.FirstCallRunsOnce | crates/agent-runtime/src/execution.rs:180-245 | an undisturbed first call appends its intent, start and outcome, runs once between them, and returns the outcome exactly when neither side of it is unknown |
| EventSinks.OutcomeIsRecorded | crates/agent-runtime/src/execution.rs:222-240 | the record of an outcome carries the call, both sides and the whole text |
| Replay.AdjacentScansAreGapless | crates/agent-runtime/src/replay.rs:65-82 | whatever records are offered, the ones a page advances over are the next sequences without a gap, each once, and its events are the visible ones among them |
| Replay.CursorPage.ScanSnapshot | crates/agent-runtime/src/replay.rs:83-113 | the page and the answer after examining a record; an event is taken when the list with it fits |
| Replay.ScanRunKeepsWellFormed | crates/agent-runtime/src/replay.rs:54-114 | after any calls a page is ordered, in range, within the size cap, and says truly whether more follows |
| Replay.StagedExactly | crates/agent-runtime/src/replay.rs:214-245 | a page is staged exactly when it answers this subscription, starts at the cursor of an idle client, is ordered and complete in itself, and is within its limits |
| Replay.StagedPageOutcomes | crates/agent-runtime/src/replay.rs:212-271 | a staged page moves the cursor to its end by its own token only and once; after a failure the cursor stands and the page can be staged again under another token; a new subscription drops it |
| Replay.TokensDie | crates/agent-runtime/src/replay.rs:246-271 | applying, giving up and replacing all end the life of the staged token |
| Replay.TokenDiscipline | crates/agent-runtime/src/replay.rs:186-271 | over any operations tokens are all distinct, each is consumed at most once, and only a replacement moves the cursor back |
| Replay.DeadTokensStayDead | crates/agent-runtime/src/replay.rs:246-270 | a token that was applied, failed or replaced is refused ever after, also under an equal identity |
| Replay.ScannedPageIsStaged | crates/agent-runtime/src/replay.rs:32-113 | every page scanned from an accepted cursor passes all tests of an idle cursor at its start, the serialized size included |
| RunProjections.NewerPointIsTaken | crates/agent-runtime/src/replay.rs:281-291 | a point of the journal is taken exactly when its watermark is newer: the guards never refuse a state that was reached |
| RunProjections.ProjectionConverges | crates/agent-runtime/src/replay.rs:273-292 | any order, loss and repetition of points ends at the state of the largest watermark |
| RunProjections.SameWatermarksSameProjection | crates/agent-runtime/src/replay.rs:273-292 | two readers that received the same watermarks, each in its own order and as often as it did, agree |
| RunProjections.ProjectionNeverRegresses | crates/agent-runtime/src/replay.rs:281-291 | with arbitrary points the watermark never goes back, a terminal state stays and a started run is not queued again |
| Paging.BuiltFits | crates/kyomi-auth/src/conversation_events.rs:234-237 | no journal outgrows its sequence numbers, so bounding journals by them leaves none out |
| Paging.ReadReplay | crates/kyomi-auth/src/conversation_events/read.rs:124-169 | the answer to a read: the checks, the row scan and the corrections after it |
| Paging.ReadReplayAnswers | crates/kyomi-auth/src/conversation_events/read.rs:28-63 | exactly which reads are refused and why; every other read gets the longest page within its limits that holds, field by field, every public record of the run asked for and no other, and moves on unless nothing is left |
| Paging.PagingIsComplete | crates/kyomi-auth/src/conversation_events/read.rs:124-169 | pages under any changing limits together hold every public record of the run asked for and no other, each once and in order, and as many pages as records are left reach the end |
| Delivery.ExactlyOnceDelivery | crates/agent-runtime/src/replay.rs:182-271 | whatever the journal, the requests and the network do, and wherever new subscriptions start: the projection holds every public record of the run asked for from the cursor it was started at to its position and no other, each once and in order, and the cursor never claims more |
| Delivery.ReturningKeepsOrigin | crates/agent-runtime/src/replay.rs:264-270 | only a subscription where the projection has not been starts it anew |
| CatchingUp.OtherSteps | crates/agent-runtime/src/replay.rs:257-263 | a page that was not written is given up and the cursor stands |
| CatchingUp.Exchange | crates/agent-runtime/src/replay.rs:214-256 | an undisturbed exchange of request, answer, projection transaction and acknowledgement moves an idle client forward |
| CatchingUp.CatchUp | crates/agent-runtime/src/replay.rs:54-271 | from every such world some run of at most one exchange per record left brings the projection to the end of the journal |
| Lifecycle.StepKeepsRun | crates/agent-runtime/src/lifecycle.rs:132-296 | what any operation may do to a run: lease and state stay in step, a terminal run never changes, a projection is written exactly on ending and says how |
| Lifecycle.CancelTakesEffect | crates/agent-runtime/src/lifecycle.rs:223-236 | a cancellation ends a queued run at once and marks a running one, which keeps its lease |
| Lifecycle.FinishTakesEffect | crates/agent-runtime/src/lifecycle.rs:238-259 | exactly the holder ends a run, as it reports, or cancelled if that was requested |
| Lifecycle.InterruptTakesEffect | crates/agent-runtime/src/lifecycle.rs:260-275 | exactly a queued run is interrupted, with the reason |
| Lifecycle.ExpireTakesEffect | crates/agent-runtime/src/lifecycle.rs:276-296 | exactly a run whose lease is over ends, interrupted, or cancelled if that was requested |
| Lifecycle.ClaimTakesEffect | crates/agent-runtime/src/lifecycle.rs:132-164 | exactly a queued run of an idle conversation is claimed, under the first fence and for the duration |
| Lifecycle.HeartbeatTakesEffect | crates/agent-runtime/src/lifecycle.rs:182-201 | exactly the holder extends a lease, never shortening it |
| Lifecycle.OwnershipMeans | crates/agent-runtime/src/lifecycle.rs:165-181 | what makes a lease validate, in any snapshot |
| Lifecycle.ClaimMeans | crates/agent-runtime/src/lifecycle.rs:132-164 | what a claim asks of any snapshot, the fence included |
| Lifecycle.RefusalsNameTheirReason | crates/agent-runtime/src/lifecycle.rs:132-275 | which refusal an operation gets, if any, and when |
| Lifecycle.PlansReportChanges | crates/agent-runtime/src/lifecycle.rs:203-296 | a plan reports a change exactly when it makes one |
| Lifecycle.SubmissionIsPlanned | crates/agent-runtime/src/lifecycle.rs:72-125 | what is asked of a submission, and that a retry must agree in everything but what is generated for it |
| Lifecycle.ClaimGivesOwnership | crates/agent-runtime/src/lifecycle.rs:132-181 | after a claim exactly the claimer's lease validates, and until its expiry |
| Lifecycle.HeartbeatExtendsOwnership | crates/agent-runtime/src/lifecycle.rs:182-195 | a heartbeat never shortens a lease, makes it last its duration, and changes nobody else's ownership |
| Lifecycle.OwnedOrExpired | crates/agent-runtime/src/lifecycle.rs:165-181 | for a running run, at every time exactly one of: its lease validates, expiry ends it; expiry never misses a lease |
| Lifecycle.DeadLeaseStaysDead | crates/agent-runtime/src/lifecycle.rs:165-195 | no operation revives a lease that does not validate for a started run |
| Workspace.ReachableWorkspace | crates/agent-runtime/src/lifecycle.rs:132-296 | in every reachable workspace: running exactly with a lease under the snapshot's fence, at most one running run per conversation, no run claimed twice, one terminal projection per ended run and none otherwise |
| Workspace.RunsMoveForward | crates/agent-runtime/src/lifecycle.rs:132-296 | over any further events fences never decrease, cancellations stand, ended runs stay as they ended, nothing written is taken back |
| Workspace.CancellationDominates | crates/agent-runtime/src/lifecycle.rs:223-296 | a run whose cancellation was requested can only end cancelled, and its projection says so |
| Workspace.CancelledForGood | crates/agent-runtime/src/lifecycle.rs:223-296 | from a cancellation on, a run that had not ended is cancelled or still running, whatever its holder reports |
| Workspace.ClaimedAtMostOnce | crates/agent-runtime/src/lifecycle.rs:132-162 | a claimed run is never claimed again |
| Workspace.DeadLeaseNeverRevives | crates/agent-runtime/src/lifecycle.rs:165-195 | under a clock that does not go back, a lease that stopped validating never validates, heartbeats or finalizes again |
| Workspace.FreshSubmission | crates/agent-runtime/src/lifecycle.rs:72-125 | a well-formed submission under a fresh request and run id queues its run, and nothing else does |
| Workspace.RetriedSubmission | crates/agent-runtime/src/lifecycle.rs:72-125 | a request retried by its actor names the same run and changes nothing, whatever was generated for it, when it agrees field by field; otherwise it is a conflict |
| Workspace.QueueHeadIsClaimable | crates/kyomi-auth/src/conversation_events/lifecycle.rs:293-295 | a conversation with queued runs and none running is never stuck: the head of its queue can be claimed |
| Workspace.ClaimsFollowTheQueue | crates/kyomi-auth/src/conversation_events/lifecycle.rs:293-295 | of two queued runs of a conversation the one queued earlier is claimed first, at equal times the one with the smaller id, and none while another runs |
| Workspace.LessIsByFirstDifference | crates/kyomi-auth/src/conversation_events/lifecycle.rs:293-295 | which of two run ids is smaller |
| LifecycleJournal.SettleToolsOk | crates/kyomi-auth/src/conversation_events/lifecycle.rs:138-163 | after settling, every started tool call has a receipt and no run has changed state |
| LifecycleJournal.SetterCommit | crates/kyomi-auth/src/conversation_events/lifecycle.rs:296-307 | a state record that commits moves the run: an earlier commit of it cannot stand in |
| TransactionRecords.ActionIsRecorded | crates/kyomi-auth/src/conversation_events/lifecycle.rs:138-187 | a claim leaves its start in the journal, a cancellation its request, an ending its record with the whole content and an unknown outcome for every unanswered call; an operation without effect leaves nothing |
| TransactionRecords.EndIsRecorded | crates/kyomi-auth/src/conversation_events/lifecycle.rs:138-187 | the ending is recorded under its kind with its whole content, and the unanswered calls are given up |
| TransactionRecords.SubmissionIsRecorded | crates/kyomi-auth/src/conversation_events/lifecycle.rs:225-260 | an accepted submission leaves itself and the queued state in the journal |
| TransactionCommits.ActionCommits | crates/kyomi-auth/src/conversation_events/lifecycle.rs:138-187 | with unused identities every operation commits, however many calls are unanswered, unless the record of an ending is itself not valid |
| TransactionCommits.SubmissionCommits | crates/kyomi-auth/src/conversation_events/lifecycle.rs:225-260 | a valid submission of an unknown run commits |
| LifecycleJournal.RowsAgreeWithJournals | crates/kyomi-auth/src/conversation_events.rs:217-256 | whichever transactions abort and whatever agents append: every journal obeys its policy, and every run row is in the state its journal folds to |
| AgentRecords.HealthyStep | crates/kyomi-auth/src/conversation_events.rs:217-256 | one operation keeps running runs leased, at most one of a conversation, endings projected and calls of ended runs settled, exactly when it is no accepted record of an agent that moves the state of its run |
| AgentRecords.HealthyIffDisciplined | crates/kyomi-auth/src/conversation_events/lifecycle.rs:138-187 | over whole runs: all that holds exactly as long as no agent appends such a record, and after one some run is over and leased |
| AgentRecords.EndedRunsAreSettled | crates/kyomi-auth/src/conversation_events/lifecycle.rs:138-163 | without such a record an ended run has a receipt for every tool call it ever started |
| AgentRecords.OrphanedForGood | crates/agent-runtime/src/lifecycle.rs:165-296 | a run that is over and leased is never freed by any operation |
| AgentRecords.FailureOrphans | crates/kyomi-auth/src/conversation_events.rs:217-291 | a failure recorded by an agent with a call unanswered: failed in row and journal, lease kept, no receipt, no projection |
| OrphanExample.OrphanIsReached | crates/kyomi-auth/src/conversation_events.rs:217-291 | a submission, a claim, a started call and a failure lead a new store there |
| Endings.CompletionProjectsAnswer | crates/agent-runtime/src/lib.rs:404-415 | the record that completes a run projects the very answer the lifecycle planned |
| Endings.PlannedEndingIsValid | crates/agent-runtime/src/lifecycle.rs:238-256 | a planned ending can be recorded exactly when it is short, cancelled, or fits after escaping |
| Endings.PlannedEndingCanBeUnwritable | crates/kyomi-auth/src/conversation_events/lifecycle.rs:164-176 | an accepted plan that no journal takes |
| Agent.FinalNoticeIsInTime | crates/kyomi-agent/src/agent.rs:138-158 | with any budget the final notice is sent before the budget is used up |
| Agent.NoticeTells | crates/kyomi-agent/src/agent.rs:160-190 | the figures a notice gives and which of the two it is |
| Agent.CustomAgent.UpdateNotice | crates/kyomi-agent/src/agent.rs:609-627 | the running count of thresholds keeps the notice at its closed form |
| Agent.CustomAgent.ExecuteTools | crates/kyomi-agent/src/agent.rs:795-835 | one result message per call, in order, with the result of that very call |
| Agent.CustomAgent.Iterate | crates/kyomi-agent/src/agent.rs:607-900 | one iteration keeps the shape, the budgets and the origin of the turn, or ends it |
| Agent.CustomAgent.Chat | crates/kyomi-agent/src/agent.rs:532-1033 | a turn adds the user's message, complete groups of a tool-calling answer with its results, and on success the content of the last answer, or what it thought when it chose to stop without any; every call was shown the whole transcript, or its compaction, the answers rejected before it with their errors and the notice of its iteration; no budget was overrun or given up early; a turn that nothing disturbs ends with an answer; the boundaries are those of the groups |
| Agent.OnlyUserMessageIsFirst | crates/kyomi-agent/src/agent.rs:559-573 | no notice, retry or wrap-up instruction ever enters the transcript |
| Agent.AnnotationForms | crates/kyomi-agent/src/agent.rs:1240-1262 | the annotation of a message in its four forms |
| ChatRows.RowRoundTrip | crates/kyomi-agent/src/adapter.rs:950-1019 | a stored row reads back as the model saw it, no annotation lost or doubled |
| ChatRows.PersistOneMeans | crates/kyomi-agent/src/adapter.rs:817-927 | one message is left alone, refused, put into the row that waits for it, or inserted under its identity, and when |
| ChatRows.ReloadRoundTrip | crates/kyomi-auth/src/chat_service.rs:2225-2258 | stored messages read back exactly if and only if none is a blank answer |
| ChatRows.BlankTrimsToNothing | crates/kyomi-auth/src/chat_service.rs:2225-2258 | a content is blank exactly when trimming leaves nothing of it |
| ChatRows.WhitespaceIs | crates/kyomi-auth/src/chat_service.rs:2225-2258 | the 25 characters that trimming takes for white space |
| Adapter.ChatAgentAdapter.LoadContext | crates/kyomi-agent/src/adapter.rs:375-401 | the history is every readable row but the one the caller already holds |
| Adapter.ChatAgentAdapter.PersistMessage | crates/kyomi-agent/src/adapter.rs:817-927 | one message is stored under its identity, skipped for its kind, or its write fails and nothing changes |
| Adapter.ChatAgentAdapter.PersistBoundary | crates/kyomi-agent/src/adapter.rs:543-617 | the boundary writer stores all new messages in order, up to a write that fails |
| Adapter.ChatAgentAdapter.PersistAfterChat | crates/kyomi-agent/src/adapter.rs:421-453 | the last pass stores the rest in order and completes, or stops at a write that fails |
| Adapter.ChatAgentAdapter.TagLastAssistantMessage | crates/kyomi-agent/src/adapter.rs:721-733 | only the last assistant message gets the identity |
| Adapter.ChatAgentAdapter.TagFirstNewUserMessage | crates/kyomi-agent/src/adapter.rs:735-751 | only the first new user message gets the identity |
| Adapter.ChatAgentAdapter.Chat | crates/kyomi-agent/src/adapter.rs:642-719 | for every schedule of boundaries and every pattern of failed writes, what the table holds after a turn and how far each writer came; anything unstored goes back to a write that failed, at a boundary or after the loop, and a leased run then has no answer |
| Writing.ErrorHasCause | crates/kyomi-agent/src/adapter.rs:543-617 | a leased run remembers an error exactly when a write failed at a boundary |
| TurnWrites.PersistedIffWritesSucceed | crates/kyomi-agent/src/adapter.rs:421-453 | with the chosen identities free, a leased run is stored and has its answer exactly when the store refused none of its writes, any other turn is stored exactly when it refused none after the loop |
| Adapter.SkipsAgree | crates/kyomi-agent/src/adapter.rs:516-540 | the skip by position and the skip by identity name the same message |
| Adapter.StoredIsPrefix | crates/kyomi-agent/src/adapter.rs:412-453 | the added rows hold an ordered, duplicate-free prefix of the messages to store, and after a complete last pass all of them |
| Adapter.CallerRowStays | crates/kyomi-agent/src/adapter.rs:784-793 | the row that was there first is never inserted again |
| Adapter.AnswerFillsItsRow | crates/kyomi-agent/src/adapter.rs:869-890 | a written answer fills the row that waited for it, and no second row takes its identity |
| TurnWrites.UserRowHasChosenId | crates/kyomi-agent/src/adapter.rs:103-111 | the inserted user row has the chosen identity exactly when every write a boundary tried for it failed; when no write fails, exactly when the turn called no tool |
| TurnExamples.ChosenIdIsLost | crates/kyomi-agent/src/adapter.rs:678-700 | a turn with one tool call and no failed write whose user row has another identity than announced |
| TurnReloads.StoredTurnReloads | crates/kyomi-agent/src/adapter.rs:950-1019 | after a complete turn the whole table reads as the history and the turn as the model saw them, annotated user row and filled placeholder included, unless the answer is blank |
| TurnExamples.BlankAnswerIsLost | crates/kyomi-auth/src/chat_service.rs:2225-2258 | a turn that succeeds with an empty answer, is stored completely, and is not read back as it was seen |

## Left out

- Journal.Commit: keeps no identity of a command that a receipt answered; `Aliases.Commit` does, and `StoreRefinesJournal` says what that adds for everything proved of journals.
- Delivery.ExactlyOnceDelivery: one run filter serves a client for good, and a client acknowledges a token only once its projection transaction was committed and gives it up only if it was not.
- Workspace.RetriedSubmission: run ids are generated, so a new request under a run id that is taken is refused; the store's own handling of that case is not modelled.
- Adapter.ChatAgentAdapter.Chat: one turn per adapter, as the original uses it; a second call would start from the count of loaded messages again and store the first turn twice.
- Adapter.ChatAgentAdapter.PersistDuring: the boundaries run after the loop with the transcripts they saw; a writer acts on the loop only by cancelling a leased run after a failed write, and the loop is modelled under every cancellation.
- ChatRows.PersistOne: the row of a leased run's answer comes to the end only with the record that ends the run, and is shown there from when it is filled in; the journal record beside each row of a leased run is not modelled.
- `complete`, a provider call followed by `ingest`.
- Adapter.AnswerFillsItsRow: takes the waiting row as there, since the caller inserted it; filling in a missing row is a silent success outside leased runs.
- `append` and its notifications: a commit followed by one best-effort call.
- Wrap-around of token counters, which are natural numbers here, and the wording of notices and instructions, which is abridged.
- Reload of compaction state and of the iteration counter from the session configuration; usage display, thinking events and logging.
- Authorization, encryption, the database, WebSocket delivery and provider clients.
- Run metadata in read snapshots and the detail endpoint.
- JSON beyond sizes, escaping and tuples: a carried JSON value is its compact text.
