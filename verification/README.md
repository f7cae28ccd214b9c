# HuanLink: protocols and encodings, verified

This project models the stateful core of HuanLink in Dafny and proves what it promises. Most of it is a
set of protocols whose blocks run without interruption between two awaits, so each block is one step:
a function from the old state to the new one, which a class with the same fields carries out by
assignment and is proved equal to. Whatever the transport, the store, a socket or the clock answers is a
parameter, so the theorems quantify over every interleaving and every failure. A run is a sequence of
steps, and the main results hold in every state a run can reach.

- `SessionTaskQuota`, `AsyncTaskService`, `AsyncTaskInvariant`, `AsyncTaskRuns`, `AsyncTaskServiceObject`:
  quota leases, and the tasks that own them, over a store that may fail and a process that may restart.
- `InMemoryTaskStore`, `SqliteTaskStore`: the two task stores and their simulation.
- `AgentCallService`, `AgentCallFlow`, `AgentCallTasks`, `AgentCallInvariant`, `AgentCallAgreement`,
  `AgentCallRuns`, `AgentCallQuota`, `AgentCallDisagreement`, `AgentCallServiceObject`: remote submission, watchers,
  cancellation and continuation on top of the tasks.
- `ConversationFacts`, `InMemoryConversations`, `SqliteConversations`, `ConversationStores`,
  `ConversationIndexes`, `ConversationContext`: the two conversation stores, their simulation and the projected context.
- `CqText`, `CqCodec`, `CanonicalJson`, `SessionKey`: the encodings. CQ escaping follows the section on
  escaping of the OneBot 11 message string format, JSON strings section 7 of RFC 8259, percent-encoding
  section 2.1 of RFC 3986.
- `SimpleLruMap`, `EventLogs`, `JsonlEventLog`: the event log with its evicting cache.
- `CodexExecutor`, `CodexExecutorRuns`, `CodexExecutorObject`: the Codex task executor.
- `SessionChains`, `ChannelRuntime`: the per-session promise chains and the access policies.
- `OneBotTransport`, `OneBotTransportObject`: the WebSocket action and reconnect machine.
- `RunView`: the view of a run. `ServerLifecycle`, `ServerLifecycleObject`: starting and closing.

One promise of the source does not hold for all inputs: that the record of a call agrees with its task.
A snapshot overtakes a call when the task is final already, nobody has handled that, and the store can be
read: the record follows the snapshot
(`packages/core/src/agent-call/agent-call-service.ts:1345-1349`) before the task service refuses it.
`AgreesUnlessOvertaken` shows that this is the only way: over every run, and for each call by itself,
record and task agree in every state with an open service if and only if no snapshot of the run overtakes
the call. Only a call that was accepted as finished can be overtaken (`OvertakenWasAcceptedFinal`), and
only until it is settled (`SettledIsNeverOvertaken`); `FirstTurnSettles` says exactly when the first turn of
its watcher settles it. `QuestionsBreakAgreement` and `UnreadableTurnBreaksAgreement` are whole runs of the
two ways in which that turn fails: the record drops the questions of a snapshot that does not wait for input
while the stored payload keeps them, or a read of the store fails and another snapshot comes before the retry.

## Model

The results come first, down to `ServerLifecycle.CloseNeverHangs`. The rows below it are methods: each changes
its object, or runs its loop, as the source does, and is proved equal to the function that the results are about.

| member | source | states |
|---|---|---|
| AgentCallRuns.DispatchedAtMostOnce | packages/core/src/agent-call/agent-call-service.ts:387-596 | In every run, with crashes and restarts at any step, the transport gets at most one asynchronous submission per source, and a dispatched source is in the durable store |
| AgentCallRuns.LaterCallsAreNotReserved | packages/core/src/async-tool-task/async-tool-task-service.ts:118-204 | Once a source was dispatched, no later submission reserves it, in this process or after a restart |
| AgentCallRuns.OneDispatchPerAsyncSource | packages/core/src/agent-call/agent-call-service.ts:183-238 | A source used by asynchronous submissions only reaches the transport at most once in either mode |
| AgentCallRuns.CountsAreConserved | packages/core/src/agent-call/agent-call-service.ts:240-385 | In every run each (session, pool) count equals its unfinished tasks plus its in-flight blocking calls |
| AgentCallQuota.CountsStayWithinLimits | packages/core/src/tasks/session-task-quota-service.ts:51-89 | In every run a count grows only with an admitted submission or blocking call, by one and never above its limit; a restart alone may rebuild more |
| AgentCallQuota.NeverAboveLimit | packages/core/src/tasks/session-task-quota-service.ts:51-89 | Until the first restart no count is ever above its limit |
| AgentCallQuota.NoLeakErrors | packages/core/src/async-tool-task/async-tool-task-service.ts:746-753 | In every run no call of the task or quota service, the recovery of a restart and the releases whose errors are swallowed included, raises the error of a lost or forged handle |
| AgentCallRuns.NeverTogetherAtTransport | packages/core/src/agent-call/agent-call-service.ts:854-1046 | A cancellation and a continuation of one remote task are never at the transport together, and a remote task has at most one active continuation |
| AgentCallRuns.AcceptedIsRecorded | packages/core/src/agent-call/agent-call-service.ts:1450-1484 | An accepted submission with a remote id that is not recorded yet, on an open service, is recorded, indexed and backed by its task in every reachable state, whatever the store does; recovering an accepted submission is never needed |
| AgentCallRuns.RecordsAgree | packages/core/src/agent-call/agent-call-service.ts:1295-1429 | While the service is open and no snapshot has overtaken this one call, its record is in the state of its task or the task is unknown; a handled call is final and equal in both, whatever happened |
| AgentCallRuns.AgreesUnlessOvertaken | packages/core/src/agent-call/agent-call-service.ts:1295-1429 | For every run, any interleaving and any failed or retried store operations, and for each call by itself: record and task agree in every state with an open service if and only if no attempt of the run overtakes the call |
| AgentCallRuns.OvertakenWasAcceptedFinal | packages/core/src/agent-call/agent-call-service.ts:690-746 | Whatever is overtaken in a run was accepted by the transport as already finished |
| AgentCallRuns.SettledIsNeverOvertaken | packages/core/src/agent-call/agent-call-service.ts:1334-1336 | A call that was settled is never overtaken while the process lives |
| AgentCallRuns.HandledRecordsAreFinal | packages/core/src/agent-call/agent-call-service.ts:1337-1429 | As long as the process lives and the service is open, nothing changes the record of a call whose terminal snapshot was handled |
| AgentCallAgreement.FirstTurnSettles | packages/core/src/agent-call/agent-call-service.ts:1196-1210 | The first turn on a call accepted in a final state settles it if and only if the store can be read and the accepted snapshot has no questions |
| AgentCallAgreement.OvertakenDisagrees | packages/core/src/agent-call/agent-call-service.ts:1337-1429 | From a final agreeing task, a snapshot in another state leaves both copies in one state if and only if the call was settled before or the store cannot be read |
| AgentCallAgreement.AcceptanceAgrees | packages/core/src/agent-call/agent-call-service.ts:451-503 | Accepting a submission, durable or retained, leaves record and task in agreement |
| AgentCallAgreement.AttemptAgrees | packages/core/src/agent-call/agent-call-service.ts:1337-1429 | One attempt to apply a snapshot to an agreeing call keeps record and task in agreement if and only if the snapshot does not overtake the call: its task is final, unhandled and in another state, and the store can be read |
| AgentCallDisagreement.QuestionsBreakAgreement | packages/core/src/agent-call/agent-call-service.ts:696-722 | For every submission accepted as finished with questions, with a store that never fails, the run in which a cancellation then reports another state ends with record and task in different states |
| AgentCallDisagreement.UnreadableTurnBreaksAgreement | packages/core/src/agent-call/agent-call-service.ts:1312-1327 | The same without questions when one read of the store fails at the first turn |
| AgentCallFlow.ContinueTurnOk | packages/core/src/agent-call/agent-call-service.ts:1048-1079 | A continuation that waits for the previous watcher stays excluded from every cancellation that was sent |
| AgentCallInvariant.SubmitReplyCore | packages/core/src/agent-call/agent-call-service.ts:447-596 | The reply to a submission keeps leases, entries, dispatch records and fresh ids consistent in all three dispatch outcomes |
| AgentCallInvariant.InvokeFailCore | packages/core/src/agent-call/agent-call-service.ts:257-335 | A failed blocking call either turns its handle into an unknown task or gives it back; nothing leaks |
| AsyncTaskRuns.LeasesAreConserved | packages/core/src/async-tool-task/async-tool-task-service.ts:118-313 | In every run each count equals the unfinished tasks of its key plus the handles callers hold, and neither "no quota lease" nor a quota error is ever raised |
| AsyncTaskRuns.NotificationsAreExact | packages/core/src/async-tool-task/async-tool-task-service.ts:648-712 | Input-required notifications are the entries into that state; a terminal notification is sent once, exactly when accept or update made the task terminal; rejections and recovery send none |
| AsyncTaskRuns.TerminalIsFinal | packages/core/src/async-tool-task/async-tool-task-service.ts:402-478 | No later step of any run, restarts included, changes a terminal task |
| AsyncTaskRuns.AdmissionRespectsLimit | packages/core/src/async-tool-task/async-tool-task-service.ts:118-204 | Only an admitted reservation raises a count, by one and never above the limit; every other outcome leaves all counts |
| SessionTaskQuota.LeasesAreLinear | packages/core/src/tasks/session-task-quota-service.ts:51-149 | In every run the counters count unreleased slots, each unreleased slot has exactly one live handle, and the inconsistency error is unreachable |
| SessionTaskQuota.AcquireRespectsLimit | packages/core/src/tasks/session-task-quota-service.ts:51-89 | Acquire succeeds exactly below the limit and never ends above it |
| SessionTaskQuota.ReleaseLeases | packages/core/src/tasks/session-task-quota-service.ts:112-132 | Releasing removes exactly the given live handle; a stale handle changes nothing |
| SessionTaskQuota.TransferLeases | packages/core/src/tasks/session-task-quota-service.ts:112-132 | A transfer replaces one live handle by one new one and stales the old |
| InMemoryTaskStore.RunIndexed | packages/core/src/async-tool-task/in-memory-async-tool-task-store.ts:54-191 | In every reachable store the source and external indexes are exact |
| InMemoryTaskStore.IdentityIsStable | packages/core/src/async-tool-task/in-memory-async-tool-task-store.ts:273-289 | A task keeps its identity and first reference through every insert, replacement and recovery, and no two tasks share a source or an external task |
| SqliteTaskStore.StoresAgree | packages/core/src/async-tool-task/sqlite-async-tool-task-store.ts:123-247 | For every sequence of calls the SQLite store answers as the in-memory store does and holds exactly its rows |
| SqliteTaskStore.PartialUpdateIsFullReplace | packages/core/src/async-tool-task/sqlite-async-tool-task-store.ts:176-214 | The four-column UPDATE equals a full rewrite once the identity check passed |
| SqliteTaskStore.RowRoundTrip | packages/core/src/async-tool-task/sqlite-async-tool-task-store.ts:373-405 | Reading a row back gives the task that was written |
| ConversationStores.StoresAgree | packages/core/src/conversations/sqlite-conversation-session-store.ts:89-406 | For every sequence of calls both stores accept, reject and answer alike and hold the same sessions and timelines, although their indexes differ |
| ConversationStores.DurableIndexesAreOrdered | packages/core/src/conversations/sqlite-conversation-session-store.ts:552-565 | Indexes strictly increase in the SQLite store, and the slot behind a call is only ever taken by its own result |
| ConversationStores.RefusalsChangeNothing | packages/core/src/conversations/sqlite-conversation-session-store.ts:714-724 | A refused or repeated call leaves both stores as they were |
| ConversationStores.RepeatsAreRecognised | packages/core/src/conversations/in-memory-conversation-session-store.ts:78-258 | Sending an accepted message or delivery again is recognised by both stores and changes neither |
| InMemoryConversations.NeverAssociated | packages/core/src/conversations/in-memory-conversation-session-store.ts:83-168 | Waiting and observed message keys are disjoint and the message index agrees with the timelines, so appending never answers "associated" |
| InMemoryConversations.AssociationsAreSourced | packages/core/src/conversations/in-memory-conversation-session-store.ts:204-257 | Every recorded or waiting association names an existing tool call of its source session |
| InMemoryConversations.IndexesAreOrdered | packages/core/src/conversations/in-memory-conversation-session-store.ts:285-334 | Indexes strictly increase; a result stands directly behind its call at the next index, which no other entry can take |
| InMemoryConversations.OrderIndependent | packages/core/src/conversations/in-memory-conversation-session-store.ts:78-258 | For a fresh message key, delivery then observation and observation then delivery succeed on the same inputs and end in the same store |
| ConversationFacts.SameIsEqual | packages/core/src/conversations/conversation-session-facts.ts:133-178 | The field-by-field comparisons of messages, deliveries and waiting deliveries are equality |
| ConversationContext.OrderDoesNotMatter | packages/core/src/conversations/conversation-session-context-projector.ts:24-59 | A window projects to the same text, or is refused, whatever the order of its entries |
| ConversationContext.ContextsAgree | packages/core/src/conversations/conversation-session-context-projector.ts:24-59 | After any sequence of calls both stores project a session to the same context, exactly until the last durable index is no safe integer; from then on the durable window is refused, and the in-memory one once its own last index is unsafe, never earlier |
| ConversationIndexes.MemoryIndexesAreLower | packages/core/src/conversations/sqlite-conversation-session-store.ts:552-565 | After any sequence of calls each in-memory index is at most the durable index of the same entry |
| CqCodec.ParseUndoesEncode | packages/integrations/onebot11/src/codec.ts:99-158 | Parsing an encoding gives the segments back with adjacent texts merged and empty ones dropped, for arbitrary values |
| CqCodec.ReparseIsStable | packages/integrations/onebot11/src/codec.ts:119-158 | For every string, encoding and parsing a parse again changes no more than merging texts does |
| CqCodec.ParsedIsWellFormed | packages/integrations/onebot11/src/codec.ts:119-158 | Whatever is parsed has plain names and distinct clean keys, so it can be encoded faithfully |
| CqText.EscapeOnePass | packages/integrations/onebot11/src/codec.ts:213-228 | The chained replacements of the encoder are one character-by-character escape |
| CqText.UnescapeOnePass | packages/integrations/onebot11/src/codec.ts:230-245 | The chained replacements of the decoder are one left-to-right decode |
| CqText.UnescapeEscape | packages/integrations/onebot11/src/codec.ts:213-245 | Decoding undoes escaping for every string |
| CanonicalJson.CanonicalDecides | packages/core/src/async-tool-task/async-tool-task-service.ts:943-1007 | Two JSON values print to the same canonical text if and only if they are equal with objects read as maps |
| CanonicalJson.ListKeyInjective | packages/core/src/async-tool-task/async-tool-task-service.ts:800-811 | Two lists of texts have the same index key if and only if they are equal |
| SessionKey.SessionIdInjective | packages/core/src/channels/session-key.ts:6-17 | Two routes have the same session id if and only if they are the same route |
| JsonlEventLog.FilesAreNumbered | packages/core/src/events/jsonl-event-log.ts:38-126 | For any capacity of at least one, any interleaving and any failed appends or crashes, each file holds exactly 1..n in order, as the in-memory log numbers the appends in the order of writing, and nothing above 2^53-1 |
| JsonlEventLog.WrittenInQueueOrder | packages/core/src/events/jsonl-event-log.ts:38-58 | In every run, what is written are queued appends; those of one run are written in the order in which they were queued, each at most once |
| JsonlEventLog.NeverStuck | packages/core/src/events/jsonl-event-log.ts:38-58 | In every run, behind any failed appends and restarts, an append that has not settled has one at or before it in its run that can take its next step |
| JsonlEventLog.CacheAgreesWithFiles | packages/core/src/events/jsonl-event-log.ts:83-126 | Every cached number is the maximum of its file plus one, except while an append settles, and the cache stays within its capacity |
| SimpleLruMap.GetKeeps | packages/core/src/shared/simple-lru-map.ts:13-25 | Reading finds what is there and changes only the order |
| SimpleLruMap.SetKeeps | packages/core/src/shared/simple-lru-map.ts:27-42 | Writing stores the value, holds the bound and evicts at most the oldest other entry |
| EventLogs.AppendAllNumbers | packages/core/src/events/in-memory-event-log.ts:14-33 | The events of a run are numbered 1..n in order |
| CodexExecutorRuns.OneRunsPerWorkspace | apps/codex-a2a-adapter/src/codex-task-executor.ts:116-233 | In every run a workspace and a task each have at most one execution that has not ended; it is still held by both maps, so what was removed has ended |
| CodexExecutorRuns.OneFinalAndLast | apps/codex-a2a-adapter/src/codex-task-executor.ts:790-853 | An execution has ended exactly when it published a final status; it publishes one only, nothing after it, and an artifact exactly before a completed one |
| CodexExecutorRuns.RequestsSettleOnce | apps/codex-a2a-adapter/src/codex-task-executor.ts:649-690 | A request taken as pending input is answered or discarded at most once in all, is unsettled exactly while an execution holds it, and an ended execution holds none |
| CodexExecutorRuns.AnswersGoToThePending | apps/codex-a2a-adapter/src/codex-task-executor.ts:449-500 | In any state one step answers a request once if the answers are accepted and its execution still runs and still waits for it, and not at all otherwise |
| CodexExecutorRuns.AnsweredWasTaken | apps/codex-a2a-adapter/src/codex-task-executor.ts:449-500 | In every run a request that is answered was taken earlier by the same execution and neither answered nor discarded since; afterwards it is settled and no execution holds it |
| CodexExecutorRuns.ThreadsAreNotShared | apps/codex-a2a-adapter/src/codex-task-executor.ts:186-194 | Two executions that work on a thread and are not removed work on different threads |
| CodexExecutorRuns.FinishKeeps | apps/codex-a2a-adapter/src/codex-task-executor.ts:790-853 | Finishing keeps slots, published events and requests consistent, and always ends the execution |
| CodexExecutorRuns.ContinueCheckedKeeps | apps/codex-a2a-adapter/src/codex-task-executor.ts:449-500 | Checking the answers of a continuation keeps slots, published events and requests consistent |
| SessionChains.InOrderWithoutOverlap | apps/server/src/channel-runtime.ts:294-342 | Handlers of one session start in submission order, each after the one before has finished, and none twice |
| SessionChains.EarlyTailsAreClosed | apps/server/src/channel-runtime.ts:202-222 | Only a forward's tail settles before its handler ended, and only in a closed runtime |
| SessionChains.NeverStuck | packages/core/src/orchestration/agent-turn-scheduler.ts:35-54 | A job whose tail has not settled waits for one of its session that runs or can move now |
| SessionChains.ForgetKeeps | apps/server/src/channel-runtime.ts:334-340 | Deleting the map entry of a tail that is still the last one breaks no chain |
| SessionChains.BeginsInOrder | apps/server/src/channel-runtime.ts:432-461 | While the runtime is open, a job may begin only when every earlier job of its session is over |
| OneBotTransport.EveryCallSettlesOnce | packages/integrations/onebot11/src/forward-websocket-transport.ts:146-225 | A call is settled exactly when it no longer waits, and never twice |
| OneBotTransport.VerdictsFitTheDispatch | packages/integrations/onebot11/src/forward-websocket-transport.ts:550-560 | A call is reported as not sent exactly when nothing was handed to a socket; a timeout, a disconnection or the closing always leaves it uncertain |
| OneBotTransport.ClosedIsQuiet | packages/integrations/onebot11/src/forward-websocket-transport.ts:244-294 | Once closed no call waits, no timer is set and no socket is kept |
| OneBotTransport.AlwaysOneWayBack | packages/integrations/onebot11/src/forward-websocket-transport.ts:296-412 | A running transport has exactly one of an open socket, a connection attempt and a reconnect timer; after a first successful start it runs until closed |
| OneBotTransport.RejectsItsActions | packages/integrations/onebot11/src/forward-websocket-transport.ts:536-548 | The close of a socket ends all waiting actions when it is the current one, and none otherwise |
| OneBotTransport.SocketClosedWired | packages/integrations/onebot11/src/forward-websocket-transport.ts:342-372 | The close of a socket leaves exactly one way back to a connection |
| RunView.ViewIgnoresArrangement | packages/core/src/replay/create-run-view.ts:15-20 | The view is the same for every arrangement of events with distinct sequence numbers |
| RunView.LastTerminalDecides | packages/core/src/replay/create-run-view.ts:60-77 | Status, output, error and end are those of the terminal event with the greatest sequence number |
| RunView.UnendedRuns | packages/core/src/replay/create-run-view.ts:50-77 | Without a terminal event the run is running exactly when it was started |
| RunView.LastReplyShows | packages/core/src/replay/create-run-view.ts:95-111 | The reply is that of the latest reply event |
| RunView.CallIsShown | packages/core/src/replay/create-run-view.ts:78-166 | A created call is listed, dated by its first creation, in the state of the last event about it |
| RunView.ListedInOrderOfCreation | packages/core/src/replay/create-run-view.ts:132-166 | The listed calls are in the order of their first creation, each once |
| RunView.ListedWhenCreated | packages/core/src/replay/create-run-view.ts:139-166 | A call is listed if and only if some event creates it |
| ServerLifecycle.ClosedOnceInOrder | apps/server/src/huanlink-server-runtime.ts:186-217 | Each layer and the store owner are closed at most once; the store only after both layers settled, with no start work in flight, and none begins later |
| ServerLifecycle.RunningEndsWithClose | apps/server/src/huanlink-server-runtime.ts:219-253 | The running state is never entered after a close was requested |
| ServerLifecycle.EndedIsClean | apps/server/src/huanlink-server-runtime.ts:228-304 | A closed or failed server has closed its store owner, and all its start work has ended |
| ServerLifecycle.CloseNeverHangs | apps/server/src/huanlink-server-runtime.ts:255-298 | A requested close always waits for something that can still settle |
| AgentCallServiceObject.AgentCalls.Submit | packages/core/src/agent-call/agent-call-service.ts:387-443 | Reserves durably before anything is discovered or dispatched; a duplicate or refused reservation starts nothing |
| AgentCallServiceObject.AgentCalls.OnSubmitCapability | packages/core/src/agent-call/agent-call-service.ts:640-661 | Records the dispatch and enters the transport only while the service is open |
| AgentCallServiceObject.AgentCalls.OnSubmitReply | packages/core/src/agent-call/agent-call-service.ts:648-776 | The three dispatch outcomes of a submission |
| AgentCallServiceObject.AgentCalls.AdmitSubmission | packages/core/src/agent-call/agent-call-service.ts:690-746 | Record and index exist before the task is accepted, and the first turn of the watcher comes after it |
| AgentCallServiceObject.AgentCalls.AcceptTaskOrRetain | packages/core/src/agent-call/agent-call-service.ts:452-491 | The accepted state is durable, or kept in the overlay when the store fails |
| AgentCallServiceObject.AgentCalls.OnSubmitFailure | packages/core/src/agent-call/agent-call-service.ts:505-596 | A submission that was surely not dispatched is rejected, an uncertain one becomes unknown |
| AgentCallServiceObject.AgentCalls.Invoke | packages/core/src/agent-call/agent-call-service.ts:183-252 | A blocking call takes a handle only when no task and no other blocking call has its source |
| AgentCallServiceObject.AgentCalls.OnInvokeReply | packages/core/src/agent-call/agent-call-service.ts:648-776 | The three dispatch outcomes of a blocking call |
| AgentCallServiceObject.AgentCalls.OnInvokeFailure | packages/core/src/agent-call/agent-call-service.ts:257-335 | An uncertain dispatch hands its handle to an unknown task; every other failure releases it |
| AgentCallServiceObject.AgentCalls.OnInvokeDone | packages/core/src/agent-call/agent-call-service.ts:337-385 | The end of the wait releases the handle that the call kept |
| AgentCallServiceObject.AgentCalls.ApplySnapshotOnce | packages/core/src/agent-call/agent-call-service.ts:1330-1429 | Record first, task second; the record is rolled back exactly when the store failed |
| AgentCallServiceObject.AgentCalls.TryWatchSnapshot | packages/core/src/agent-call/agent-call-service.ts:1206-1223 | One attempt of the retry loop of a watcher |
| AgentCallServiceObject.AgentCalls.OnWatchEvent | packages/core/src/agent-call/agent-call-service.ts:1212-1236 | Stream snapshots, the end of the stream and its errors |
| AgentCallServiceObject.AgentCalls.OnWatchError | packages/core/src/agent-call/agent-call-service.ts:1237-1276 | A broken stream fails the call unless it reached an outcome, was handled, or the watcher was stopped |
| AgentCallServiceObject.AgentCalls.CancelRemote | packages/core/src/agent-call/agent-call-service.ts:854-892 | A second cancellation of the same remote task joins the first |
| AgentCallServiceObject.AgentCalls.OnCancelTurn | packages/core/src/agent-call/agent-call-service.ts:894-904 | Aborts and waits for the active continuation before the transport is entered |
| AgentCallServiceObject.AgentCalls.TryCancelSnapshot | packages/core/src/agent-call/agent-call-service.ts:894-922 | One attempt to record what the cancellation returned |
| AgentCallServiceObject.AgentCalls.ContinueTask | packages/core/src/agent-call/agent-call-service.ts:924-1046 | Starts a continuation only for a paused task without an active cancellation or continuation |
| AgentCallServiceObject.AgentCalls.OnContinueTurn | packages/core/src/agent-call/agent-call-service.ts:1048-1079 | Stops the previous watcher and waits for it before the answer is sent |
| AgentCallServiceObject.AgentCalls.TryContinueSnapshot | packages/core/src/agent-call/agent-call-service.ts:1088-1098 | One attempt to record what the continuation returned |
| AgentCallServiceObject.AgentCalls.FinishContinuation | packages/core/src/agent-call/agent-call-service.ts:1098-1126 | Starts the next watcher, or restores the paused record when the service closed meanwhile |
| AsyncTaskServiceObject.AsyncToolTaskService.ReserveTask | packages/core/src/async-tool-task/async-tool-task-service.ts:118-204 | Reservation with every error path; the task and its lease exist together or not at all |
| AsyncTaskServiceObject.AsyncToolTaskService.AdoptAcceptedTask | packages/core/src/async-tool-task/async-tool-task-service.ts:206-313 | Adoption of a dispatched call together with its handle, falling back to the overlay |
| AsyncTaskServiceObject.AsyncToolTaskService.RetainPersistenceUncertain | packages/core/src/async-tool-task/async-tool-task-service.ts:480-573 | Which retained task is accepted and what it may not contradict |
| AsyncTaskServiceObject.AsyncToolTaskService.RetainUncertainTask | packages/core/src/async-tool-task/async-tool-task-service.ts:575-594 | The overlay entry and the lease it owns |
| AsyncTaskServiceObject.AsyncToolTaskService.AcceptTask | packages/core/src/async-tool-task/async-tool-task-service.ts:402-420 | Acceptance of a submitted task |
| AsyncTaskServiceObject.AsyncToolTaskService.RejectTaskBeforeAcceptance | packages/core/src/async-tool-task/async-tool-task-service.ts:421-445 | Rejection before acceptance releases the lease and notifies nobody |
| AsyncTaskServiceObject.AsyncToolTaskService.UpdateAcceptedTask | packages/core/src/async-tool-task/async-tool-task-service.ts:446-478 | Updates of accepted tasks, repeated terminal updates included |
| AsyncTaskServiceObject.AsyncToolTaskService.ReplaceAcceptedTask | packages/core/src/async-tool-task/async-tool-task-service.ts:596-646 | Store write, overlay removal, lease release and notification in the order of the source |
| AsyncTaskServiceObject.AsyncToolTaskService.RecoverPersistedTasks | packages/core/src/async-tool-task/async-tool-task-service.ts:755-797 | After a restart every unfinished task is unknown and owns exactly one restored slot |
| AsyncTaskServiceObject.AsyncToolTaskService.SendTerminal | packages/core/src/async-tool-task/async-tool-task-service.ts:680-712 | One terminal notification per task |
| AsyncTaskServiceObject.AsyncToolTaskService.SendInputRequired | packages/core/src/async-tool-task/async-tool-task-service.ts:648-667 | One notification per entry into the input-required state |
| SessionTaskQuota.SessionTaskQuotaService.AcquireLease | packages/core/src/tasks/session-task-quota-service.ts:51-89 | The admission branches of the service |
| SessionTaskQuota.SessionTaskQuotaService.RestoreLease | packages/core/src/tasks/session-task-quota-service.ts:91-110 | Restoring may exceed the limit and always takes a slot |
| SessionTaskQuota.SessionTaskQuotaService.ReleaseLease | packages/core/src/tasks/session-task-quota-service.ts:112-132 | Idempotent release through the handle |
| SessionTaskQuota.SessionTaskQuotaService.TransferLease | packages/core/src/tasks/session-task-quota-service.ts:112-132 | Ownership moves to a new version of the slot |
| SessionTaskQuota.SessionTaskQuotaService.AdjustCount | packages/core/src/tasks/session-task-quota-service.ts:134-149 | One less, entry removed at zero, or the inconsistency error |
| InMemoryTaskStore.InMemoryAsyncToolTaskStore.InsertTask | packages/core/src/async-tool-task/in-memory-async-tool-task-store.ts:54-88 | Insert, duplicate and conflict outcomes |
| InMemoryTaskStore.InMemoryAsyncToolTaskStore.ReplaceTask | packages/core/src/async-tool-task/in-memory-async-tool-task-store.ts:90-110 | Compare and replace |
| InMemoryTaskStore.InMemoryAsyncToolTaskStore.RecoverTasks | packages/core/src/async-tool-task/in-memory-async-tool-task-store.ts:112-136 | Recovery of unfinished tasks |
| SqliteTaskStore.SqliteAsyncToolTaskStore.InsertTask | packages/core/src/async-tool-task/sqlite-async-tool-task-store.ts:123-174 | The transaction of an insert, refining the in-memory insert |
| SqliteTaskStore.SqliteAsyncToolTaskStore.ReplaceTask | packages/core/src/async-tool-task/sqlite-async-tool-task-store.ts:176-214 | The transaction of a replacement |
| SqliteTaskStore.SqliteAsyncToolTaskStore.RecoverTasks | packages/core/src/async-tool-task/sqlite-async-tool-task-store.ts:216-247 | The transaction of the recovery |
| InMemoryConversations.InMemoryConversationSessionStore.AppendChannelMessage | packages/core/src/conversations/in-memory-conversation-session-store.ts:78-172 | Append of a message with all refusals |
| InMemoryConversations.InMemoryConversationSessionStore.RecordOutboundDelivery | packages/core/src/conversations/in-memory-conversation-session-store.ts:174-259 | Recording a delivery, waiting or associated |
| InMemoryConversations.InMemoryConversationSessionStore.AppendAgentToolCall | packages/core/src/conversations/in-memory-conversation-session-store.ts:261-283 | Append of a tool call |
| InMemoryConversations.InMemoryConversationSessionStore.AppendAgentToolResult | packages/core/src/conversations/in-memory-conversation-session-store.ts:285-334 | The two splices behind the call |
| SqliteConversations.SqliteConversationSessionStore.AppendChannelMessage | packages/core/src/conversations/sqlite-conversation-session-store.ts:89-225 | The same append over table rows |
| SqliteConversations.SqliteConversationSessionStore.RecordOutboundDelivery | packages/core/src/conversations/sqlite-conversation-session-store.ts:227-320 | The same delivery over table rows |
| SqliteConversations.SqliteConversationSessionStore.AppendAgentToolCall | packages/core/src/conversations/sqlite-conversation-session-store.ts:322-351 | The same tool call over table rows |
| SqliteConversations.SqliteConversationSessionStore.AppendAgentToolResult | packages/core/src/conversations/sqlite-conversation-session-store.ts:353-406 | The result row at the index of its call plus one |
| ConversationContext.CheckUnique | packages/core/src/conversations/conversation-session-context-projector.ts:40-44 | The loop over neighbours finds every repeated index |
| CqCodec.ParseSegments | packages/integrations/onebot11/src/codec.ts:119-158 | The cursor loop computes the recursive reading of the text |
| CqCodec.ParseParameterList | packages/integrations/onebot11/src/codec.ts:134-146 | The loop over one code's parameters, later keys overwriting earlier ones |
| JsonlEventLog.MaxExistingSeq | packages/core/src/events/jsonl-event-log.ts:128-152 | The loop finds the largest number of the run in the file |
| JsonlEventLog.JsonlLog.AppendEvent | packages/core/src/events/jsonl-event-log.ts:38-58 | Queues behind the last append of the run |
| JsonlEventLog.JsonlLog.FinishScan | packages/core/src/events/jsonl-event-log.ts:107-126 | The number comes from the cache or from the scan, and a failed scan ends the append |
| JsonlEventLog.JsonlLog.FinishWrite | packages/core/src/events/jsonl-event-log.ts:83-105 | A failed write leaves the file as it was |
| JsonlEventLog.JsonlLog.FinishAppend | packages/core/src/events/jsonl-event-log.ts:83-105 | The cache moves on after the write |
| SimpleLruMap.LruMap.Read | packages/core/src/shared/simple-lru-map.ts:13-25 | Delete and reinsert |
| SimpleLruMap.LruMap.Write | packages/core/src/shared/simple-lru-map.ts:27-42 | Delete, reinsert, evict |
| EventLogs.InMemoryEventLog.AppendEvent | packages/core/src/events/in-memory-event-log.ts:14-23 | Appends with the next number of the run |
| CodexExecutorObject.CodexTaskExecutor.ExecuteTask | apps/codex-a2a-adapter/src/codex-task-executor.ts:116-158 | Taking on a task, refusing a busy workspace, failing at once when closing |
| CodexExecutorObject.CodexTaskExecutor.ThreadCreated | apps/codex-a2a-adapter/src/codex-task-executor.ts:171-194 | What happens after the thread is known |
| CodexExecutorObject.CodexTaskExecutor.TurnStartSettled | apps/codex-a2a-adapter/src/codex-task-executor.ts:204-232 | A turn that started, or a start whose outcome nobody knows |
| CodexExecutorObject.CodexTaskExecutor.FinishExecution | apps/codex-a2a-adapter/src/codex-task-executor.ts:790-853 | Discard the request, publish the end, once |
| CodexExecutorObject.CodexTaskExecutor.FinishEach | apps/codex-a2a-adapter/src/codex-task-executor.ts:312-328 | The loop over all executions when the runtime stops |
| CodexExecutorObject.CodexTaskExecutor.CleanupExecution | apps/codex-a2a-adapter/src/codex-task-executor.ts:855-877 | Removes only the entries that are still this execution's |
| CodexExecutorObject.CodexTaskExecutor.AdmitMessage | apps/codex-a2a-adapter/src/codex-task-executor.ts:235-256 | One admission per free workspace |
| CodexExecutorObject.CodexTaskExecutor.AdmitAnswer | apps/codex-a2a-adapter/src/codex-task-executor.ts:268-279 | One answer at a time, for a paused task only |
| CodexExecutorObject.CodexTaskExecutor.CancelTask | apps/codex-a2a-adapter/src/codex-task-executor.ts:330-371 | Cancels at once unless a turn is being started |
| CodexExecutorObject.CodexTaskExecutor.CloseExecutions | apps/codex-a2a-adapter/src/codex-task-executor.ts:378-405 | The loop over active executions while closing |
| CodexExecutorObject.CodexTaskExecutor.ContinueExecution | apps/codex-a2a-adapter/src/codex-task-executor.ts:436-449 | Refuses what is not waiting for this context |
| CodexExecutorObject.CodexTaskExecutor.AnswersChecked | apps/codex-a2a-adapter/src/codex-task-executor.ts:449-500 | Publishes an invalid answer, or takes the request |
| CodexExecutorObject.CodexTaskExecutor.HandleServerRequest | apps/codex-a2a-adapter/src/codex-task-executor.ts:649-690 | A second request before the answer fails the execution |
| CodexExecutorObject.CodexTaskExecutor.HandleNotification | apps/codex-a2a-adapter/src/codex-task-executor.ts:566-647 | Turn started, item started, turn ended in each status |
| CodexExecutorObject.CodexTaskExecutor.SetTurnId | apps/codex-a2a-adapter/src/codex-task-executor.ts:755-764 | A second turn id is a conflict |
| ChannelRuntime.AccessPolicies.ReplaceAccessPolicies | apps/server/src/channel-runtime.ts:351-391 | All policies are replaced, exactly when every channel is known and every policy valid, or none |
| ChannelRuntime.CheckList | apps/server/src/channel-access-policy.ts:66-88 | The loop accepts exactly lists of distinct non-blank ids |
| ChannelRuntime.SessionTails.Schedule | apps/server/src/channel-runtime.ts:294-320 | Chains an operation behind the last tail; none once closed |
| ChannelRuntime.SessionTails.StartHandler | packages/core/src/orchestration/agent-turn-scheduler.ts:35-46 | Starts the handler unless closed or aborted |
| ChannelRuntime.SessionTails.ForgetTail | packages/core/src/orchestration/agent-turn-scheduler.ts:47-53 | The conditional deletion |
| ChannelRuntime.SessionTails.CloseAll | apps/server/src/channel-runtime.ts:202-207 | Closes, and aborts what is active |
| OneBotTransportObject.ForwardWebSocketTransport.Send | packages/integrations/onebot11/src/forward-websocket-transport.ts:146-225 | Sending with all three things the socket may do |
| OneBotTransportObject.ForwardWebSocketTransport.RejectAllPending | packages/integrations/onebot11/src/forward-websocket-transport.ts:526-534 | The loop that ends all waiting actions |
| OneBotTransportObject.ForwardWebSocketTransport.RejectPendingForSocket | packages/integrations/onebot11/src/forward-websocket-transport.ts:536-548 | The loop that ends the actions of one socket |
| OneBotTransportObject.ForwardWebSocketTransport.OnClose | packages/integrations/onebot11/src/forward-websocket-transport.ts:342-372 | The close handler |
| OneBotTransportObject.ForwardWebSocketTransport.OnOpen | packages/integrations/onebot11/src/forward-websocket-transport.ts:317-331 | The open handler |
| OneBotTransportObject.ForwardWebSocketTransport.OnConnectFailure | packages/integrations/onebot11/src/forward-websocket-transport.ts:106-127 | The failure handlers of a start and of a reconnection |
| OneBotTransportObject.ForwardWebSocketTransport.ScheduleReconnect | packages/integrations/onebot11/src/forward-websocket-transport.ts:377-394 | The backoff delay and its counter |
| OneBotTransportObject.ForwardWebSocketTransport.StartTransport | packages/integrations/onebot11/src/forward-websocket-transport.ts:93-134 | A start while another runs, or after closing, begins nothing |
| OneBotTransportObject.ForwardWebSocketTransport.CloseOnce | packages/integrations/onebot11/src/forward-websocket-transport.ts:228-265 | Closing, once |
| RunView.CreateRunView | packages/core/src/replay/create-run-view.ts:15-137 | The loop over the sorted events computes the view |
| ServerLifecycleObject.HuanLinkServerRuntime.Start | apps/server/src/huanlink-server-runtime.ts:244-253 | Only a ready server starts |
| ServerLifecycleObject.HuanLinkServerRuntime.OnChannelsStarted | apps/server/src/huanlink-server-runtime.ts:219-243 | Running only if nothing was requested meanwhile |
| ServerLifecycleObject.HuanLinkServerRuntime.Close | apps/server/src/huanlink-server-runtime.ts:255-304 | Close in every state |
| ServerLifecycleObject.HuanLinkServerRuntime.CleanupDependencies | apps/server/src/huanlink-server-runtime.ts:195-211 | The memoised cleanup |

## Left out

- Listeners that throw or call back into the services, fault-injection hooks, logging, redaction and record timestamps.
- Ids of tasks and calls are fresh values chosen by the caller; clocks and timers are parameters or steps.
- The payload of a task travels through the services as its canonical text; that the text decides equality is CanonicalDecides.
- The check that a public payload names no internal identifier, and the validation of answers, are a boolean that may come out either way.
- JSON numbers are integers without `-0`, strings have no lone surrogates, object keys are not `__proto__` and not integer-like.
- Task lists are maps: the order in which a store lists tasks is not modelled, and recovery takes any order.
- SQL transactions are atomic; table constraints that the code checks itself are not modelled twice. A database that another process changes is not part of this model.
- SessionIdInjective: the validation of a route is not part of this model, so the claim covers every route, valid or not.
- ContextsAgree: entry indexes are exact; that JavaScript rounds numbers beyond the largest safe integer is not modelled.
- ParseUndoesEncode: asks for the names and distinct keys the format allows; ParsedIsWellFormed shows that every parse has them.
- CacheAgreesWithFiles: while an append has written its line and not yet returned, the cached number of its run is one behind.
- AgentCalls: the retry loops appear as one attempt each, and promises that callers wait on (outcome waiters, idle and close drains) are not part of the object.
- CodexTaskExecutor: executions are values in a map, not shared objects; thread creation per context, collected items, diffs and message texts are left out, and interrupting a turn is an outside event.
- ForwardWebSocketTransport: frames are already decoded, and event listeners and sanitised error texts are left out.
- SessionTails: one object stands for the forward chains, the outbound chains or the turn scheduler of one runtime; adapter start and close are left out.
- CreateRunView: the duration, which is computed from the two timestamps, is left out; events that share a sequence number keep their given order.
- HuanLinkServerRuntime: the errors collected while closing are left out.
- Message normalisation of OneBot 11, operation constructors, HTTP and SSE servers, child processes, configuration, prompts, agent cards, the access-policy reloader, session ingress and dispatch policy: plumbing or easy members.
