# Renoa, modelled and proved in Dafny

Renoa is a durable agent system. This project models the protocols it depends on
and proves what they keep over every run, including crashes, retries, reconnects
and concurrent processes. `dafny verify dfyconfig.toml` checks all of it.

The parts:

- **The model/tool loop** (`PendingTools`, `CodeMode`, `LoopTypes`, `ContextInput`,
  `AgentLoop`). Every transition of the checkpointed loop, with Code Mode waves,
  compaction, closing tools, cancellation and abandoned effects, as functions from
  checkpoint, journal and settled effects to a decision. `LoopSession` runs them
  under the durable kernel; an input that the loop refuses commits nothing.
  `Transcript`, `LoopHistory`, `LoopBounds`, `LoopJournal` and `LoopProgress` prove
  the pairing of calls and results, explicit bounds, termination, readable journals,
  growing requests and the absence of stuck sessions. `ContextShows` says what a context
  shows of the journal, `LoopRecords` what the journal holds of prompts and answers, and
  `LoopOutcomes` what is asked of the adapters and how operations end.
- **The continuity client** (`SurfaceState`, `SurfaceClient`, `SurfaceClientCore`). A
  step is what runs between two awaits; the store answers a cursor read in one step and
  the answer is used in a later one. The server may send any frame; connections drop
  and the process crashes between any two steps. `SurfaceRuns`, `SurfaceOrder`,
  `SurfaceRepeats` and `SurfaceOutbox` prove what all runs keep, and `SurfaceMisses`
  shows runs that go wrong.
- **Concurrent OAuth refresh** (`Credentials`, `OauthRefreshLock`, `OauthRefresh`). Any
  number of calls interleave over one store and one lock file, with outside writers
  and crashes.
- **The coordinator** (`ControlStore`, `ExecutionEvents`, `AgentMessages`,
  `AgentReplies`, `CommandStop`, `ControlDatabase`). One transaction is one atomic
  step. `ControlRuns`, `AgentChains`, `AgentThreads`, `StopRuns` and `StopDelivery`
  prove what all runs keep, and `StopMisses` shows runs that miss a stop. Identities
  derived by hashing are an injective function.
- **Run-level failure logic** (`Sampling`, `SamplingResults`, `RetryLoop`,
  `RetryDecisions`).
- **Algorithmic cores** (`JsonScan`, `DriveDownload`, `TurnContext`,
  `BrowserSessions`).

Code that updates state in place is modelled by classes and loops that are proved
equal to functions on values; the run-level theorems are about those functions.

## Where the code does less than one may expect

Six expected properties are false as stated. Each has a run that breaks it and the
exact condition under which it holds.

- *An event is re-applied only before its cursor was stored.* It can be re-applied
  later: the connection drops while `apply` runs for an attach that has not resolved,
  that attach fails and forgets its attachment, and the surface attaches again before
  `apply` returns. The new attachment has the cursor from before the running event
  (`SurfaceMisses.LateRepeatIsReached`). If the store's answers are used before anything
  more is stored, a run leaves no such repeat possible if and only if no task is
  attached anew while its own `apply` runs
  (`SurfaceRepeats.SynchronousStoresRepeatExactly`). For any store the answers that
  count must also be current when they are used
  (`SurfaceRepeats.RepeatsOnlyBeforeStored`).
- *Events are applied in order.* The state interface allows a store that takes its time.
  A cursor that is read, and used only after two more events were stored, sets the
  attachment back (`SurfaceMisses.DisorderIsReached`). No disorder is possible if and
  only if every answer is used while it is near what is stored
  (`SurfaceOrder.AppliesInOrder`), as it is when answers are used at once
  (`SurfaceOrder.SynchronousStoresApplyInOrder`).
- *Following `from_command` reaches a command no agent caused in `depth` steps.*
  Task deletion removes commands that requests in other tasks still name
  (`AgentChains.DeletionBreaksChain`), and frees their identities for clients to
  choose again (`AgentChains.ReuseBreaksChain`). Chains are sound throughout a run if
  and only if every deleted task is detached: no command outside it names one inside
  (`AgentChains.ChainsAreSound`). So they are in every run without deletions. Under the
  same condition every ended request has its one answer
  (`AgentThreads.EndedRequestsHaveOneAnswer`); for one request it is enough that it and
  its asker last (`AgentThreads.EndedRequestIsAnswered`).
- *No undelivered stop is missed by its node's current connection.* The task's node is
  loaded before the lifecycle lock is taken, so a task deleted and opened again on
  another node in between sends its stop to the old node
  (`StopMisses.ReboundStopIsMissed`), even if the new node got a stop of an earlier
  command under that identity (`StopMisses.ReusedStopIsMissed`). None is missed in a run
  if and only if no new stop is recorded while the task's present node is connected on
  an open connection that is not the looked-up route and that no earlier request is
  about to send it to (`StopDelivery.NoStopIsMissed`). A task that keeps its node is
  never in that state (`StopDelivery.BoundIsRouted`).
- *A ranged download ends complete.* A partial response with an unknown total is never
  complete, so the walk asks once more past the end and may be refused
  (`DriveDownload.ReticentEndsIncomplete`). It ends incomplete exactly when such a
  request, or the first one for an empty file, is refused
  (`DriveDownload.IncompleteExactly`). The joined bytes are the file in every case
  (`DriveDownload.WalkReadsTheFile`).
- *An expired session is never live again.* The clock is read before the transaction, so
  a lookup that read it just before the expiry can commit after it and renew the
  session (`BrowserSessions.ExpiredCanRevive`). It stays over if and only if no such
  lookup renews it past the present (`BrowserSessions.EndedStaysEnded`). A session whose
  row was removed never returns (`BrowserSessions.RemovedStaysRemoved`).

## Model

| member | source | states |
|---|---|---|
| `PendingTools.ValidateToolCallIds` | crates/renoa-agent/src/tool.rs:53-75 | the loop over a growing set finds an error exactly when some identity is empty or repeated |
| `PendingTools.PendingToolCalls.New` | crates/renoa-agent-loop/src/pending_tools.rs:15-32 | a queue that is built lists exactly the given calls and passes its own validation |
| `PendingTools.PendingToolCalls.Advance` | crates/renoa-agent-loop/src/pending_tools.rs:46-51 | dropping the current call leaves the other calls in order, and nothing exactly when it was the last |
| `CodeMode.CodeRun.AddWave` | crates/renoa-agent-loop/src/code_mode.rs:115-138 | a wave is accepted exactly within the per-wave, per-run and wave limits, and counts one wave and its calls |
| `CodeMode.DecimalParses` | crates/renoa-agent-loop/src/code_mode.rs:228-261 | the decimal key of a call identity parses back to it |
| `CodeMode.OrderIsBijection` | crates/renoa-agent-loop/src/code_mode.rs:228-274 | in a valid batch the order list names every key of the map exactly once |
| `CodeMode.BuildBatch` | crates/renoa-agent-loop/src/code_mode.rs:211-226 | a batch built from calls is valid and lists the original calls again in order |
| `CodeMode.ValidateBatch` | crates/renoa-agent-loop/src/code_mode.rs:228-261 | the validating loop accepts exactly the valid batches |
| `CodeMode.OrderedOfBuilt` | crates/renoa-agent-loop/src/code_mode.rs:211-274 | `ordered` of a built batch returns the original calls |
| `CodeMode.WavesAreBounded` | crates/renoa-agent-loop/src/code_mode.rs:115-138 | over any accepted waves there are at most 32 waves and 128 calls, and the counters say how many |
| `CodeMode.IdentitiesAreDistinct` | crates/renoa-agent-loop/src/code_mode.rs:140-142 | over any accepted waves all `run:wave:call` identities are pairwise distinct |
| `ContextInput.BuildContext` | crates/renoa-agent-loop/src/format.rs:134-224 | the loop over the journal computes the context input that the recursive reading of the journal defines, with the same refusals |
| `ContextShows.ContextShowsJournal` | crates/renoa-agent-loop/src/format.rs:134-224 | a context that builds shows every message of the journal once and in order: a finished operation that asked for a receipt as one user message with the rendered text at its last message, everything else one for one |
| `ContextShows.ContextShowsEveryMessage` | crates/renoa-agent-loop/src/context.rs:80-110 | without receipts the context has the latest summary and every message as it was written, except that the user message of an annotated operation has its own blocks followed by one block with that operation's text |
| `ContextShows.AnnotateKeeps` | crates/renoa-agent-loop/src/turn_context.rs:175-190 | an annotation joins the user message of its own operation behind its blocks, and changes no other message |
| `LoopProgress.WaveMatchesExactly` | crates/renoa-agent-loop/src/decision/code_mode.rs:269-302 | settled effects are accepted for a wave exactly when there are as many as calls and each call's own effect is among them, in any order |
| `LoopProgress.WaveIsReadByCall` | crates/renoa-agent-loop/src/decision/code_mode.rs:199-267 | a wave that is read to its end hands every call the value of its own answer and collects closings in call order |
| `LoopSession.InitialIsSound` | crates/renoa-agent-loop/src/decision.rs:72-103 | starting an operation leaves a resumable checkpoint and owes no result |
| `LoopSession.ClassifyIsSound` | crates/renoa-agent-loop/src/decision.rs:191-261 | every classified response settles or queues exactly its calls, also when it was cut off |
| `LoopSession.RequestToolIsSound` | crates/renoa-agent-loop/src/decision.rs:352-388 | requesting the current call keeps the queue, or answers that call |
| `LoopSession.SettleToolIsSound` | crates/renoa-agent-loop/src/decision.rs:390-466 | a settled tool call answers exactly the current call; a failure answers the whole queue |
| `LoopSession.CloseTurnIsSound` | crates/renoa-agent-loop/src/decision/closing.rs:24-60 | a closing result answers every pending call before the closing message |
| `LoopSession.SettleCodeStepIsSound` | crates/renoa-agent-loop/src/decision/code_mode.rs:112-197 | a Code Mode step answers its call, fails the queue, or leaves a resumable wave |
| `LoopSession.SettleCodeCallsIsSound` | crates/renoa-agent-loop/src/decision/code_mode.rs:199-267 | a settled wave resumes the same run with one result per call, or answers its call |
| `LoopSession.CancelSettles` | crates/renoa-agent-loop/src/decision/interruption.rs:91-267 | cancelling at any checkpoint answers every call still owed |
| `LoopSession.AbandonSettles` | crates/renoa-agent-loop/src/decision/interruption.rs:63-187 | abandoning an effect with unknown outcome answers every call still owed |
| `LoopSession.DecideIsSound` | crates/renoa-agent-loop/src/decision/interruption.rs:16-61 | every decision of the dispatcher keeps calls, results and checkpoint in step |
| `LoopSession.StepKeepsInv` | crates/renoa-kernel/src/decision_store.rs:18-120 | every committed transition, cancellation and abandonment keeps the session invariant |
| `LoopSession.RunKeepsInv` | crates/renoa-kernel/src/drive.rs:70-195 | the session invariant holds after every run, each operation under a configuration of its own |
| `Transcript.EveryCallIsAnswered` | crates/renoa-agent-loop/src/decision.rs:191-465 | in a transcript that owes `rest`, each assistant message is followed by one result per call, in call order and with its identity, up to `rest` |
| `Transcript.EveryResultWasCalled` | crates/renoa-agent-loop/src/decision.rs:390-465 | each result answers the call at its own position of the assistant message before it |
| `LoopHistory.CallsAndResultsPair` | crates/renoa-agent-loop/src/decision.rs:191-465 | in every run each call has exactly one result in call order, up to the pending queue; at a model request and after every ended operation none is missing |
| `LoopHistory.ResultsWereCalled` | crates/renoa-agent-loop/src/decision.rs:390-465 | no run journals a result that was not called for |
| `LoopHistory.RequestIsRecomputed` | crates/renoa-agent-loop/src/decision.rs:154-161 | in every run the request recomputed when a model effect settles equals the persisted one |
| `LoopHistory.RequestsOnlyGrow` | crates/renoa-agent-loop/src/context.rs:343-366 | under full history without receipted prompts, the messages of each request of a session are a prefix of those of every later request |
| `LoopHistory.RequestsTellTheJournal` | crates/renoa-agent-loop/src/context.rs:343-366 | in every run, under full history without receipted prompts, the outstanding request shows every journalled message one for one: user messages with their own blocks first, tool results without their details, all others unchanged |
| `LoopHistory.RequestsAreUnmixed` | crates/renoa-agent-loop/src/decision.rs:123-152 | in every run each request carries the system prompt and the tools of the operation that made it |
| `LoopBounds.DecideMoves` | crates/renoa-agent-loop/src/decision/interruption.rs:16-61 | the loop moves only along the listed edges of its phase graph |
| `LoopBounds.OperationsAreBounded` | crates/renoa-agent-loop/src/decision.rs:105-152 | with its own turn limit L and call limit K every operation makes at most L model, L*K tool and 128*L*K plugin calls, and takes at most L*(66K+2)+2 steps without compaction |
| `LoopJournal.PlanAdvances` | crates/renoa-agent-loop/src/decision.rs:301-321 | a plan that is validated ends at a journalled message past the active summary |
| `LoopJournal.CheckpointKeepsReadable` | crates/renoa-agent-loop/src/format.rs:226-260 | activating a summary leaves the journal readable and strictly fewer messages uncovered |
| `LoopJournal.ReplaceKeepsPrompts` | crates/renoa-agent-loop/src/format/receipts.rs:48-124 | replacing receipted operations moves no annotated prompt of another operation |
| `LoopJournal.RunKeepsReadable` | crates/renoa-agent-loop/src/format.rs:134-224 | every journal a run writes scans without error |
| `LoopJournal.ContextAlwaysBuilds` | crates/renoa-agent-loop/src/format.rs:134-333 | on every journal a run writes, context preparation succeeds under any configuration that renders receipts |
| `LoopJournal.EveryOperationEnds` | crates/renoa-agent-loop/src/decision.rs:105-261 | no operation runs forever, with compaction included and whatever models, tools and strategy answer |
| `LoopJournal.EveryReachedOperationEnds` | crates/renoa-agent-loop/src/decision.rs:105-261 | every operation of a session that a run reaches ends, whatever follows |
| `LoopProgress.WaveMatches` | crates/renoa-agent-loop/src/decision/code_mode.rs:269-302 | the effects persisted for a wave always match it again when they settle |
| `LoopProgress.AlwaysCancellable` | crates/renoa-agent-loop/src/decision/interruption.rs:91-128 | every running operation can be cancelled at every point of every run |
| `LoopProgress.AlwaysDrivable` | crates/renoa-agent-loop/src/decision/interruption.rs:16-61 | with a strategy that serves what the session asks for, a session with nothing outstanding always decides, unless every 32-bit turn number is used |
| `LoopProgress.FullHistoryServes` | crates/renoa-agent-loop/src/context.rs:354-366 | in a session without receipted prompts the built-in full-history strategy serves exactly the operations that are not compactions, and driving a compaction is refused |
| `LoopProgress.AnswersAreAccepted` | crates/renoa-agent-loop/src/decision/effect_input.rs:1-53 | every answer of the expected shape is accepted in every reachable session |
| `LoopRecords.StepWrites` | crates/renoa-agent-loop/src/decision.rs:390-466 | what every committed step appends, by checkpoint and input: prompts, responses and answers as they came, accepted summaries, and one notice for each call that did not run |
| `LoopRecords.EveryStepIsRecorded` | crates/renoa-agent-loop/src/decision.rs:72-466 | what any step of a run wrote stands in its final journal, unchanged and in its place |
| `LoopRecords.EveryEventWasWritten` | crates/renoa-agent-loop/src/decision.rs:72-466 | every event of a final journal was written there by some step of the run |
| `LoopRecords.ToolAnswersAreKept` | crates/renoa-agent-loop/src/decision.rs:390-444 | in every run the answer a tool gave, before or after a cancellation, is journalled field for field apart from what closes the turn |
| `LoopRecords.ModelAnswersAreKept` | crates/renoa-agent-loop/src/decision.rs:191-261 | in every run a model answer whose calls are accepted is journalled with its content, stop reason and metadata |
| `LoopRecords.PromptsAreKept` | crates/renoa-agent-loop/src/decision.rs:72-103 | in every run a driven prompt is journalled with its own blocks, then its annotation or the mark of its receipt |
| `LoopRecords.MessagesAreSourced` | crates/renoa-agent-loop/src/decision.rs:72-466 | in every run each journalled message is its operation's prompt, what a model or tool answered in the step that wrote it, the words an answer closed its turn with, or an error notice of one block |
| `LoopRecords.UserMessagesArePrompts` | crates/renoa-agent-loop/src/decision.rs:72-103 | in every run each journalled user message has the blocks of the prompt its operation was submitted with |
| `LoopRecords.RunsResumeWithTheirAnswers` | crates/renoa-agent-loop/src/decision/code_mode.rs:199-267 | a code run that goes on after a wave resumes at its snapshot with the value of each nested call's own answer |
| `LoopOutcomes.CallsAreAskedAsMade` | crates/renoa-agent-loop/src/decision.rs:352-388 | a call that can run is asked of the first tool of its name exactly as the model made it, or starts a code run with the program it carries |
| `LoopOutcomes.WavesAreAskedAsMade` | crates/renoa-agent-loop/src/decision/code_mode.rs:112-197 | a suspended program's calls are asked for in their order, each with its own identity, reference and arguments |
| `LoopOutcomes.CompletesExactly` | crates/renoa-agent-loop/src/decision.rs:154-261 | an operation completes exactly on a response without calls, an accepted summary that was asked for, or nothing to summarise, and a tool's answer ends the turn exactly when it closes it |
| `SurfaceState.Database.Cursor` | clients/typescript/src/state.ts:27-38 | reads the stored cursor of a task, or that there is none |
| `SurfaceState.Database.AdvanceCursor` | clients/typescript/src/state.ts:40-48 | inserts a cursor or raises it, never lowers it, and touches no other task |
| `SurfaceState.Database.EnqueueCommand` | clients/typescript/src/state.ts:50-54 | appends behind every stored command and refuses a known identity |
| `SurfaceState.Database.RemoveCommand` | clients/typescript/src/state.ts:75-77 | removes one command and keeps the others in order |
| `SurfaceClientCore.ClientCore.Disconnect` | clients/typescript/src/core-client.ts:416-433 | rejects every request and every replay of an attached task, once per socket |
| `SurfaceClientCore.ClientCore.AttachExisting` | clients/typescript/src/core-client.ts:271-291 | after its await the cursor that was read becomes the attachment's, and what follows it is asked for, or the attach fails without a connection |
| `SurfaceClientCore.ClientCore.ContinueAttach` | clients/typescript/src/core-client.ts:169-193 | after its first await `attach` sets up an attachment object with the cursor that was read, and reads it again |
| `SurfaceClientCore.ClientCore.ReadForAttach` | clients/typescript/src/core-client.ts:179-185 | the store answers the first read of an `attach` with the cursor it holds then |
| `SurfaceClientCore.ClientCore.ApplyTaskEvent` | clients/typescript/src/core-client.ts:392-406 | skips a known event, hands over the next one, and ends the connection on any other |
| `SurfaceClientCore.ClientCore.StoreCursor` | clients/typescript/src/core-client.ts:406-407 | stores the cursor of the applied event |
| `SurfaceClientCore.ClientCore.FinishReceive` | clients/typescript/src/core-client.ts:408-414 | moves the attachment's cursor on and resolves a replay that was reached |
| `SurfaceRuns.RunKeepsInv` | clients/typescript/src/core-client.ts:271-433 | over every run, any server and any store, no cursor and no answer of the store is ahead of what is stored, and a receive at most one |
| `SurfaceOrder.AppliesInOrder` | clients/typescript/src/core-client.ts:392-414 | for any server and any store, no prefix of a run can go on to hand events to `apply` out of order without using another answer, if and only if each answer was used while at most one behind what is stored, that one being the last handed over |
| `SurfaceOrder.SynchronousStoresApplyInOrder` | clients/typescript/src/core-client.ts:392-414 | when answers are used before anything more is stored, the sequences handed to `apply` for a task start at 0 and each is the previous one or its successor, for any server |
| `SurfaceMisses.DisorderIsReached` | clients/typescript/src/core-client.ts:271-272 | a run from the start in which a cursor is used two events after it was read, and an event is applied out of order |
| `SurfaceRuns.AttachResolvesWhenStored` | clients/typescript/src/core-client.ts:293-300 | an attach resolves only once the stored cursor has reached what it waited for |
| `SurfaceRepeats.RepeatsOnlyBeforeStored` | clients/typescript/src/core-client.ts:392-414 | for any server and any store, no prefix of a run can go on to apply an event whose cursor was stored without using another answer, if and only if each answer that counts was still current and no task was attached anew while its `apply` ran |
| `SurfaceRepeats.SynchronousStoresRepeatExactly` | clients/typescript/src/core-client.ts:169-193 | when answers are used before anything more is stored, that holds if and only if no task is attached anew while its own `apply` runs |
| `SurfaceMisses.LateRepeatIsReached` | clients/typescript/src/core-client.ts:169-193 | a run from the start, with every answer used at once, in which an event is applied after its cursor was stored |
| `SurfaceOutbox.CommandsSurvive` | clients/typescript/src/core-client.ts:224-269 | no submitted command is lost: it stays in the outbox, in submission order, until exactly it was accepted |
| `Credentials.SameOauth` | adapters/model-provider-node/src/credentials.ts:216-219 | comparing the four fields is equality of credentials |
| `Credentials.CredentialStore.Read` | adapters/model-provider-node/src/credentials.ts:84-89 | reads a row, that there is none, or that it does not decode |
| `Credentials.CredentialStore.StoreIfUnchanged` | adapters/model-provider-node/src/credentials.ts:169-187 | replaces the row exactly when it still is the snapshot, and otherwise returns what is stored |
| `OauthRefreshLock.LockFile.TryAcquire` | adapters/model-provider-node/src/oauth-refresh-lock.ts:16-29 | takes the lock exactly when nobody holds it, and never waits |
| `OauthRefreshLock.RefreshLock.Release` | adapters/model-provider-node/src/oauth-refresh-lock.ts:31-44 | releases once; a second release leaves a later holder alone |
| `OauthRefresh.OneRefreshAtATime` | adapters/model-provider-node/src/credentials.ts:141-161 | in every interleaving at most one call is inside a refresh, and the lock is held exactly then, so no crash leaves it behind |
| `OauthRefresh.WritesOnlyOverSnapshot` | adapters/model-provider-node/src/credentials.ts:169-187 | every refresh write found exactly the snapshot it had read |
| `OauthRefresh.ReturnsWhatWasStored` | adapters/model-provider-node/src/credentials.ts:122-163 | every value a call returns was the stored one at some time during the call |
| `OauthRefresh.ReturnsOldOnlyAsAnswer` | adapters/model-provider-node/src/credentials.ts:122-163 | in every interleaving a call that ends with the OAuth credential it was to replace got that very value from the provider |
| `OauthRefresh.RefreshHappens` | adapters/model-provider-node/src/credentials.ts:141-158 | from every reachable world, a call that tries for the free lock while the row is what it read reaches the provider, and the answer is stored and returned with exactly one write |
| `OauthRefresh.NewCallTries` | adapters/model-provider-node/src/credentials.ts:126-145 | a new call on a stored OAuth credential comes to try for the lock with what the row holds |
| `OauthRefresh.ChangedRowEndsCall` | adapters/model-provider-node/src/credentials.ts:131-153 | a row that is not what the call read first ends the call with that row, at a poll and under the lock, and nothing is written |
| `OauthRefresh.DeletionSticks` | adapters/model-provider-node/src/credentials.ts:174-180 | a credential deleted while refreshes are pending stays deleted until an outside write |
| `OauthRefresh.NeverRefreshedTwice` | adapters/model-provider-node/src/credentials.ts:122-163 | with fresh answers, and no outside write that restores an earlier value, no credential is refreshed twice |
| `ExecutionEvents.AppendContiguous` | crates/renoa-control/src/event_store.rs:204-251 | the loop over a batch computes journal, cursor and terminal flag, with the same refusals as the step-by-step definition |
| `ExecutionEvents.BatchEndsOnce` | crates/renoa-control/src/event_store.rs:141-184 | a batch reports a new terminal event exactly when it ends the stream, and an ended stream takes nothing more |
| `ExecutionEvents.ResentBatchChangesNothing` | crates/renoa-control/src/event_store.rs:204-251 | sending an accepted batch again is accepted and changes nothing |
| `AgentMessages.LoadSource` | crates/renoa-control/src/agent_messages.rs:406-433 | a node speaks only for commands of its own owner's tasks that it executes |
| `AgentMessages.OpenThread` | crates/renoa-control/src/agent_messages.rs:437-468 | a thread is open afterwards with exactly the binding needed, or the message is refused |
| `AgentMessages.ThreadHasOneSender` | crates/renoa-control/src/agent_messages.rs:85-97 | agents that share a thread identity and a destination are the same agent, although targets may contain the separator |
| `AgentMessages.ThreadKeysCollide` | crates/renoa-control/src/agent_messages.rs:85-97 | for different destinations the joined text does not tell threads apart |
| `AgentReplies.Truncate` | crates/renoa-control/src/agent_replies.rs:150-155 | stepping back to a character boundary keeps the longest prefix within the byte limit |
| `AgentReplies.TruncatedIsLongest` | crates/renoa-control/src/agent_replies.rs:150-155 | the longest prefix within the limit is unique and computed character by character |
| `AgentReplies.AnswerSays` | crates/renoa-control/src/agent_replies.rs:138-202 | the answer of a completed request is a reply with the longest prefix of its latest assistant text, or nothing; that of a failed or cancelled one is a failure with the longest prefix of the error or reason |
| `ControlDatabase.Database.AdmitAgentMessage` | crates/renoa-control/src/agent_messages.rs:233-339 | admits, finds or refuses a message like the step on table values, and writes nothing on a refusal |
| `ControlDatabase.Database.AppendExecutionEvents` | crates/renoa-control/src/event_store.rs:33-59 | a batch and the answer it causes commit together or not at all |
| `ControlDatabase.Database.AdmitAnswer` | crates/renoa-control/src/agent_replies.rs:86-181 | admits the answer of an ended request into the asker's task, or nothing; an admitted answer says what the batch ended with |
| `ControlDatabase.Database.RecordStop` | crates/renoa-control/src/command_stop.rs:88-137 | an earlier record outranks the command's state; an ended command without one gets no row |
| `ControlDatabase.Database.Acknowledge` | crates/renoa-control/src/command_stop.rs:179-218 | marks a stop delivered for the node of its task only |
| `CommandStop.LoadPendingStops` | crates/renoa-control/src/command_stop.rs:139-174 | collects exactly the unacknowledged stops of a node, ordered by task and within a task as recorded |
| `ControlRuns.RunKeepsRows` | crates/renoa-control/src/store.rs:118-234 | in every run commands live in tasks of their own principal and target, and events and stops belong to commands |
| `ControlRuns.RunKeepsRow` | crates/renoa-control/src/task_deletion.rs:23-100 | a command whose row lasts keeps its content, its task and the task's binding, whatever else is deleted |
| `AgentChains.StepKeepsEdges` | crates/renoa-control/src/agent_messages.rs:341-370 | every step inserts at most one command, whose own edge is good; the edges hold after it exactly when it fits the commands that name it |
| `AgentChains.ChainsAreSound` | crates/renoa-control/src/agent_messages.rs:233-370 | throughout a run, following `from_command` reaches a command no agent caused in exactly `depth` steps, requests are at most 100 deep and answers 101, and owner and quiet flag are constant along the chain, if and only if no command outside a deleted task names one inside it |
| `AgentChains.ChainIsConstant` | crates/renoa-control/src/agent_replies.rs:135-171 | as far as rows exist, depth counts the steps of a chain and owner and quiet flag are constant along it |
| `AgentChains.EdgesHoldExactlyWhenFitting` | crates/renoa-control/src/task_deletion.rs:88-100 | whatever is deleted, each command continues the one it names as far as that row exists, throughout a run, if and only if each new command fits the commands that name its identity |
| `AgentChains.ReuseBreaksChain` | crates/renoa-control/src/store.rs:118-180 | a run in which a freed identity is submitted with the other quiet flag and a request continues a command that never sent it |
| `AgentChains.DeletionBreaksChain` | crates/renoa-control/src/task_deletion.rs:23-100 | a run in which deleting the task of a settled command leaves the request it sent without its origin |
| `AgentThreads.ThreadIsOneConversation` | crates/renoa-control/src/agent_messages.rs:258-332 | in every run all requests of one task were sent by one agent of one owner to one agent |
| `AgentThreads.PublishAnswersOnce` | crates/renoa-control/src/agent_replies.rs:86-181 | an accepted batch admits an answer exactly when it ends a request whose asking command exists: in the asker's task, from the replier, to the asker's principal, target and surface, and saying what the batch ended with; an ending batch is refused exactly when the answer's identity is taken |
| `AgentThreads.NoSecondAnswer` | crates/renoa-control/src/agent_replies.rs:86-181 | in every run, whatever is deleted, no request has two answers |
| `AgentThreads.EndedRequestIsAnswered` | crates/renoa-control/src/agent_replies.rs:86-181 | in every run, as long as a request and the command that sent it last, once it has ended its answer is in the asker's task and says what it ended with, and an answer not left over from an earlier request means that it ended |
| `AgentThreads.EndedRequestsHaveOneAnswer` | crates/renoa-control/src/agent_replies.rs:86-181 | in a run whose deleted tasks are detached, every request has an answer if and only if it has ended, in the asker's task, and never a second one |
| `AgentThreads.ResentMessageIsStored` | crates/renoa-control/src/agent_messages.rs:233-298 | while a message's row lasts, sending it again is accepted if and only if its source command stands, returns the stored command and changes nothing, even if the destination is offline or the sender renamed; without its source command it is not found |
| `AgentThreads.OtherContentIsRefused` | crates/renoa-control/src/agent_messages.rs:281-298 | while a message's row lasts, its identity never writes, and is accepted again only for exactly the same message from the same node, whatever is deleted |
| `StopRuns.FirstAnswerIsPermanent` | crates/renoa-control/src/command_stop.rs:83-137 | as long as the command's row exists, every later stop is accepted, gives the first answer, writes nothing and takes back no delivery |
| `StopRuns.DeliveredByOwnNode` | crates/renoa-control/src/command_stop.rs:191-215 | a delivered mark comes only from an acknowledgement by the node of the command's own task |
| `StopDelivery.StepMissesExactly` | crates/renoa-control/src/command_stop.rs:39-81 | recording a new stop keeps every undelivered stop reaching its node's connection exactly when the task's present node is not connected on an open connection other than the route to which no earlier request is about to send it; every other step always does |
| `StopDelivery.NoStopIsMissed` | crates/renoa-control/src/session_registry.rs:40-141 | under any interleaving of activations, stops and other transactions, every undelivered stop was sent on its node's current connection or is about to be, throughout a run, if and only if no step misroutes one |
| `StopDelivery.BoundIsRouted` | crates/renoa-control/src/command_stop.rs:39-81 | a stop whose task still has the node loaded before the lock is never misrouted |
| `StopMisses.ReboundStopIsMissed` | crates/renoa-control/src/command_stop.rs:39-81 | a run from the start in which a task moves to another node between loading and recording, and that node's connection never gets the stop |
| `StopMisses.ReusedStopIsMissed` | crates/renoa-control/src/command_stop.rs:39-81 | a run from the start in which that node had got a stop of an earlier command under the same identity, and never gets the new one |
| `Sampling.Observer.Record` | crates/renoa-agent/src/sampling.rs:37-128 | emits the reports of one provider event and remembers traffic and the started message |
| `Sampling.Observer.ModelFailure` | crates/renoa-agent/src/sampling.rs:141-157 | aborts a started message, weakens a definite error after content, and reports one failure |
| `Sampling.DrainCancelledStream` | crates/renoa-agent/src/sampling.rs:289-321 | drains the stream to its end and reports like the drained items say |
| `Sampling.SampleModel` | crates/renoa-agent/src/sampling.rs:238-287 | the loop returns and emits what the item-by-item definition says, for every cancellation point |
| `SamplingResults.SamplesWhatTheStreamSays` | crates/renoa-agent/src/sampling.rs:238-321 | for every stream and moment of cancellation the result is that of the item the stream stops at: its response, its error, or after a cancellation the last completion, else the last error if the provider was reached, else a cancellation |
| `SamplingResults.OverflowIsReported` | crates/renoa-agent-loop/src/adapters.rs:74-113 | without cancellation, an overflow is reported exactly when the stream fails with one known not to have started before any content, and a completion exactly with the response the stream stops at |
| `Sampling.EveryInvocationIsWellReported` | crates/renoa-agent/src/sampling.rs:238-321 | one message start at most and before all updates; a success reports an end and no failure; an error reports one failure, last, no end, and one abort if a message started |
| `Sampling.NoDefiniteFailureAfterContent` | crates/renoa-agent-loop/src/adapters.rs:74-113 | once any content was streamed the adapter never reports a definite failure |
| `Sampling.SummariesShowNoMessage` | crates/renoa-agent-loop/src/adapters.rs:42-72 | a summary's observer sees no assistant message, and all other reports as often as made |
| `Sampling.SummariesClearOnlyEnds` | crates/renoa-agent-loop/src/adapters.rs:50-59 | a summary's observer sees every chunk unchanged, and every end with its content cleared and nothing else changed |
| `RetryLoop.ParseRetryAfter` | adapters/model-provider-node/src/retry.ts:49-62 | there is a cooldown exactly when the header names an instant; waiting it ends no earlier than that instant, and exactly then unless it is past |
| `RetryLoop.StreamModel` | adapters/model-provider-node/src/stream.ts:42-137 | the retry loop ends and logs what the attempt-by-attempt definition says, which `RetryDecisions.RetriesExactly` characterises |
| `RetryLoop.EveryInvocationIsBounded` | adapters/model-provider-node/src/stream.ts:42-137 | delays total at most 120000 ms and each is at least the server's Retry-After (section 10.2.3 of RFC 9110); content comes from the last attempt; a fourth or fifth attempt follows only a rate limit; one refresh at most; the loop never falls through |
| `RetryDecisions.ClassifiesBySigns` | adapters/model-provider-node/src/errors.ts:247-325 | before any content, which failures may pass and which are rate limits is told by status and message patterns |
| `RetryDecisions.RetriesExactly` | adapters/model-provider-node/src/stream.ts:42-137 | after attempt n another follows exactly when nothing was streamed, the caller did not cancel, and either the first expired token of a stored credential was refreshed, or the failure may pass, n is below 5 for a rate limit and 3 otherwise, the delay fits what is left of 120000 ms and the wait was announced and taken; else the loop ends there with the ending that belongs to it |
| `RetryDecisions.EveryInvocationEnds` | adapters/model-provider-node/src/stream.ts:42-137 | every invocation ends at one of the first five attempts in one of those ways |
| `RetryDecisions.DelaysDouble` | adapters/model-provider-node/src/retry.ts:28-47 | without a server's instant the delay after attempt n is 250·2^(n-1) ms times 0.5 to 1, and 5000·2^(n-1) ms times 1 to 1.25 for a rate limit, to the nearest millisecond |
| `JsonScan.ParseJsonAt` | adapters/model-provider-node/src/redact.ts:178-220 | the index loop with depth, string and escape flags finds the end that the scan defines |
| `JsonScan.ScanFindsTheEnd` | adapters/model-provider-node/src/redact.ts:178-220 | for every JSON object or array (sections 4, 5 and 7 of RFC 8259), after any prefix and before any suffix, the scan stops exactly at its closing bracket |
| `JsonScan.PiecesCoverTheText` | adapters/model-provider-node/src/redact.ts:160-176 | the outer pass puts every character into exactly one copied or replaced piece |
| `JsonScan.RedactEmbedded` | adapters/model-provider-node/src/redact.ts:160-176 | the outer loop prints exactly those pieces |
| `JsonScan.EmbeddedJsonIsReplaced` | adapters/model-provider-node/src/redact.ts:160-176 | a JSON object or array in a message is replaced as one whole exactly when no piece that starts before it reaches into it |
| `JsonScan.PlainPrefixIsPassed` | adapters/model-provider-node/src/redact.ts:160-176 | text without opening brackets is passed character by character, so nothing before it reaches into what follows |
| `JsonScan.InsideIsPassedOver` | adapters/model-provider-node/src/redact.ts:160-176 | inside an object or array that the pass reaches, nothing is replaced as one whole |
| `DriveDownload.ReadAtMost` | adapters/google-drive-mcp/src/drive-client.ts:404-443 | returns exactly the first bytes up to the limit, and says whether another read remained |
| `DriveDownload.MoreMeansLonger` | adapters/google-drive-mcp/src/drive-client.ts:429-432 | more remains when the body is longer than the limit and not when it is shorter; without empty reads exactly when it is longer |
| `DriveDownload.DownloadChunk` | adapters/google-drive-mcp/src/drive-client.ts:150-175 | reads, checks and cuts one response as defined |
| `DriveDownload.ChunkExtends` | adapters/google-drive-mcp/src/drive-client.ts:150-175 | an honest response yields the file's next bytes, and is complete exactly when they end the file and its length was known |
| `DriveDownload.WalkReadsTheFile` | adapters/google-drive-mcp/src/drive-client.ts:118-176 | following the offsets ends, with any mix of whole and partial responses and page sizes, and the joined chunks are the file (sections 14.4 and 15.3.7 of RFC 9110) |
| `DriveDownload.IncompleteExactly` | adapters/google-drive-mcp/src/drive-client.ts:118-176 | a download ends incomplete exactly when a request at the end of the file is refused: the first one for an empty file, or the one after an answer that reached the end with an unknown total |
| `DriveDownload.ReticentEndsIncomplete` | adapters/google-drive-mcp/src/drive-client.ts:445-474 | an honest server of a one-byte file with unknown totals, from which the whole file is read and the walk ends incomplete |
| `TurnContext.NewContext` | crates/renoa-agent-loop/src/turn_context.rs:112-121 | entries are refused exactly for a repeated source or more than 1024 bytes of text |
| `TurnContext.EscapeIsPerCharacter` | crates/renoa-agent-loop/src/turn_context.rs:160-164 | the three replacements in sequence are one replacement per character |
| `TurnContext.EscapedHasNoBrackets` | crates/renoa-agent-loop/src/turn_context.rs:159-164 | escaped text contains no angle bracket |
| `TurnContext.UnescapeUndoes` | crates/renoa-agent-loop/src/turn_context.rs:160-164 | escaping is invertible |
| `TurnContext.ModelContext` | crates/renoa-agent-loop/src/turn_context.rs:133-144 | the appending loop renders head, entries in order and tail |
| `TurnContext.RenderingIsReadable` | crates/renoa-agent-loop/src/turn_context.rs:52-144 | the rendering of every accepted context parses back to the same sources and texts |
| `BrowserSessions.IdentityStore.CreatePairing` | crates/renoa-control/src/browser_pairing_store.rs:14-49 | stores a new code, drops expired ones, and refuses an expiry in the past |
| `BrowserSessions.IdentityStore.RedeemPairing` | crates/renoa-control/src/browser_pairing_store.rs:51-101 | admits one session for an unclaimed code, and confirms only that one afterwards |
| `BrowserSessions.IdentityStore.AuthenticateSession` | crates/renoa-control/src/browser_sessions.rs:113-162 | accepts live sessions only and renews past half the lifetime |
| `BrowserSessions.IdentityStore.RevokePrincipal` | crates/renoa-control/src/browser_sessions.rs:188-211 | removes all sessions and codes of one principal and no others |
| `BrowserSessions.OneSessionPerCode` | crates/renoa-control/src/browser_pairing_store.rs:51-101 | over every run, whatever times transactions carry, one pairing code admits one session identity at most |
| `BrowserSessions.EndedStaysEnded` | crates/renoa-control/src/browser_sessions.rs:113-211 | a session that is over stays over throughout a run if and only if no lookup that read the clock before its expiry renews it past the present |
| `BrowserSessions.RemovedStaysRemoved` | crates/renoa-control/src/browser_sessions.rs:163-211 | whatever times transactions carry, a session that was logged out, revoked or cleaned up never gets a row again |
| `BrowserSessions.AuthenticatesItsOwner` | crates/renoa-control/src/browser_sessions.rs:113-162 | in every run a session is authenticated exactly when it is live, as the principal its code was created for, with at least half its lifetime left |
| `BrowserSessions.LogoutEnds` | crates/renoa-control/src/browser_sessions.rs:167-186 | a session that was logged out is never authenticated again, whatever follows, and no other row changes |
| `BrowserSessions.RevokeEnds` | crates/renoa-control/src/browser_sessions.rs:188-211 | revoking a principal ends every code created for it before, claimed or not, and every session of such a code, for good |
| `BrowserSessions.RevokeSparesOthers` | crates/renoa-control/src/browser_sessions.rs:188-211 | the codes and sessions of everyone else stay as they were |
| `BrowserSessions.TimelyStepsReviveNone` | crates/renoa-control/src/browser_sessions.rs:113-162 | a transaction that carries the latest time revives nothing |
| `BrowserSessions.ExpiredCanRevive` | crates/renoa-control/src/browser_sessions.rs:113-162 | a run from the start in which an expired session is live again |
| `BrowserSessions.SessionsNeverShorten` | crates/renoa-control/src/browser_sessions.rs:143-153 | over every run, whatever times transactions carry, a session that lasts is never shortened and keeps its principal |

## Left out

- The kernel's admission queue, leases, recovery policies and request release: a session runs one operation at a time and takes the next command when idle.
- The planner that selects where to cut a transcript, and token estimates: the context strategy is a parameter, and what the loop validates of its plans is modelled.
- JSON encoding: effects, events and commands are decoded values, with one case for values that do not decode. Fixed notices and error texts are enumerated, not spelled out.
- Turn timing: an annotation is its rendered text.
- Images and attachments in messages and command inputs.
- Handshake, live activity, stop requests, `close` of the client and failing stores.
- WebAuthn, passkey-bound browser sessions, connection tickets and cookies.
- HTTP, WebSocket and process plumbing, configuration, logging, schema migrations.
- 64-bit overflow of journal and execution sequences.
- JavaScript strings are sequences of characters, not of UTF-16 code units; the scanned characters are the same in both.
- Regular expressions: failure messages enter classification as the patterns they match, and range and Retry-After headers as the numbers and dates they parse to.
- The rest of the redactor, the catalogs, the MCP transport and the deployment code would add only members that are checked branch by branch.
- RetryLoop.StreamModel: the content of deltas is not modelled, only how many each attempt streams.
- AgentThreads.EndedRequestsHaveOneAnswer: is stated for runs whose deleted tasks are detached, because a deleted asker leaves an ended request without an answer; NoSecondAnswer and EndedRequestIsAnswered hold in every run.
- LoopProgress.AlwaysDrivable: says nothing of a strategy that refuses what the session asks of it; such an operation stays and can be cancelled.
