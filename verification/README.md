# Proofs about the agent runtime

A Dafny model of the parts of the repository whose correctness depends on order, interleaving and
bookkeeping, with proofs of what they promise. The code keeps its shape: objects whose methods update
fields are classes whose methods are proved against state functions, loops are loops with invariants, and
expressions are functions with lemmas about them.

- **Agent runs** (`Transcript`, `RunScope`, `Agent`, `NoProgress`, `ToolCalls`, `AgentLoop`, `AgentRuns`). The
  nested turn, steering and follow-up loops over a provider and tools. Hooks, provider streams and tools are
  inputs. Every `await` runs the next entry of a tape of things other code may do (cancel, queue steering,
  queue a follow-up), and the calls of a parallel batch advance in whatever order their replies come, so a
  statement about all inputs is one about all interleavings. Main results: one well-formed event trace per
  run, whose committed messages are the new messages and extend the transcript; what a run adds and what it
  makes of its context follow, turn by turn, from what hooks, provider and tools contributed; every request
  and every tool execution, in finished and unfinished runs, began at a moment of the tape at which the run was
  active and not cancelled; every result answers its call in source order and follows from its own replies,
  however they are interleaved; a run whose turns settle their calls never gets stuck half-way;
  of everything found queued or queued by the tape each message is injected once, in order, or queued still;
  and the guard stops a run exactly after the third identical tool turn in a row.
- **Tool resources** (`ResourceScheduler`). Why popping the last mode is right although leases end out of
  order, why one wakeup pass is enough, and that equal requests are granted in arrival order.
- **External mutation journal** (`Utf8`, `Json`, `JournalLines`, `JournalRecords`, `Journal`, `JournalWriter`).
  From events to bytes and back: JSON text, UTF-8 with replacement of malformed input, lines and torn tails,
  the validating parser, the writer with its failing appends, and the reader with its throwing callback.
- **Publication of provider models** (`Publication`). Supersession by generation against jobs that await the
  store.
- **Client connection** (`Connection`). One lifecycle under stale callbacks, re-entrant calls and callbacks
  that throw; a tape of callback behaviours nested to any depth stands for all of them.
- **UI actions** (`UiActions`, `RuntimeController`). Coalescing against the reducer, and the controller that
  queues, reduces and runs effects whose handlers may call it again, proved equal to a function of its
  operations and the handlers' reactions.
- **Price brackets** (`Pricing`), **shell words** (`ShellLexer`), **schema rendering** (`Schema`, `Inlining`) and
  **offset remapping** (`OffsetMap`).

Some promises turn out not to hold as stated. In each case the model keeps the code as it is, shows an input,
and proves when the promise does hold:

- A journal writer accepts attempt ids of up to 256 characters and times of any size, but the reader does not
  accept the records it writes for them, nor a second observation of one call that was begun before the first
  had finished (`Journal.WrittenIsRead`, `Journal.MutationIdFits`, `Journal.LongAttemptIdIsRefused`,
  `JournalProcesses.OverlappingObservationsAreRefused`).
- A provider that sends more than one `start` event leaves placeholders in the context
  (`AgentLoops.AgentLoop.StreamAssistantResponse` says how many, `AgentRuns.SecondStartStays` runs one).
- A connection that closes its transport tells the client first, and closes it if and only if the client's
  reaction does not throw (`Connections.Connection.DropAndClose`, `Connections.LeakingRun`).
- Schema references skip empty pointer tokens and never enter arrays, unlike RFC 6901
  (`Schemas.EmptyTokenIsSkipped`, `Schemas.ArrayElementIsMissing`; `Schemas.AgreesWithStandard` and
  `Schemas.AgreesExactly` say when they agree all the same).
- The offset map's comment calls its greedy match exact for deletions. It is so exactly when every deleted
  character differs from the next kept one (`OffsetMaps.ExactlyWhenDistinguishable`,
  `OffsetMaps.EscapeBeforeItsOwnDigit`).

## Model

| member | source | states |
|---|---|---|
| `Transcript.Extend` | packages/agent/src/agent-loop.ts:253-469 | the grammar stage, committed messages and started calls of a trace grow with each event as the event grammar says |
| `Transcript.FinishedTrace` | packages/agent/src/agent-loop.ts:253-469 | the trace of a finished run: `agent_start` first and `agent_end` last and nowhere else, turns alternate, message starts and ends alternate, every tool execution ends as often as it starts, by call id, never before it starts and within its turn |
| `RunScopes.OpsLead` | packages/agent/src/run-scope.ts:45-73 | whatever is called in whatever order, cancellation, abort and settlement are never taken back |
| `RunScopes.RefusalIsFinal` | packages/agent/src/run-scope.ts:58-66 | a scope that refuses an effect once it has left `reserved` refuses for good |
| `RunScopes.RunScope.Activate` | packages/agent/src/run-scope.ts:45-50 | activation succeeds only from `reserved`; otherwise nothing changes |
| `RunScopes.RunScope.RequestCancel` | packages/agent/src/run-scope.ts:52-56 | cancelling aborts unless the scope is settled |
| `RunScopes.RunScope.Settle` | packages/agent/src/run-scope.ts:68-73 | settling ends in `settled` and keeps the flags |
| `Agents.Queue.Enqueued` | packages/agent/src/agent.ts:161-164 | a group joins the end of what is queued, an empty one changes nothing |
| `Agents.Queue.Drained` | packages/agent/src/agent.ts:170-183 | what a poll returns followed by what stays queued is what was queued, in both modes |
| `Agents.PendingMessageQueue.Enqueue` | packages/agent/src/agent.ts:161-164 | the object does what the queue value does |
| `Agents.PendingMessageQueue.Drain` | packages/agent/src/agent.ts:170-183 | the object returns and keeps what the queue value says, losing and reordering nothing |
| `Agents.Agent.ProcessEvents` | packages/agent/src/agent.ts:765-803 | transcript, pending calls and error follow each event; a placeholder is shown exactly while a message is open |
| `Agents.Agent.Emit` | packages/agent/src/agent.ts:765-812 | an event is appended and reduced, and whatever listeners do meanwhile only moves the run onward |
| `Agents.Agent.StartEffect` | packages/agent/src/agent.ts:650-653 | an effect is recorded only under a scope that admits it |
| `Agents.Agent.HostDo` | packages/agent/src/agent.ts:650-701 | cancelling cancels the scope, steering and following up queue their group, and nothing else changes |
| `Agents.QueueAfterHolds` | packages/agent/src/agent.ts:161-164 | after any operations a queue holds its former contents and then what they queued, in whole groups |
| `Agents.AccountedDrained` | packages/agent/src/agent.ts:170-183 | a poll keeps found + queued = drained + waiting, and in one-at-a-time mode returns nothing or one whole group |
| `Agents.Agent.Await` | packages/agent/src/agent.ts:650-701 | other code does exactly what the next entry of the tape says; the scope and both queues stay accounted for by the entries run so far |
| `NoProgress.AddTurn` | packages/agent/src/agent-loop.ts:425-433 | the repeat counter after one more tool turn |
| `NoProgress.RepeatsSeeStuck` | packages/agent/src/agent-loop.ts:429-434 | the counter reaches three exactly when the last three marks are the same tool turn |
| `NoProgress.ConstantTurnsAreShort` | packages/agent/src/no-progress.ts:3-4 | a provider and tools that repeat themselves stop within three turns |
| `NoProgress.NoFourthRepeat` | packages/agent/src/agent-loop.ts:421-446 | no run holds four equal tool turns in a row |
| `ToolCalls.ReadyIff` | packages/agent/src/agent-loop.ts:1075-1161 | a call is prepared exactly when its tool exists, its arguments hold before and after the hook, and nobody blocked or aborted it |
| `ToolCalls.StepOk` | packages/agent/src/agent-loop.ts:1163-1437 | every step keeps the lease accounts, starts the tool only under an open gate, and reports a call once |
| `ToolCalls.NoStartOnceShut` | packages/agent/src/agent-loop.ts:1332-1352 | once the gate is shut for good the tool is not executed any more |
| `ToolCalls.CallSafety` | packages/agent/src/agent-loop.ts:1163-1437 | over every run of a call: executed at most once and only admitted, its lease released exactly once on each exit path, `not_started` when never executed |
| `ToolCalls.InterleavedIsOwn` | packages/agent/src/agent-loop.ts:926-933 | however the replies to the calls of a batch are interleaved, each call moves as its own replies say and no other way |
| `ToolCalls.StartsUpdate` | packages/agent/src/agent-loop.ts:926-933 | moving one call changes the starts of a batch by that call alone |
| `ToolCalls.UsualRepliesSettle` | packages/agent/src/agent-loop.ts:1163-1437 | the replies of a call nobody interferes with bring any prepared call to its end, whatever the gate shows meanwhile |
| `AgentLoops.AgentLoop.PrepareToolCall` | packages/agent/src/agent-loop.ts:1075-1161 | the call is announced, then prepared or settled at once, as its preparation and the abort flag say; nothing is executed or committed |
| `AgentLoops.AgentLoop.Advance` | packages/agent/src/agent-loop.ts:1163-1487 | one reply moves one call by exactly one step, under the gate the tape shows at that moment; an effect is recorded with that moment exactly when the tool starts; the end event comes exactly once |
| `AgentLoops.AgentLoop.ExecuteSequential` | packages/agent/src/agent-loop.ts:791-858 | results answer the calls in source order, all of them unless aborted; each call has moved as its replies say; settled or not, the effects are the moments at which tools were executed; each lease is back; termination iff every result asks for it; a script that settles its calls settles the batch |
| `AgentLoops.AgentLoop.Interleave` | packages/agent/src/agent-loop.ts:926-933 | for any order of replies the calls are moved step by step under the gates the tape shows; the effects added are the executions added; the open executions are those not yet reported |
| `AgentLoops.AgentLoop.ExecuteParallel` | packages/agent/src/agent-loop.ts:860-945 | the same promises as in sequential mode, for any completion order, effects of unfinished batches included |
| `AgentLoops.AgentLoop.ExecuteToolCalls` | packages/agent/src/agent-loop.ts:766-784 | both modes settle a batch with the same promises; exactly the answered calls were started, and exactly the executed ones are on record |
| `AgentLoops.AgentLoop.FailTruncated` | packages/agent/src/agent-loop.ts:733-761 | calls of a cut-off response are all answered with errors and none is executed |
| `AgentLoops.InOrderAscends` | packages/agent/src/agent-loop.ts:687 | completed blocks are ordered by content index, each once |
| `AgentLoops.CheckpointKeepsCompleted` | packages/agent/src/agent-loop.ts:686-722 | a checkpoint keeps every completed block but trailing reasoning, and never ends in reasoning |
| `AgentLoops.AgentLoop.ReadResponse` | packages/agent/src/agent-loop.ts:622-671 | the context gains one placeholder per `start` event and is otherwise untouched |
| `AgentLoops.AgentLoop.StreamAssistantResponse` | packages/agent/src/agent-loop.ts:529-724 | there is a request iff the scope still admits it after the first await; the message is the final one unless the run was shut down meanwhile; afterwards the context is as before with at most one `start`, else all but one placeholder stay |
| `AgentRuns.SecondStartStays` | packages/agent/src/agent-loop.ts:529-724 | a provider that sends `start` twice leaves one placeholder in an empty context |
| `AgentLoops.AgentLoop.InjectAll` | packages/agent/src/agent-loop.ts:303-314 | pending messages are committed in order and recorded where they came from |
| `AgentLoops.AgentLoop.NextTurn` | packages/agent/src/agent-loop.ts:278-300 | between turns the context becomes what the hook returns, if anything, and steering is polled only when nothing is pending; otherwise pending messages stay as they are |
| `AgentLoops.AgentLoop.OpenTurn` | packages/agent/src/agent-loop.ts:278-348 | what precedes a request: the contexts of the hooks of this turn around the injected messages, which in one-at-a-time mode are one whole group; pending messages restart the guard |
| `AgentLoops.AgentLoop.RunBatch` | packages/agent/src/agent-loop.ts:390-410 | the results of a batch join trace, transcript, context and result list alike; its executions are on record whether or not it settles |
| `AgentLoops.UsualSettleTogether` | packages/agent/src/agent-loop.ts:860-945 | interleaved in any way, the usual replies settle calls that are executed together |
| `AgentLoops.AgentLoop.Recover` | packages/agent/src/agent-loop.ts:361-379 | completed output of a failed response is committed and its calls answered before the failure is shown |
| `AgentLoops.AgentLoop.CheckProgress` | packages/agent/src/agent-loop.ts:425-446 | the guard's two variables summarise the tool turns since the last interruption, and it fires exactly when stuck |
| `AgentLoops.AgentLoop.CloseTurn` | packages/agent/src/agent-loop.ts:412-453 | `turn_end` reports the response and its results; a stuck run ends with the stop message; otherwise the run stops on request or polls for steering |
| `AgentLoops.AgentLoop.RunTurn` | packages/agent/src/agent-loop.ts:349-453 | a turn adds, to result list and context alike, exactly its response, the answers to its calls in source order (all unless aborted), recovered output first and the stop message if stuck; the response is the final message of the stream unless the run was shut down; its calls have moved as scripted; its effects, even if it is left in the middle, are its request and one per executed tool; `turn_end` reports response and results; the turn ends the run iff it failed, is stuck or a stop was requested |
| `AgentLoops.AgentLoop.RunTurns` | packages/agent/src/agent-loop.ts:276-454 | the inner loop extends the story of the run by its turns, one per scripted turn and in their order, with all their effects on record, and ends the run or leaves nothing pending |
| `AgentLoops.AgentLoop.RunLoop` | packages/agent/src/agent-loop.ts:253-469 | every finished run is closed and told by a story of scripted turns, of which at most the last failed, was stopped or asked to stop; finished or not, its effects are those of its story; a run whose turns settle their tool calls is interrupted only by running out of turns |
| `AgentLoops.LeadsOn` | packages/agent/src/agent-loop.ts:276-453 | one more turn leads from where the story stands to where result list, context, guard history and `turn_end` reports are after it |
| `AgentLoops.RecordGrows` | packages/agent/src/agent-loop.ts:276-453 | one more turn, ended or left in the middle, puts exactly its request and tool executions on record |
| `AgentLoops.ContextKept` | packages/agent/src/agent-loop.ts:278-348 | where no hook replaces the context it gains exactly what the turns add |
| `AgentLoops.StuckMeansRepeated` | packages/agent/src/agent-loop.ts:421-446 | the guard sees three equal marks exactly when the last three turns repeat actions and outcomes with nothing injected in between |
| `AgentLoops.GuardSeesRun` | packages/agent/src/agent-loop.ts:421-446 | over a whole run, a turn is the one the guard stops iff it is the third equal one in a row |
| `AgentRuns.RunAgentLoop` | packages/agent/src/agent-loop.ts:124-148 | any prompt run: every request and tool execution was admitted, and it goes on until it is over or out of turns if its turns settle their calls; a finished one: one well-formed trace; committed messages = new messages = the prompts, then turn by turn what was injected, answered and stopped; transcript = initial + new; context as hooks and turns make it, initial + new if no hook replaces it; `turn_end` reports turn by turn; stopped exactly after a third equal turn in a row |
| `AgentRuns.RecordIsAdmitted` | packages/agent/src/agent-loop.ts:576-600 | whatever is on record was admitted, so every request and every tool execution of a story began in an active run and ahead of any cancellation |
| `AgentRuns.ClosedObeyed` | packages/agent/src/agent.ts:161-183 | at the end of a run the scope is cancelled iff the entries of the tape run so far cancel it, found + queued messages = injected + still queued, and no effect on record began in an inactive run or behind a cancellation |
| `AgentRuns.RunAgentLoopContinue` | packages/agent/src/agent-loop.ts:150-174 | allowed exactly for a non-empty context that does not end in an open assistant message; the same promises |
| `AgentRuns.UnresolvedAre` | packages/agent/src/agent-loop.ts:205-212 | the calls executed on resume are exactly those without a recovered result |
| `AgentRuns.OrderedAnswersAll` | packages/agent/src/agent-loop.ts:214-217 | with a result for every call the merged list answers each once, in source order |
| `AgentRuns.MergeAnswersEachOnce` | packages/agent/src/agent-loop.ts:191-217 | merging never replaces a recovered result; a complete batch yields one result per call in source order |
| `AgentRuns.ResumeBatch` | packages/agent/src/agent-loop.ts:203-217 | only unresolved calls are started, the executed ones are on record, and an incomplete batch occurs only in a cancelled run |
| `AgentRuns.ResumeToolCalls` | packages/agent/src/agent.ts:540-584 | resumes exactly when the checks pass; the calls started for the batch are the unresolved ones; finished or not, every tool execution and request was admitted; every recovered result is kept; the transcript becomes what preceded the batch, the merged results in source order and the turns that followed, which are like those of any other run |
| `AgentRuns.RecoveredStay` | packages/agent/src/agent-loop.ts:191-217 | complete or not, the merged results contain every recovered one |
| `ResourceScheduling.StartKeepsModes` | packages/agent/src/resource-scheduler.ts:58-73 | starting an admissible request keeps each key's list equal to the modes really held, all shared or one exclusive |
| `ResourceScheduling.ReleaseKeepsModes` | packages/agent/src/resource-scheduler.ts:76-86 | `pop` removes the releasing lease's own mode, and the lists stay exact |
| `ResourceScheduling.CountIsMultiplicity` | packages/agent/src/resource-scheduler.ts:22 | the counts compared are those of the multiset of modes |
| `ResourceScheduling.StartOnlyShrinks` | packages/agent/src/resource-scheduler.ts:58-73 | starting one request never lets another one start |
| `ResourceScheduling.State.OnePassSettles` | packages/agent/src/resource-scheduler.ts:90-106 | one left-to-right pass leaves no waiter who could start |
| `ResourceScheduling.State.OnePassLosesNobody` | packages/agent/src/resource-scheduler.ts:90-106 | a pass resolves no promise twice and refuses only aborted waiters |
| `ResourceScheduling.State.IdleMeansEmptyQueue` | packages/agent/src/resource-scheduler.ts:90-106 | with no lease outstanding nobody waits |
| `ResourceScheduling.GrantKeepsOrder` | packages/agent/src/resource-scheduler.ts:98-104 | granting the first startable waiter overtakes nobody equal |
| `ResourceScheduling.NewcomerKeepsOrder` | packages/agent/src/resource-scheduler.ts:41-43 | a newcomer that starts at once overtakes nobody equal |
| `ResourceScheduling.ResourceScheduler.Acquire` | packages/agent/src/resource-scheduler.ts:41-56 | refused, started or queued, with running count, modes, order and no-lost-wakeup all kept |
| `ResourceScheduling.ResourceScheduler.Release` | packages/agent/src/resource-scheduler.ts:76-86 | the first release frees exactly that lease and wakes the queue, later ones do nothing |
| `ResourceScheduling.ResourceScheduler.Schedule` | packages/agent/src/resource-scheduler.ts:90-106 | the loop computes the single pass and leaves nobody startable |
| `ResourceScheduling.ResourceScheduler.OnAbort` | packages/agent/src/resource-scheduler.ts:47-51 | an aborted waiter leaves the queue and is refused; nothing else changes |
| `Utf8.RoundTrip` | packages/permissions/src/external-mutation-journal.ts:161 | decoding what was encoded gives the text back |
| `Utf8.DecodeLines` | packages/permissions/src/external-mutation-journal.ts:261-266 | decoding works line by line on any bytes, also when the file ends inside a character |
| `Json.RoundTrip` | packages/permissions/src/external-mutation-journal.ts:161 | parsing what was stringified gives the value back |
| `Json.PrintIsOneLine` | packages/permissions/src/external-mutation-journal.ts:161 | printed JSON has no raw line break |
| `JournalLines.GrowthOnlyAdds` | packages/permissions/src/external-mutation-journal.ts:262-266 | adding any bytes keeps the records that were complete |
| `JournalLines.AppendLine` | packages/permissions/src/external-mutation-journal.ts:160-171 | one appended line adds exactly that record |
| `JournalLines.TornLine` | packages/permissions/src/external-mutation-journal.ts:262-265 | any proper prefix of a line adds no record |
| `JournalRecords.RecordsSummarised` | packages/permissions/src/external-mutation-journal.ts:267-324 | accepted events are numbered 1 to n, and the parser's sets and counter are functions of them |
| `JournalRecords.PrefixOfRecords` | packages/permissions/src/external-mutation-journal.ts:271-324 | fewer lines of a valid journal are valid and give the first events |
| `JournalRecords.PostStateRoundTrip` | packages/permissions/src/external-mutation-journal.ts:176-214 | a post-state is read back exactly when it is one that capturing can yield |
| `JournalRecords.MutationRoundTrip` | packages/permissions/src/external-mutation-journal.ts:216-252 | an authorization of this policy is read back exactly when its ids, path, sequence and time are in range |
| `JournalRecords.MutationIdInjective` | packages/permissions/src/external-mutation-journal.ts:290-293 | mutation ids of one attempt differ, so none is ever a duplicate |
| `JournalRecords.RecordRoundTrip` | packages/permissions/src/external-mutation-journal.ts:271-323 | a record as the writer makes it is accepted as the same event iff its id fits, its time is valid and it is no second observation |
| `Journal.ParseExternalMutationJournal` | packages/permissions/src/external-mutation-journal.ts:254-325 | the loop accepts, refuses and returns as the fold over records says, with the first error |
| `Journal.GrowingJournal` | packages/permissions/src/external-mutation-journal.ts:254-265 | while a valid journal grows by any bytes, lenient parses are prefixes of one another |
| `Journal.EventsAreNumbered` | packages/permissions/src/external-mutation-journal.ts:281-284 | event i has number i + 1 |
| `Journal.WrittenIsRead` | packages/permissions/src/external-mutation-journal.ts:160-325 | the strict parser returns exactly what was written iff the file is within its limit and every record readable |
| `Journal.TornAppend` | packages/permissions/src/external-mutation-journal.ts:160-174 | after any byte prefix of an append a lenient parse gives the committed events, and the one in flight iff its newline arrived |
| `JournalProcesses.JournalWriter.FileIsRead` | packages/permissions/src/external-mutation-journal.ts:360-451 | at any time of a writer, what a lenient reader makes of its file: the events whose lines are complete, the one in flight iff its newline arrived; a strict one sees the same while no append has failed |
| `Journal.MutationIdFits` | packages/permissions/src/external-mutation-journal.ts:53-57 | exactly which attempt ids leave room for the digits of a sequence number |
| `Journal.LongAttemptIdIsRefused` | packages/permissions/src/external-mutation-journal.ts:216-219 | a valid policy whose first committed record no reader accepts |
| `JournalProcesses.JournalFile.AppendDurably` | packages/permissions/src/external-mutation-journal.ts:160-174 | whatever the file system does, a prefix is appended; success means all of it |
| `JournalProcesses.JournalWriter.constructor` | packages/permissions/src/external-mutation-journal.ts:360-369 | a writer rebuilt from a file has the counters and authorized calls of its events |
| `JournalProcesses.JournalWriter.Authorize` | packages/permissions/src/external-mutation-journal.ts:386-433 | the refusals in their order, else the next record is committed or the writer is poisoned; a poisoned writer never writes |
| `JournalProcesses.JournalWriter.FinishObserve` | packages/permissions/src/external-mutation-journal.ts:435-451 | the observation is committed, and readable iff no other one of the call finished meanwhile and its time is valid |
| `JournalProcesses.TracksAuthorized` | packages/permissions/src/external-mutation-journal.ts:407-431 | the writer's counters, ids and active calls stay functions of the events in its file |
| `JournalProcesses.OverlappingObservationsAreRefused` | packages/permissions/src/external-mutation-journal.ts:304-307 | two overlapping observations of one call make a journal no reader accepts |
| `JournalProcesses.JournalReader.Drain` | packages/permissions/src/external-mutation-journal.ts:339-349 | each event is delivered once, in order, however the file grows; after a throw the next poll starts with that event |
| `Publications.LogExtends` | packages/ai/src/models.ts:427-437 | a store change or update that passes the check keeps the log orderly |
| `Publications.NoOneAhead` | packages/ai/src/models.ts:425-427 | when a job's turn comes every earlier job of its provider is over |
| `Publications.OnePersists` | packages/ai/src/models.ts:430-434 | store changes of one provider never overlap |
| `Publications.Models.SupersedeProviderRefresh` | packages/ai/src/models.ts:401-410 | a new generation, and every running refresh of the provider is aborted |
| `Publications.Models.BeginProviderRefresh` | packages/ai/src/models.ts:412-417 | the new refresh owns the registered controller of the current generation |
| `Publications.Models.PublishProviderModels` | packages/ai/src/models.ts:419-446 | the job is queued behind the provider's chain, whatever its generation |
| `Publications.Models.Resume` | packages/ai/src/models.ts:427-434 | a stale job ends without effect; otherwise the store change or the update follows |
| `Publications.Models.PersistSettled` | packages/ai/src/models.ts:434-438 | after the store answered, the update runs only if the job is still current |
| `Publications.Models.Cleanup` | packages/ai/src/models.ts:440-444 | a chain is forgotten only when nothing is queued behind its tail |
| `Publications.Models.EndRefresh` | packages/ai/src/models.ts:517-521 | a refresh takes its own controller with it and no other |
| `Publications.Perform` | packages/ai/src/models.ts:401-521 | each step of the program or its environment has exactly the specified effect on all maps, jobs and the log |
| `Publications.Run` | packages/ai/src/models.ts:401-446 | for every sequence of steps the state is the fold of those steps and its log orderly: no overlap, publish order, nothing of a superseded generation starts or applies, generations never go back |
| `Connections.StageIsPattern` | packages/client/src/connection.ts:78-230 | the notification automaton accepts exactly (connecting connected? disconnected)*, cut anywhere |
| `Connections.DroppedKeeps` | packages/client/src/connection.ts:225-231 | ending a lifecycle rejects a held handshake, releases the transport and keeps all accounts |
| `Connections.ClosedKeeps` | packages/client/src/connection.ts:218-223 | whatever runs between dropping and closing a transport, its fate is decided once |
| `Connections.GreetedKeeps` | packages/client/src/connection.ts:177-184 | becoming connected keeps the handshake unsettled and the transport held |
| `Connections.Connection.Perform` | packages/client/src/connection.ts:66-235 | whatever other code does, in any nesting: what is stale changes nothing, what ends the lifecycle tells the client and settles the handshake, the rest does what its own method says |
| `Connections.Connection.CallBack` | packages/client/src/connection.ts:66-235 | user code called back is the next entry of the tape, throws iff that says so, and performs all its operations |
| `Connections.Connection.Connect` | packages/client/src/connection.ts:66-90 | a new attempt starts only from disconnected, otherwise nothing changes |
| `Connections.Connection.FactoryResolved` | packages/client/src/connection.ts:119-140 | a transport is taken by the attempt that waits for it or closed at once |
| `Connections.Connection.HandleData` | packages/client/src/connection.ts:142-160 | data of an earlier attempt changes nothing, and no message of one is ever delivered |
| `Connections.Connection.HandleMessage` | packages/client/src/connection.ts:162-204 | once connected, every other message is delivered to the attempt it came in |
| `Connections.Connection.Handshake` | packages/client/src/connection.ts:177-196 | an attempt that is still current afterwards is connected, announced and its handshake resolved |
| `Connections.Connection.FailAndClose` | packages/client/src/connection.ts:218-231 | the client is told once and the handshake is settled; nothing happens when already disconnected |
| `Connections.Connection.DropAndClose` | packages/client/src/connection.ts:218-231 | the transport is leaked if the reaction to the notification throws, and closed if it does not |
| `Connections.LeakingRun` | packages/client/src/connection.ts:218-231 | a client that throws when told of the disconnection leaves the transport it asked for open |
| `Connections.Connection.HandleClose` | packages/client/src/connection.ts:206-216 | a transport that closed itself is not closed again |
| `Connections.Run` | packages/client/src/connection.ts:40-236 | after any nesting of calls and callbacks, all of them performed: handshakes settle at most once and only the current one is open, notifications follow the pattern, every transport is accounted for, and a transport is leaked iff the client threw when told of the disconnection that was to close it |
| `Connections.LeaksAreExplained` | packages/client/src/connection.ts:218-231 | with no call under way, leaked transports are exactly those before whose closing a call threw |
| `UiActions.IncrementalIsBatch` | packages/grok-tui/src/runtime-controller.ts:31-32 | coalescing action by action equals coalescing at once |
| `UiActions.Idempotent` | packages/grok-tui/src/actions.ts:21-58 | coalescing coalesced actions changes nothing |
| `UiActions.CoalescedIsCompact` | packages/grok-tui/src/actions.ts:32-52 | at most one resize and one invalidation in every lifecycle segment |
| `UiActions.CoalescingKeepsDigest` | packages/grok-tui/src/actions.ts:16-20 | every segment keeps its last resize, its inputs in order and the OR of its flags; boundaries stay |
| `UiActions.SumIsOr` | packages/grok-tui/src/actions.ts:40-50 | the flags of a segment's summary are the OR of its invalidations |
| `UiActions.MeaningFromDigest` | packages/grok-tui/src/reducer.ts:11-73 | lifecycle, size, input count and delivered inputs depend on the segment summaries only |
| `UiActions.CoalescingKeepsMeaning` | packages/grok-tui/src/reducer.ts:11-73 | reducing coalesced actions gives the lifecycle, size, input count and delivered inputs of the originals |
| `UiActions.CoalesceUiActions` | packages/grok-tui/src/actions.ts:21-58 | the loop with its backward splices computes the specified result |
| `RuntimeControllers.RuntimeController.Dispatch` | packages/grok-tui/src/runtime-controller.ts:31-40 | the action is coalesced into the queue, and a drain is scheduled unless one is under way |
| `RuntimeControllers.RuntimeController.Stop` | packages/grok-tui/src/runtime-controller.ts:50-55 | everything pending is dropped for the stop action, which is flushed unless a flush is under way |
| `RuntimeControllers.RuntimeController.Flush` | packages/grok-tui/src/runtime-controller.ts:61-84 | a flush, with everything its handlers do, is the specified one; inside a flush it does nothing |
| `RuntimeControllers.DrainedAccounts` | packages/grok-tui/src/runtime-controller.ts:61-84 | unless a handler throws, state and delivered inputs are those of all actions dispatched since the last stop |
| `RuntimeControllers.DrainedRecords` | packages/grok-tui/src/runtime-controller.ts:61-84 | a flush consumes one reaction per effect; what was dispatched is exactly what handlers dispatch behind it, from the last stop on, and effects ran behind those that ran before |
| `RuntimeControllers.LifeAccounts` | packages/grok-tui/src/runtime-controller.ts:31-84 | whatever host and handlers do, throwing or not, the state is the fold of what was reduced, no effect is lost or repeated except by a stop, and nothing pending is forgotten |
| `RuntimeControllers.DispatchAccounts` | packages/grok-tui/src/runtime-controller.ts:31-33 | coalescing behind reduced actions keeps the meaning of all that was dispatched |
| `Pricing.GetAiGatewayCost` | packages/ai/scripts/catalog-pricing.ts:116-151 | one tier per boundary in ascending order, with the rates of the lookup at that boundary |
| `Pricing.PickIsBest` | packages/ai/src/models.ts:1138-1145 | the tier chosen has the greatest threshold below the total |
| `Pricing.SelectRates` | packages/ai/src/models.ts:1137-1145 | the loop over tiers chooses that tier |
| `Pricing.CompilationIsExact` | packages/ai/scripts/catalog-pricing.ts:129-150 | for every bracket set and every total the selected rates equal the direct first-match lookup |
| `Pricing.CalculateCost` | packages/ai/src/models.ts:1136-1156 | each charge is rate times amount per million, long cache writes at twice the input rate, and the total is their sum |
| `ShellLexers.LexQuoted` | packages/permissions/src/permissions.ts:162-186 | a single-quoted argument becomes one word with at most one, literal, part |
| `ShellLexers.LexingInvertsQuoting` | packages/permissions/src/permissions.ts:109-219 | quoted commands with any separators come back as exactly those commands |
| `ShellLexers.ArgumentsComeBack` | packages/permissions/src/permissions.ts:109-237 | each argument expands to itself, with the separator before its command |
| `ShellLexers.QuotedExpandsLiterally` | packages/permissions/src/permissions.ts:221-237 | a literal word expands to its text whatever variables are known |
| `ShellLexers.ExpandShellWord` | packages/permissions/src/permissions.ts:221-237 | the loop expands part by part and refuses what stays dynamic |
| `ShellLexers.ShellLexer.SkipHeredocBodies` | packages/permissions/src/permissions.ts:143-157 | the cursor ends behind the bodies of all pending here-documents |
| `ShellLexers.ShellLexer.ParseShellCommands` | packages/permissions/src/permissions.ts:109-219 | the loop terminates and returns the specified commands for every text |
| `Schemas.EntryIsSmaller` | packages/codemode/src/declarations.ts:284 | replacing an array-valued `type` by one entry makes the schema smaller, however nested |
| `Schemas.TypeOf` | packages/codemode/src/declarations.ts:251-308 | rendering terminates on every schema and never expands more than 32 references |
| `Schemas.SchemaContext.ToType` | packages/codemode/src/declarations.ts:251-308 | the mutable context gives the specified text and count, and `resolving` is restored, also on an exception |
| `Schemas.SchemaContext.ToObjectType` | packages/codemode/src/declarations.ts:327-355 | the loop over the sorted properties and the index signature give the specified text and count |
| `Schemas.KeysAscend` | packages/codemode/src/declarations.ts:330 | properties come in ascending order of their names by UTF-16 units, each once, none left out |
| `Schemas.RefFreeAnywhere` | packages/codemode/src/declarations.ts:251-355 | a schema without references renders to the same type everywhere at no cost |
| `Schemas.ReferenceIsInlined` | packages/codemode/src/declarations.ts:255-267 | a reference to such a schema renders as the schema itself |
| `Inlinings.InlineKeeps` | packages/codemode/src/declarations.ts:240-355 | wherever a schema is rendered, its type is that of the schema with all its references inlined, properties keeping their own descriptions, as long as the budget is not used up and no reference leads back to itself |
| `Inlinings.TypeIsInlined` | packages/codemode/src/declarations.ts:240-355 | the same for a whole schema; rendering the inlined one expands nothing |
| `Schemas.SelfReferenceIsUnknown` | packages/codemode/src/declarations.ts:255-267 | a reference that leads back to itself renders as `unknown` after one expansion |
| `Schemas.UnescapeInverts` | packages/codemode/src/declarations.ts:244 | unescaping in the order of section 4 of RFC 6901 gives every token back |
| `Schemas.OrderMatters` | packages/codemode/src/declarations.ts:244 | the other order would turn an escaped `~1` into a slash |
| `Schemas.PointerResolves` | packages/codemode/src/declarations.ts:240-249 | a pointer resolves to the schema its non-empty tokens lead to through objects, and to nothing else |
| `Schemas.AgreesWithStandard` | packages/codemode/src/declarations.ts:240-249 | without empty tokens it resolves as RFC 6901 says iff no array lies on the path, or the standard finds no schema behind it |
| `Schemas.AgreesExactly` | packages/codemode/src/declarations.ts:240-249 | any pointer resolves as RFC 6901 says iff it conforms at the first array or empty token on its path |
| `Schemas.EmptyTokenSetsApart` | packages/codemode/src/declarations.ts:243 | an empty token leading from anything without a member of that name sets code and standard apart iff the code finds a schema |
| `Schemas.EmptyTokenIsSkipped` | packages/codemode/src/declarations.ts:243 | an empty token is skipped, unlike in the standard |
| `Schemas.ArrayElementIsMissing` | packages/codemode/src/declarations.ts:245 | an array element is never found, unlike in the standard |
| `OffsetMaps.GreedyConsumesSubsequences` | packages/pi-web-search/src/content-format.ts:146-154 | the greedy match consumes the cleaned text exactly when it is a subsequence |
| `OffsetMaps.RemovedRuns` | packages/pi-web-search/src/content-format.ts:145-154 | the runs hold exactly the positions the greedy match dropped |
| `OffsetMaps.CleanOffsetMap.Map` | packages/pi-web-search/src/content-format.ts:158-165 | every offset goes to the count of kept positions before it, and is shifted outside the text |
| `OffsetMaps.MapIsMonotone` | packages/pi-web-search/src/content-format.ts:158-165 | the map never decreases and never stretches |
| `OffsetMaps.MapIsExact` | packages/pi-web-search/src/content-format.ts:137-167 | the end goes to the end and each kept character is found where the map says |
| `OffsetMaps.ExactlyWhenDistinguishable` | packages/pi-web-search/src/content-format.ts:131-136 | the map follows the actual deletion iff every deleted character differs from the next kept one |
| `OffsetMaps.EscapeBeforeItsOwnDigit` | packages/pi-web-search/src/content-format.ts:134-135 | stripping an escape sequence before a digit it contains shifts later offsets by one |

## Left out

- Agent: the object's scope and queues are held as values of the queue and scope types, whose own classes are proved separately; clearing a queue during a run, listeners that throw, `handleRunFailure` and `finishRun` are not modelled.
- AgentLoop: hooks that throw end the run as `Interrupted`; system prompts, model routing, step snapshots and execution observers do not affect the properties and are left out.
- AgentLoop: context arrays are values, so a hook that keeps and later mutates an array it was given is not modelled.
- RunAgentLoop: the number of provider `start` events is assumed to be at most one per response, as the stream protocol says.
- ToolCalls: an absent effect gate counts as open; `admitEffect` itself does not throw; how an error is classified as `confirmed` or `unknown` is an input.
- ToolCalls: the nested `runToolCall` path of orchestrating tools is not part of this model.
- ResourceScheduler: the constructor's check of `maxConcurrency` is its precondition.
- Json.RoundTrip: exponents in numbers and unpaired surrogates are not parsed, and numbers keep the decimal written instead of being rounded to binary.
- JournalWriter: times and file times are decimals, so `NaN` and infinities cannot be passed; opening, permissions and canonical paths of the journal file are not part of this model.
- JournalRecords: the categories Cc and Cf are spelled out as of Unicode 15, and paths follow POSIX.
- Publications: provider calls, credentials and the content of stored entries are inputs or left out; a job's update is one step even when it calls back.
- Connections: decoding frames is an input of each chunk, and settled promises run no code.
- Pricing: reading a price as a number and rounding it are abstract; the catalogs of other providers are left out.
- ShellLexers: text is a sequence of characters instead of UTF-16 units; the replacement of known variables is a parameter; delete policies built on the lexer are left out.
- Schemas: `maxChars`, tool signatures and doc comments are left out; members inherited from object prototypes are not found in the model.
- OffsetMaps: unpaired surrogates are left out.
- Inlinings.InlineKeeps: asks that not all 32 expansions are used, since only then it shows in the result that none was refused.
- RuntimeController: the terminal and the view are handlers whose behaviour is an input; actions dispatched before a `stop` are dropped as in the code.
