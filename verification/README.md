# Verification of the daemon orchestrator and its companions

This project models the parts of the GitHub-app orchestrator in which order,
failure and concurrency matter, and proves what they promise. One module stands for
one source file or one protocol. What the source does in place, on maps, tables or
fields, is a class here, and each of its methods is proved against a specification
on values; the results are lemmas about those values and about whole runs.

- **Ledger, Ownership, History, DaemonRegistry, ActiveDaemons**: the tables `daemons`, `executions`,
  `workflow_runs` and `scheduled_action_state` and the guarded statements that write
  them, and the Valkey keys of the daemon registry.
- **Lifecycle, Fencing, Guarantees, LedgerSafety, Reconnect, Steps, Progress, ConnectionHandler**: sockets that
  open, register, are superseded and close, as a transition system. A step is the code
  between two `await`s, which JavaScript runs to completion, or the effect of one
  awaited call; a call may take effect although its promise rejects. Every interleaving
  of registrations, disconnect cleanups, the reaper, late pongs, shutdown and the other
  writers of executions is a run.
- **ProtocolUpdate**: the same handlers with a clock, for the timers behind outdated
  daemons.
- **JobExecutor, Slots**: the daemon's execute and cancel race, and its composition
  with the orchestrator's concurrency counter.
- **RegExp, Glob**: the glob compiler, against the pattern grammar of section 22.2.1
  and the matching rules of section 22.2.2 of ECMA-262.
- **ParallelMap, Fetcher**: the bounded parallel map and the merge, filter and cap of
  pull-request comments.
- **ToolLoop**: the tool-use conversation with a model.
- **Quantity**: Kubernetes resource quantities.
- **Utf8Tail**: the tail of a Pod log within a byte budget, by section 3 of RFC 3629.
- **Migrations**: replicas that migrate one database under an advisory lock.
- **RunnerResources, RunnerDeletion**: the Pod and the Secret of a workflow attempt.
- **SpawnCooldown, WsClient**: the spawn cooldown and the reconnecting socket.
- **Basics**: shared types.

Two orderings of the runtime are relied on and are part of the models. The reaction
that drops a finished cleanup from its map runs before whoever awaited the cleanup,
because it was attached first. Between a scoped completion and its caller's clean-up
only microtasks run, so no cancel comes in between; `JobExecutor.CancelBeforeCleanupEndsTwice`
shows that the claim needs this.

Where a promise holds only under a condition, the condition is proved to be exact:
`Guarantees.StrandedIff`, `ActiveDaemons.PrunedAliveIff`, `Fetcher.MergeIsOwnIff`,
`Fetcher.CapIsExact`, `Fetcher.WhenOrderDoesNotMatter`, `Glob.OneLineIsExact`,
`ToolLoop.DispatchIsBounded` and `Ownership.DeactivateKeepsOwnedIff` are equivalences over
all inputs. Two of them describe what the code does not guard against:
`Guarantees.SecondRegistrationStrands` and `ActiveDaemons.RegistrationIsPruned` are runs that
end with a closed socket in `connections`, and with a live daemon missing from the index.

Each class states its invariant as `Valid()`; the methods that stand for an event require
and keep it, and those below them stand for the code between two awaits. What a
method or a step writes is stated field by field.

The comments at src/orchestrator/connection-handler.ts:249-267 call the shutdown and
drain functions dormant; src/orchestrator/ws-server.ts:339-344 calls them, and the code
is followed. The comment at src/orchestrator/history.ts:11-16 lists no arrow from queued
or offered to running by an isolated runner; the claim is modelled as one.

## Model

| member | source | states |
|---|---|---|
| Ledger.FailOwnershipWorkflows | src/orchestrator/history.ts:265-374 | Every workflow row after the transaction, in full: a live row of the daemon without an attempt becomes failed and orphaned with the given reason, its owner cleared exactly when asked; a running parent of such a row fails with the least step among its own failed children, -1 for a missing one; a failed row's completion time is the one it had, or now; every other row stays |
| Ledger.FailOwnershipRest | src/orchestrator/history.ts:265-374 | The other tables after the transaction, in full: an execution becomes failed, completed now, with the given reason and everything else as it was, exactly when it is queued, offered or running without an attempt and is the daemon's or carried by one of its failing workflows; exactly their locks are released; exactly the daemon's row is made inactive |
| Ledger.FailureReportIsExact | src/orchestrator/history.ts:355-374 | The returned execution and workflow ids are exactly the ids of the rows that changed, the workflows listed as the daemon's own are exactly its live ones, and it is reported as newly inactive exactly when it was active |
| Ledger.FailOwnershipLeavesNothing | src/orchestrator/history.ts:265-374 | Afterwards the daemon owns no queued or running workflow and no queued, offered or running execution without an attempt, and its row is inactive |
| Ledger.FailOwnershipIdempotent | src/orchestrator/history.ts:265-374 | A second run, for any reason and at any later time, changes no row and reports nothing |
| Ownership.OpKeepsOwned | src/orchestrator/history.ts:135-240 | Every statement that writes executions or daemon rows keeps each offered or running execution without an attempt with an active daemon and each queued one with nobody; the bare deactivation keeps it when the daemon has no assigned row |
| Ownership.DeactivateKeepsOwnedIff | src/orchestrator/daemon-registry.ts:90-106 | The registry's unconditional UPDATE keeps ownership if and only if the daemon has no assigned execution left, which is what the failing transaction before it secures |
| Ownership.OpFollowsArrows | src/orchestrator/history.ts:11-16 | A row that an operation changes tells which operation it was, from which status, and every field it wrote: only Complete reaches completed, only from running; a failed row carries the operation's own reason; nothing leaves completed or failed |
| Ownership.OpTakesEffect | src/orchestrator/history.ts:135-240 | And each operation on a row takes effect exactly under the guard of its statement |
| Ownership.OpWritesNothingElse | src/orchestrator/history.ts:135-240 | No operation on a row writes another row or table, a new row is queued and owned by nobody, and a daemon's two updates write its own row alone |
| Ownership.TerminalAbsorbs | src/orchestrator/history.ts:165-223 | Over every history a completed or failed execution is never written again |
| Ownership.FenceKeepsTerminalWorkflows | src/orchestrator/history.ts:265-374 | The transaction never touches a workflow that already ended |
| History.ExecutionStore.MarkExecutionOffered | src/orchestrator/history.ts:135-160 | A queued row of an active daemon becomes offered and the daemon's; an inactive daemon is told from a stale receipt, and both leave the table as it was |
| History.ExecutionStore.MarkExecutionFailed | src/orchestrator/history.ts:214-223 | Exactly a queued, offered or running row becomes failed, completed now, with the given message, and nothing else of it changes |
| History.ExecutionStore.RequeueExecution | src/orchestrator/history.ts:228-240 | Exactly an offered row goes back to the queue, without owner, and the answer says whether it did |
| History.ExecutionStore.FailedParentInputs | src/orchestrator/history.ts:297-303 | The GROUP BY loop: for each parent of a failed row, and no other, the minimum of its failed children's steps |
| History.ExecutionStore.FailDaemonOwnershipInTransaction | src/orchestrator/history.ts:265-374 | The statements, in their order, take the tables to exactly the specified ones and return the specified report; exactly the executions reported are failed, completed now, with the given reason, every other column as it was |
| History.ExecutionStore.FailDisconnectedDaemon | src/orchestrator/history.ts:376-397 | After a disconnect exactly the executions returned are failed with the disconnect message, and they are exactly the daemon's unfinished ones without an attempt and those its live workflows carry; the runs returned are exactly the workflow rows that changed, each failed with that message |
| History.ExecutionStore.RecoverStaleExecutions | src/orchestrator/history.ts:447-491 | The recovery loop makes exactly the stale rows failed, completed now, with the restart message, whatever order they come in: running ones started, and offered ones created, before the cutoff, without an attempt; it takes one job off the counter of each owner whose decrement takes effect, in order, and a failing decrement stops nothing |
| History.DecrEachClamps | src/orchestrator/daemon-registry.ts:177-184 | Repeated decrements of a daemon's counter take off one each and stop at zero |
| DaemonRegistry.CountersStayNatural | src/orchestrator/daemon-registry.ts:167-184 | No history of registrations, increments, decrements and key expiries takes a job counter below zero |
| DaemonRegistry.OverflowMeansSaturated | src/orchestrator/ephemeral-daemon-scaler.ts:55-58 | The overflow signal is raised exactly when the queue is long enough and no live persistent daemon has a free slot |
| DaemonRegistry.JobTakesASlot | src/orchestrator/daemon-registry.ts:218-238 | One more job on a daemon with room takes exactly one free slot off the sum, once for each time the daemon is counted |
| DaemonRegistry.Registry.SumFreeSlots | src/orchestrator/daemon-registry.ts:218-238 | The accumulated value is the sum of the spare slots of the readable, persistent daemons |
| ActiveDaemons.PrunedAliveIff | src/orchestrator/daemon-registry.ts:138-149 | With anybody's commands in between, the loop takes a daemon out of the index while its key is there if and only if the key was missing at the EXISTS and was set, for good, before the SREM |
| ActiveDaemons.RegistrationIsPruned | src/orchestrator/daemon-registry.ts:138-149 | Such a run: a daemon that registers again between the two commands ends alive and out of the index, and no later pong brings it back |
| ActiveDaemons.AliveWhenChecked | src/orchestrator/daemon-registry.ts:133-152 | What is returned is exactly the members that had a key when they were checked, each once |
| ActiveDaemons.UndisturbedIsExact | src/orchestrator/daemon-registry.ts:133-152 | When nobody else writes meanwhile, the members without a key leave the index and nothing else changes |
| ActiveDaemons.Valkey.GetActiveDaemons | src/orchestrator/daemon-registry.ts:133-152 | The loop over the members, one Valkey command at a time with anybody's commands in between, leaves the specified store and returns the specified daemons |
| Guarantees.ConnectedIsFenced | src/orchestrator/connection-handler.ts:145-192 | In every reachable state a connected daemon has no disconnect cleanup pending or running, its row is active and its liveness key set; heartbeats exist for exactly the connected daemons |
| Guarantees.LateCleanupIsHarmless | src/orchestrator/connection-handler.ts:222-244 | No step of an old cleanup, however late, changes a connection, or takes the row or the key of any connected daemon; its own daemon is neither connected nor past the gate of a registration |
| Guarantees.DeadSocketIsFenced | src/orchestrator/connection-handler.ts:428-434 | A socket that dies while its registration awaits storage is not installed, and a cleanup of its daemon is awaited before that registration ends |
| Guarantees.RegistrationsAreSerial | src/orchestrator/connection-handler.ts:307-326 | Registrations of one daemon run one at a time in arrival order, failed ones included, and the map holds the last one queued while any is unfinished |
| Guarantees.CloseActsIffInstalled | src/orchestrator/connection-handler.ts:145-176 | A close callback changes the connection maps exactly when its socket is the installed one; that of a superseded socket is inert |
| Guarantees.OutdatedIsNeverInstalled | src/orchestrator/connection-handler.ts:334-387 | A socket in the update transition, or of another protocol, is never the installed one |
| Guarantees.StrandedIff | src/orchestrator/connection-handler.ts:145-176 | In every state: a close callback leaves its socket behind in `connections` if and only if the socket holds a connection other than that of the daemon it answers for |
| Guarantees.StrandedAfterRun | src/orchestrator/connection-handler.ts:145-176 | The same equivalence for the callback after any run |
| Guarantees.SecondRegistrationStrands | src/orchestrator/connection-handler.ts:394-443 | For any two daemons there is a run that gets there: a socket registers for one, then for the other, and closes; the first stays in `connections` with a closed socket |
| Guarantees.NoStrandedSocket | src/orchestrator/connection-handler.ts:145-176 | A socket whose register messages name one daemon alone is never left behind, whatever the other sockets send |
| Progress.NeverStuck | src/orchestrator/connection-handler.ts:178-458 | In every reachable state each daemon with an unfinished registration or disconnect cleanup has a routine of its own that can take a step, or its row is locked by the reaper's transaction, which can end: no cycle of waits forms and no daemon waits for another |
| Progress.RegistrationCanMove | src/orchestrator/connection-handler.ts:307-392 | Following a daemon's queue back from any unfinished registration ends at a registration or a cleanup of that daemon that can move, or at its locked row |
| Fencing.NextKeepsInv | src/orchestrator/connection-handler.ts:145-458 | Every step of every routine keeps the queue, cleanup and fence invariants |
| Fencing.RunKeepsInv | src/orchestrator/connection-handler.ts:145-458 | The invariants hold after every run |
| LedgerSafety.StepOp | src/orchestrator/connection-handler.ts:145-458 | Which operation each lifecycle step performs on the tables, exactly: one execution of a reconnecting daemon's list failed with the reconnect message, the row upsert of a registration, the fencing with the disconnect message and the bare deactivation of a cleanup, the reaper's fencing with its own message, another writer's operation, and none otherwise |
| LedgerSafety.RunAbsorbs | src/orchestrator/connection-handler.ts:389-434 | Over every interleaving a terminal execution is never written again |
| LedgerSafety.OwnershipHolds | src/orchestrator/history.ts:135-397 | After every run whose failing transactions commit, each offered or running execution without an attempt belongs to a daemon with an active row, and each queued one to nobody |
| LedgerSafety.FencedUntilFinished | src/orchestrator/connection-handler.ts:222-244 | After every such run, from a cleanup's transaction to its last reaction, the daemon's row is inactive and every execution of its without an attempt has ended |
| Reconnect.SupersededSessionEnds | src/orchestrator/connection-handler.ts:394-427 | From the answer to the query for orphans on, over every run, a reconnecting daemon's registration writes no execution but those that were offered to the daemon or running on it; once its loop is over and no update was refused each of them has ended, by one of these steps with the reconnect message and that step's time, or by somebody else's |
| Reconnect.OrphanQueryStep | src/orchestrator/history.ts:423-437 | The query returns exactly the daemon's offered and running executions; with none the registration goes on, and a failing query ends it |
| Reconnect.OrphanFailStep | src/orchestrator/connection-handler.ts:415-426 | One turn of the loop takes its execution off the list whether or not the update succeeds, and the loop ends with the last one |
| Steps.RegistrationOrder | src/orchestrator/daemon-registry.ts:23-67 | Liveness key, index and row are written in this order, and a rejected call ends the registration even if it took effect |
| Steps.CleanupOrder | src/orchestrator/connection-handler.ts:222-244 | A failing transaction is passed over; then key, index and row in this order, the first rejected call ending the cleanup |
| Steps.StepKeys | src/orchestrator/daemon-registry.ts:90-106 | A liveness key is set only by its daemon's registration or a pong and deleted only by its daemon's cleanup, and exactly where their calls take effect |
| Steps.DeletedKeyStaysAway | src/orchestrator/connection-handler.ts:391-392 | Once a cleanup has deleted the key it stays away until the cleanup is over, whatever else runs, unless a late pong sets it: no registration of the daemon can |
| Steps.ReaperFences | src/orchestrator/liveness-reaper.ts:162-190 | The reaper locks a daemon's row only with its key missing; until its transaction commits no offer to the daemon can; it tells the daemon's socket to close and fences it with its own texts, owners kept |
| ConnectionHandler.Orchestrator.GetConnection | src/orchestrator/connection-handler.ts:126-128 | In a valid orchestrator a daemon that has a socket is active and alive, has a heartbeat, and no cleanup is after it |
| ConnectionHandler.Orchestrator.HandleRegister | src/orchestrator/connection-handler.ts:328-413 | The five ways to the first await keep the invariant; past the gate the daemon has neither a connection nor a pending cleanup |
| ConnectionHandler.Orchestrator.HandleRegistered | src/orchestrator/connection-handler.ts:428-458 | Keeps the invariant; a live socket becomes the connection of a daemon whose row is active, whose key is set and that no cleanup is after, and for a dead socket a cleanup is pending |
| ConnectionHandler.Orchestrator.HandleWsClose | src/orchestrator/connection-handler.ts:145-176 | Keeps the invariant; the close of an installed socket removes its daemon's connection, heartbeat, record and draining mark and leaves it a cleanup; that of any other changes none of them |
| ConnectionHandler.Orchestrator.FinishTransition | src/orchestrator/connection-handler.ts:318-326 | Keeps the invariant; the queue's entry is dropped exactly if no later registration has joined |
| ConnectionHandler.Orchestrator.FinishDisconnectCleanup | src/orchestrator/connection-handler.ts:186-190 | Keeps the invariant; afterwards no cleanup of the daemon is pending |
| ConnectionHandler.Orchestrator.HandleDraining | src/orchestrator/connection-handler.ts:587-604 | Exactly the daemon the socket was identified as is marked as draining |
| ConnectionHandler.Orchestrator.BeginDaemonConnectionShutdown | src/orchestrator/connection-handler.ts:268-273 | From any valid orchestrator the loop tells every connected socket to close, removes exactly the connections their sockets answer for, and leaves each of those daemons with a cleanup |
| ProtocolUpdate.ClosedOnTime | src/orchestrator/connection-handler.ts:334-387 | Over every timed run an outdated socket that is still open holds exactly one armed timer, and is closed within 5000 ms of registering, or within the drain timeout and 2000 ms of first acknowledging, itself within the 5000 ms |
| ProtocolUpdate.NoStrayTimer | src/orchestrator/connection-handler.ts:334-387 | A socket has an armed timer exactly while it is in the transition, and never two |
| ProtocolUpdate.RepeatsAreIgnored | src/orchestrator/connection-handler.ts:608-634 | A repeated acknowledgement or register of an open socket changes nothing |
| ProtocolUpdate.RunKeepsInv | src/orchestrator/connection-handler.ts:334-387 | The timer and deadline invariants hold after every run |
| ProtocolUpdate.RefinesLifecycle | src/orchestrator/connection-handler.ts:334-387 | The timed handlers leave the phases that the corresponding steps of the untimed lifecycle leave |
| ProtocolUpdate.ProtocolUpdates.HandleUpdateAcknowledged | src/orchestrator/connection-handler.ts:608-634 | Keeps the invariant; a socket in the transition has its one timer, due on time, and a repeated acknowledgement of an open socket changes nothing |
| JobExecutor.ExactlyOneTerminal | src/daemon/job-executor.ts:229-763 | For every interleaving of executions and cancels an offer gets at most one terminal message, exactly one once its execution ended or was cancelled, and the two maps hold the same offers at every await |
| JobExecutor.TerminalSaysWhatHappened | src/daemon/job-executor.ts:229-763 | Every terminal message of every run tells what the run's own events say of its offer: the fixed answers of a malformed payload and of a dry run; the reason of a cancel that came; or, of an uncancelled run, the outcome it settled with: success exactly if the pipeline returned success, else its fixed message or the thrown one, and a scoped job's kind with the status returned or failed |
| JobExecutor.SettlesOnce | src/daemon/job-executor.ts:368-455 | An offer's run settles at most once, so the outcome its message tells is the only one |
| JobExecutor.CancelBeforeCleanupEndsTwice | src/daemon/job-executor.ts:249-276 | Were a cancel handled between a scoped completion and its caller's clean-up, the offer would end twice: the argument rests on microtask order |
| JobExecutor.RunKeepsInv | src/daemon/job-executor.ts:229-763 | The accounting of maps and messages holds after every run |
| JobExecutor.Executor.ExecuteJob | src/daemon/job-executor.ts:229-320 | The messages of the synchronous part, exactly, for each kind of job: when it ends a malformed or dry-run offer has had its one report and any other none; the object stays where its history of events leads |
| JobExecutor.Executor.Settled | src/daemon/job-executor.ts:368-455 | An uncancelled run reports its outcome, exactly, and a cancelled one nothing more; either way the offer has had one report when it ends; the object stays where its history of events leads |
| JobExecutor.Executor.HandleJobCancel | src/daemon/job-executor.ts:706-763 | A tracked job is reported once, with the reason, and forgotten, and its workspace, if it has one, reclaimed; for any other nothing happens; the object stays where its history of events leads |
| Slots.ActiveCount.DecrementActiveCount | src/orchestrator/concurrency.ts:31-38 | One less, but never below zero |
| Slots.SlotsAreConserved | src/orchestrator/concurrency.ts:22-38 | activeCount is the number of claimed offers whose single terminal event has not released its slot, and the clamp never intervenes |
| Slots.ReceiveFindsSent | src/orchestrator/connection-handler.ts:702-738 | A terminal message that arrives is its offer's first: the payload was sent, the row is still running, and so it is not ignored |
| Slots.StepWrites | src/orchestrator/connection-handler.ts:875-933 | Who writes the pending offers, the count and the terminal rows, exactly: an offer is pending until it is withdrawn, accepted or answered by a result, and the count moves by one with an accepted offer and with a released slot |
| Slots.EveryEndIsHeard | src/orchestrator/connection-handler.ts:1455-1466 | An execution that ended and whose messages were received has its handler running or its slot released |
| Slots.IdleHoldsNoSlot | src/orchestrator/concurrency.ts:22-38 | When every claimed offer has been released no slot is held |
| Slots.RunKeepsInv | src/orchestrator/connection-handler.ts:875-933 | The fit of orchestrator phases, daemon runs and messages holds after every run |
| Glob.GlobToRegExp | scripts/check-test-globs.ts:68-91 | For every glob the emitted text parses, and for every path on one line it accepts exactly the glob's language; for any path at all, exactly the paths that split along the glob with the parts of a double star on one line |
| Glob.TextParses | scripts/check-test-globs.ts:68-91 | The text reads back as the terms that were meant: no literal becomes an operator and no operator a literal |
| Glob.PiecesMatch | scripts/check-test-globs.ts:68-91 | By ECMA-262 section 22.2.2 the meant terms match from a position exactly when the rest of the path splits along the pieces |
| Glob.DirectoriesEndInSlash | scripts/check-test-globs.ts:75-78 | Zero or more directories, each a segment and its slash, are exactly the empty text and the texts that end in a slash |
| Glob.OneLineIsNoRestriction | scripts/check-test-globs.ts:68-91 | For a path on one line the two readings of a glob agree |
| Glob.DottedIsSound | scripts/check-test-globs.ts:68-91 | Whatever the pattern accepts is in the glob's language, for any path |
| Glob.OneLineIsExact | scripts/check-test-globs.ts:68-91 | A path has no line terminator if and only if every glob's pattern agrees with the glob's language on it |
| RegExp.StarMatches | scripts/check-test-globs.ts:78-83 | A star over one-character nodes stops at any position up to which every character is accepted, whatever follows decides |
| ParallelMap.RefinesSequentialMap | src/core/fetcher.ts:396-417 | When all workers have returned, under any schedule, the results are those of mapping the function over the items, in input order |
| ParallelMap.ClaimedInOrder | src/core/fetcher.ts:406-410 | Under every schedule each index is claimed once, in input order |
| ParallelMap.InFlightIsBounded | src/core/fetcher.ts:403-404 | Calls in flight never exceed max(concurrency, 1), nor the number of items |
| ParallelMap.FullParallelism | src/core/fetcher.ts:403-415 | And there is a run in which exactly that many are in flight at once |
| ParallelMap.NothingIsLost | src/core/fetcher.ts:396-417 | When no worker can step, an index without a result means a worker threw |
| ParallelMap.Pool.TakeNext | src/core/fetcher.ts:406-410 | The head of a worker's loop takes the claim step and keeps the invariant |
| ParallelMap.Pool.Collect | src/core/fetcher.ts:413-415 | Once all workers of a valid pool have returned, the array is the function mapped over the items in input order |
| Fetcher.FetchPullRequest | src/core/fetcher.ts:456-585 | Comments are exactly the last `cap` of the wanted ones in order: not minimized, and neither created nor last edited at the trigger or later; review comments the last `cap` wanted ones of the merged pages, which are each review's own wherever ids tell the reviews apart; each flag is set exactly when its cap dropped something |
| Fetcher.FilterKeepsExactly | src/core/fetcher.ts:314-330 | Filtering adds, reorders and loses nothing: what satisfies the condition stays as often as it occurs |
| Fetcher.CapIsExact | src/core/fetcher.ts:376-388 | The cap keeps the newest items and reports exactly whether it dropped any if and only if it is positive or there is nothing to cap: with zero it drops nothing and reports it |
| Fetcher.FilterThenCapDominates | src/core/fetcher.ts:532-557 | Capping before filtering always leaves a suffix of what filtering first leaves |
| Fetcher.WhenOrderDoesNotMatter | src/core/fetcher.ts:532-557 | The two orders agree if and only if the tail is full of wanted items or nothing wanted is older |
| Fetcher.MergeIsOwnIff | src/core/fetcher.ts:517-530 | For every list of reviews: the merge gives each review its own pages, whatever the follow-up queries return, if and only if no overflowing review shares its id with another review |
| Fetcher.MergeIsOwn | src/core/fetcher.ts:517-530 | Where ids tell the reviews of a list apart the merge gives those of any part of it their own pages, in order |
| Fetcher.OverflowMap | src/core/fetcher.ts:517-525 | The loop maps each overflowing id to the follow-up pages of the last review that has it |
| ToolLoop.RunWithTools | src/ai/llm-client.ts:583-731 | The loop ends at a rejected request, at the first round trip that asks for no tool, or capped; capExceeded holds exactly when all maxIterations round trips asked; the messages are the given ones and then each turn with its answer; dispatched and dropped calls add up to the number of tool_use blocks of the turns that asked; text, model, stop reason and usage are those of the round trips made |
| ToolLoop.HistoryIsPaired | src/ai/llm-client.ts:616-698 | Every appended turn that asked for tools is followed by one user turn with one result for each position of its content that holds a tool_use block, in order and for that block's id: the tool's own answer or error within the cap, the drop notice beyond it; the given messages are untouched |
| ToolLoop.TurnAnswers | src/ai/llm-client.ts:672-698 | The content and error flag of each result: the handler's answer, its failure as an error text, or the drop notice with the cap |
| ToolLoop.ToolUsesAreAt | src/ai/llm-client.ts:633-635 | The filtered blocks are those at all the positions that hold a tool_use block, in order, none left out |
| ToolLoop.ToolUsesKeepMultiplicity | src/ai/llm-client.ts:633-635 | A tool_use block is kept as often as it occurs and no other block at all |
| ToolLoop.DispatchIsBounded | src/ai/llm-client.ts:655-656 | Dispatched calls are at most iterations times the cap if and only if the cap is not negative or there was no iteration: a negative cap counts from the end of each turn |
| ToolLoop.DispatchIsPartOfRequested | src/ai/llm-client.ts:655-698 | Dispatched calls never exceed the tool_use blocks answered |
| ToolLoop.AnswerTurn | src/ai/llm-client.ts:672-698 | The two loops build exactly the answering turn and count each block as dispatched or dropped |
| Quantity.CpuIsCanonical | src/config.ts:133-138 | A text is accepted with a value exactly when the value is a positive number of millicores not divisible by a million and the text is its canonical spelling |
| Quantity.BytesAreCanonical | src/config.ts:146-152 | The same for mebibytes, not divisible by 2^20 |
| Quantity.EqualValuesEqualTexts | src/config.ts:116-152 | Accepted texts of equal value are equal |
| Quantity.ThousandsEndIn000 | src/config.ts:136 | The string test on the digits is divisibility by a thousand |
| Quantity.DecimalOfValue | src/config.ts:133-152 | Printing the value of a mantissa gives the mantissa back |
| Quantity.ValueOfDecimal | src/config.ts:133-152 | Reading a printed number gives the number back |
| Quantity.ValidateRunnerResourceOrdering | src/config.ts:1106-1149 | The issues, path and message, are exactly those of the pairs of canonical texts whose request exceeds its limit, in the order cpu, memory, storage |
| Utf8Tail.BoundedTail | src/k8s/workflow-runner-postmortem.ts:101-108 | The result is the longest run of final characters whose encoding fits 16384 bytes, the whole text when that fits, and otherwise at most three bytes short of it |
| Utf8Tail.NextCharacter | src/k8s/workflow-runner-postmortem.ts:105-106 | From any byte the next character begins within three continuation bytes, and the character before begins earlier |
| Utf8Tail.DecodeEncoded | src/k8s/workflow-runner-postmortem.ts:102-107 | Decoding an encoding gives the characters back, so the result is well formed |
| Utf8Tail.ScalarsRepair | src/k8s/workflow-runner-postmortem.ts:102 | The characters encoded are those of the string with each lone surrogate replaced by U+FFFD and nothing else changed |
| Utf8Tail.ScalarsOfUnits | src/k8s/workflow-runner-postmortem.ts:102 | Reading the code units of any characters, by section 2.1 of RFC 2781, gives the characters back |
| Migrations.EachOnceInOrder | src/db/migrate.ts:26-100 | Under every interleaving, failure and lost session what a run executes continues the starting prefix along the list: a prefix is committed, each migration once and in order |
| Migrations.LockIsExclusiveAndReleased | src/db/migrate.ts:56-99 | At most one replica with its session works under the lock, every exit has given it up, and an exit without error leaves every migration applied |
| Migrations.HolderMovesOn | src/db/migrate.ts:56-99 | The holder always has a step of its own that brings it nearer its exit, so the lock is handed on |
| Migrations.NoFaultNoFailure | src/db/migrate.ts:56-99 | A replica whose own statements succeed and whose session is not ended never fails, whatever the others do and however their sessions end |
| Migrations.RunKeepsInv | src/db/migrate.ts:26-100 | The lock, prefix and position invariants hold after every run |
| Migrations.Session.RunMigrations | src/db/migrate.ts:56-99 | One replica under the lock: how far the list is applied, whether it fails, and that the lock is free at the end, for every way its statements may end and every point at which the server may end its session |
| RunnerResources.EnsureWorkflowRunnerResources | src/k8s/workflow-runner-spawner.ts:640-668 | From any cluster and for any answers a normal return leaves a Pod and a Secret of this attempt that are, field by field, what they must be, the Secret with this capability and owned by that Pod; a Pod found under the name that differs in any field is a permanent error before any Secret is written; a repeated call changes nothing; an unsafe configuration touches nothing |
| RunnerResources.EnsurePod | src/k8s/workflow-runner-spawner.ts:590-623 | Exactly the desired Pod is sent, and never over an existing one; created or found, it is returned only if API version, kind, name, namespace, labels, owners, boundary and the absence of anything else are right and it has a uid; any other difference is a permanent error, a Pod that is going away or has no uid a transient one |
| RunnerResources.EnsureSecret | src/k8s/workflow-runner-spawner.ts:407-463 | A Secret that differs in any field but the capability is a permanent error and never written, a right one is left alone, one with another capability is rotated and nothing else of it changed; what admission made of a write is checked field by field |
| RunnerResources.Keeping | src/k8s/workflow-runner-spawner.ts:420-427 | A stored Secret is accepted exactly if it is not going away, every field is right, and it holds the capability that was sent |
| RunnerResources.NamesCollideIff | src/k8s/workflow-runner-spawner.ts:185-194 | Two attempts share their resources' name if and only if their ids differ in letter case at most |
| RunnerResources.DigestPinnedIff | src/k8s/workflow-runner-spawner.ts:28 | An image is accepted if and only if it ends in a sha256 digest of 64 lower-case hexadecimal digits |
| RunnerResources.Classifying | src/k8s/workflow-runner-spawner.ts:625-638 | A rejected call is permanent exactly for a status from 400 to 499 other than 408, 409 and 429 |
| RunnerDeletion.OnlyValidatedIsRemoved | src/k8s/workflow-runner-spawner.ts:748-782 | Whatever others do between its calls, deletion removes only objects whose uid it read together with this attempt's exact metadata |
| RunnerDeletion.StrangersAreSpared | src/k8s/workflow-runner-spawner.ts:711-747 | A step of the deletion leaves an object that took the name meanwhile as it was |
| RunnerDeletion.NormalReturnSettles | src/k8s/workflow-runner-spawner.ts:748-782 | After a normal return what existed at the start is gone, or its deletion was accepted |
| RunnerDeletion.Deletion.ReadForDelete | src/k8s/workflow-runner-spawner.ts:725-761 | Keeps the invariant and deletes nothing; a delete follows only for the object it read, with this attempt's exact metadata |
| RunnerDeletion.Deletion.DeleteOwned | src/k8s/workflow-runner-spawner.ts:737-765 | Keeps the invariant; at most the object with the validated uid is doomed, every other stays as it was |
| SpawnCooldown.SpawnsAreApart | src/orchestrator/ephemeral-daemon-scaler.ts:47-126 | Over every run two reservations of which the earlier still stands are a cooldown apart, whatever order rollbacks arrive in |
| SpawnCooldown.CooldownIsExact | src/orchestrator/ephemeral-daemon-scaler.ts:66-69 | With a clock past the cooldown a signal is turned away exactly while a standing reservation is younger than the cooldown; otherwise it spawns, as heavy exactly for a heavy request |
| SpawnCooldown.RunKeepsInv | src/orchestrator/ephemeral-daemon-scaler.ts:47-126 | Order, distance and who holds the cooldown are kept by every run |
| SpawnCooldown.EphemeralScaler.Reserve | src/orchestrator/ephemeral-daemon-scaler.ts:47-113 | Decision and reservation in one stretch: reserved exactly on a spawn verdict with a complete configuration |
| WsClient.SocketOrTimer | src/daemon/ws-client.ts:77-267 | A started client that is not closed has exactly one of a live socket and an armed reconnect timer; its backoff is within 1 and 30 seconds |
| WsClient.ClosedForGood | src/daemon/ws-client.ts:77-267 | Once closed it stays closed, creates no socket, arms no timer, and has told whatever is alive to close |
| WsClient.BackoffStaysInRange | src/daemon/ws-client.ts:31-34 | The next backoff is between base and cap and at most the larger of the base and three times the previous one |
| WsClient.BackoffReaches | src/daemon/ws-client.ts:31-34 | The delays the jitter can lead to are exactly the base and every delay up to the cap below three times the previous one |
| WsClient.DaemonWsClient.HandleClose | src/daemon/ws-client.ts:150-180 | Keeps the invariant; no socket is left, a reconnect is armed exactly if the client is not closed, and an incompatible peer closes it and is reported once |
| WsClient.DaemonWsClient.Close | src/daemon/ws-client.ts:257-267 | Keeps the invariant; no timer is left and whatever is alive was told to close |

## Left out

- Ownership.OpKeepsOwned: the isolated runner's claim and the other writers outside history.ts are one nondeterministic operation each, because only their effect on the row matters.
- LedgerSafety.OwnershipHolds: assumes that the failing transaction of a cleanup commits; the source logs a failed one and deregisters all the same, and the property then ends, which `Ownership.DeactivateKeepsOwnedIff` makes exact.
- Guarantees.ConnectedIsFenced: the expiry of liveness keys by their time to live, and several orchestrators that share a daemon, are other timing models; one orchestrator process is modelled.
- Slots.SlotsAreConserved: no dropped connection, no failing storage call and no duplicate result, because disconnect cleanup does not touch the counter and a result is counted before its finality guard.
- Fetcher.FetchPullRequest: the projection of nodes to author, body and path, and the issue variant, only copy fields; caps are positive, as the configuration demands.
- Glob.GlobToRegExp: characters are code units other than surrogates; the compiler and the pattern treat each code unit by itself, so surrogates add nothing but cannot be written here.
- JobExecutor.ExactlyOneTerminal: offer ids are unique and `send` does not throw.
- Utf8Tail.BoundedTail: the decoder's substitution of malformed input is not modelled, because the input is proved well formed.
- LedgerSafety.StepOp: daemon ids are numbers that are only compared, so the workflow reason the reaper writes does not carry the daemon's id, as the source's does.
- RunnerResources.NamesCollideIff: letters outside ASCII keep their case in the name; attempt ids are hexadecimal.
- RunnerResources.EnsureSecret: the capability is taken as already encoded in base64.
- Migrations.LockIsExclusiveAndReleased: an unlock statement that fails on a live session is not modelled; nor is a lock granted to a live session whose answer is lost; a session that ends frees its lock.
- WsClient.BackoffStaysInRange: the random factor is a real number in [0, 1), not a floating-point one.
- RunnerResources.EnsureWorkflowRunnerResources: the parsing of the orchestrator URL and of the provider settings is a boolean, and a Pod's spec is one value compared whole.
- DaemonRegistry.CountersStayNatural: the commands of one registry function are one operation there; ActiveDaemons takes them apart where their order matters.
- Fencing.NextKeepsInv: the commands for a daemon's job counter and for the index of daemons are one step of a registration and of a cleanup, because no lifecycle step reads either.
- Heartbeat eviction: each ping re-arms the pong timer, so no deadline holds.
- Startup classification of a runner Pod, its post-mortem fields and the workflow reconcile loop.
- Metrics columns of executions, reactions and notifications, and every branch for a missing database.
- Daemon capacity: offers are accepted before a job is registered, so the number of active jobs is not bounded by it.
- The GitHub, model, Kubernetes, Postgres and Valkey clients, WebSocket framing and logging: each call is reduced to how it may end.
- Job dispatch, the queue, the reaper's scan and the runner store appear only as the writes they make.
