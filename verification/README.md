# Gollem: the turn engine and its services, in Dafny

Gollem is a framework for agents: a model is asked, it answers with text or tool calls,
the tools run, their answers go into the conversation, and the model is asked again. This
project models the parts whose promises hold only over whole runs, and proves them.

| module | what it models |
|---|---|
| `Transcript` | the conversation: requests, responses, calls, and when each call is answered |
| `ToolBatches`, `ToolCounters` | batching of function calls, their concurrent execution as interleaved steps, and the counters they share |
| `Responses`, `ResponseContents` | what one model response leads to: answers, deferred calls, retries, results, and what the answers say |
| `Compaction` | automatic compaction of a long conversation and the removal of orphaned results |
| `Engines`, `RunProperties`, `RunRequests` | the two implementations of a turn, their agreement, what every run keeps, and what it asks the model |
| `EngineObjects` | the same as classes whose methods update fields statement by statement, proved against `Engines` |
| `Steering`, `SteeredRuns`, `Trimming` | messages sent to a running agent: queue, hand-off, acknowledgement, rejection, and whole runs that are steered |
| `StableSort`, `StoredItems`, `SteerReplay`, `SteerOutcomes`, `CallNames`, `ReplayHistory` | stored items and their replay order, the stored side of steering, call ids, and rebuilding a conversation |
| `RevertCoordination`, `RevertExclusion`, `RevertProgress` | exclusion between workspace reverts and everything that starts a turn |
| `CacheKey`, `CacheKeyLaws`, `CacheKeyStandard`, `CacheKeyPayloads` | normalization of a request before it is hashed into a cache key, in general and under the repository's rules |
| `ResponseCache` | the in-memory cache with lazy expiry and the cached model |
| `Utf8`, `Truncation` | cutting text to a byte bound without breaking characters (sections 3 and 4 of RFC 3629) |
| `RequestScheduling`, `Approvals`, `ThreadUnloading` | slots and scope locks, approval rendezvous, idle unloading of threads |

Everything outside the program is a parameter. A model's replies, tool outcomes,
validators, hooks, cancellation and token estimates come as an oracle (`Turn`, `Delivery`,
`Oracle`), and a run is any finite script of them, so a statement about all scripts covers
every moment of every run. Concurrent code is a set of atomic steps, one for each mutex
section or channel operation, and statements hold for every interleaving.

Four promises turned out to hold only under a condition:

- When steering messages arrive together with an accepted output, the stream continues
  from that turn's history. With the early end strategy that history may hold calls that
  nothing answers (`core/stream.go` 762-773 with `core/agent.go` 1035-1037).
  `SteeredContinuation` gives the exact condition and `EarlySteerBreaksHistory` an instance.
- For the same reason, and when a run condition stops a turn that has calls, the history
  of a finished run cannot always be prompted again (`core/run_engine.go` 477-489, 511-519).
  `FinishedContinues` gives the exact condition, `StoppedRunBreaksHistory` and
  `EarlyRunBreaksHistory` an instance of either kind.
- A bounded argument list may exceed its limit: exactly when the argument that no longer
  fits is left less room than the marker needs (`BoundedArguments`), since a cut value is
  never shorter than the marker (`BoundedMetadata`). The summary of a process with a
  two-byte command and arguments of 1530 and 10 bytes is an instance (`SummaryOverruns`).
- Replayed tool calls do not always have ids of their own. `SameIdExactly` says when two of
  them share one, `NumberedIdClashes` gives an instance, and `OwnIds` the usual case.

Project layout: `dafny verify dfyconfig.toml` checks all modules together.

## Model

| member | source | states |
|---|---|---|
| `Transcript.PromptIsSendable` | core/run_engine.go:94-142 | any finished well-formed conversation plus a new prompt may be sent to a model |
| `Transcript.ExchangeIsSendable` | core/run_engine.go:511-548 | a response followed by a request answering each of its calls may be sent again |
| `Transcript.ReadsAppend` | core/message.go:200-220 | the calls and the text of a response are those of its parts, in order |
| `ToolBatches.BuildBatches` | core/agent.go:1155-1168 | the loop yields an order-preserving partition into maximal safe runs and single exclusive calls |
| `ToolBatches.BatchingUnique` | core/agent.go:1155-1168 | there is only one such partition |
| `ToolBatches.DoneHasNoFatal` | core/agent.go:1205-1279 | execution that ends well has met no fatal result |
| `ToolBatches.FatalIsFirst` | core/agent.go:1205-1279 | execution that breaks off reports the first fatal result |
| `ToolBatches.ScheduleSafe` | core/agent.go:1205-1279 | in every interleaving an exclusive call runs alone, starts only after all earlier calls have ended and lets none start before it ends; a safe batch stays within maxConcurrency; result i is call i's own |
| `ResponseContents.SafeFlagsAre` | core/agent.go:1157-1168 | whether a call may run beside others is what its tool says |
| `ResponseContents.ToolsScheduledSafely` | core/agent.go:1157-1279 | in every interleaving a call of an exclusive tool runs alone, all earlier calls ended and no later one begun, and at most maxConcurrency calls run at once |
| `ToolBatches.ScheduleMatchesExecute` | core/agent.go:1205-1279 | every interleaving ends with the sequential outcome, and nothing after a fatal batch starts |
| `ToolBatches.ScheduleProgress` | core/agent.go:1205-1279 | until the call has returned some step is possible |
| `ToolBatches.ScheduleEnds` | core/agent.go:1205-1279 | every interleaving ends: it has at most two moves per call, two per batch and one to return |
| `Responses.PickPartitions` | core/agent.go:930-943 | output, function and unknown calls together are exactly the response's calls |
| `Responses.OutputLoopCosts` | core/agent.go:959-1049 | every output call that is sent back costs a retry within the limit; in early mode a good one ends the loop |
| `Responses.OutputLoopAnswers` | core/agent.go:959-1049 | while the loop goes on each output call so far is answered once |
| `Responses.ToolAnswersPair` | core/agent.go:1066-1073 | answers and deferred requests match the function calls one to one |
| `ResponseContents.ToolAnswersTell` | core/agent.go:1066-1073 | the i-th answer is the tool return or retry prompt that the i-th undeferred call came to, with its content |
| `ResponseContents.DeferredCallsKept` | core/agent.go:1066-1073 | deferred calls are kept in their order |
| `Responses.CallsAnswered` | core/agent.go:926-1094 | unless an output was accepted early, answers plus deferred requests match all calls of the response one to one |
| `ResponseContents.ResponseTellsOutputs` | core/agent.go:945-1049 | the result is the first good output; the answers begin with the unknown and the output calls, each told how it was judged |
| `ResponseContents.ResponseTellsFunctions` | core/agent.go:1051-1081 | behind them stand the answers to the function calls in call order, each with its own content, and nothing else |
| `ResponseContents.EarlyResponseTells` | core/agent.go:1021-1037 | an output accepted early is the first good one, and the answers are those up to it |
| `ResponseContents.TextResponse` | core/agent.go:822-924 | text judged good is the result; otherwise the model is told why, or the run breaks for the reason at hand |
| `ResponseContents.TurnRecordsAnswers` | core/run_engine.go:511-519 | what a turn tells the model is the next message of its history |
| `ResponseContents.RetriesRunOut` | core/deferred.go:11-37 | running out of retries hints at an incomplete call exactly if the last response was cut off in a call that does not parse |
| `Responses.EarlyLeavesRest` | core/agent.go:1021-1040 | an output accepted early leaves exactly the later output calls and all function calls unanswered |
| `Responses.RetriesSpent` | core/agent.go:917-1081 | a turn that goes on without running a tool has used a retry within the limit, one that ran tools has a fresh allowance, and the tool-call limit is never overrun |
| `Responses.ContinuingTurnSpeaks` | core/agent.go:822-1094 | a turn that goes on always has something to say to the model, and it answers every call |
| `Responses.ResumeAnswersAll` | core/run_engine.go:94-142 | resuming with one result per deferred request gives a single next request that answers every call exactly once |
| `Responses.InjectJoins` | core/run_engine.go:108-142 | deferred results join the trailing request, or start one |
| `ResponseContents.ResumeReports` | core/run_engine.go:108-142 | a resumed conversation reports every deferred result in order with its content, a failed one as a retry prompt, behind what was already answered |
| `Compaction.StripOrphans` | core/autocontext.go:244-327 | the two loops rebuild the messages without results of absent calls |
| `Compaction.CompressSound` | core/autocontext.go:114-240 | compaction keeps a sendable history sendable, leaves no result without its call, and is adopted only when strictly shorter |
| `Compaction.CompressKeepsRecent` | core/autocontext.go:114-240 | a compacted history is the first message, the summary, and at least the last KeepLastN messages with every answer to a call still present |
| `Compaction.CompressesExactlyWhen` | core/autocontext.go:115-150 | a history is compacted exactly when it exceeds the limit, has a middle and a summary came, and adopted exactly when that middle held more than one message |
| `Compaction.CompressKeepsText` | core/autocontext.go:244-327 | every part of a kept request stays, or stays as an excerpt if its call is gone |
| `Engines.OpensAgree` | core/stream.go:385-587 | both engines open a turn alike: same checks, same request, same effective settings |
| `Engines.ClosesAgree` | core/stream.go:589-802 | both engines close a turn alike: same run, same signal, same effective settings |
| `Engines.EnginesAgree` | core/run_engine.go:216-569 | draining the stream and running Step to completion give the same history, usage, retries, step, events, requests, effective settings and outcome |
| `RunProperties.RequestsAreWellFormed` | core/run_engine.go:263-283 | before each model request of every run the history starts with a request, has no adjacent responses, and answers every call in the very next message |
| `RunRequests.RefusedTurn` | core/run_engine.go:218-233 | a turn under a cancelled context, a spent limit or a spent quota changes nothing and ends with that error, in this order |
| `RunRequests.AdmittedTurn` | core/run_engine.go:218-248 | every other turn starts |
| `RunRequests.RefusedRun` | core/agent.go:784-795 | a run that meets such a turn ends there, whatever would follow |
| `RunRequests.RequestHistory` | core/run_engine.go:263-283 | a request carries the history of the run, a shorter one exactly when compaction is due |
| `RunRequests.LastInputReported` | core/run_engine.go:406-409 | compaction goes by the last positive input that any reply of the run reported |
| `RunRequests.RequestChoice` | core/run_engine.go:251-429 | every request is made under the tool choice the run began with, and under auto once a kept response with calls has reset it |
| `RunProperties.RequestBudget` | core/usage.go:76-84 | with a request limit a run makes at most the limit minus the initial count of model requests, dropped responses included |
| `RunProperties.LimitedRunEnds` | core/run_engine.go:216-233 | a limited run given more turns than its budget has ended |
| `RunProperties.ToolCallBudget` | core/usage.go:106-113 | within the limit tool calls stay within it and the later check never trips; a run that starts beyond it ends at once, unchanged |
| `RunProperties.IdleTurnsBounded` | core/deferred.go:11-37 | in any stretch without a tool turn at most maxRetries turns continue the run |
| `RunProperties.UsageConserved` | core/usage.go:20-47 | a run's usage is its initial usage plus what every reply reported, dropped ones included, once each and in every field; requests are counted likewise |
| `RunProperties.StreamedUsage` | core/stream.go:598-603 | a streamed turn counts what its response reports, and what the stream collected only if that is nothing |
| `RunProperties.TurnChecksTokens` | core/usage.go:86-104 | a turn goes on or ends well only within the token limits, and a kept reply beyond one ends the run |
| `RunProperties.EndsWithinTokens` | core/run_engine.go:461-470 | a run that ends with an output or waiting for deferred results is within its token limits |
| `RunProperties.RunBalancesEvents` | core/run_engine.go:233-568 | TurnStarted and TurnCompleted alternate in every run and end balanced |
| `RunRequests.TurnIsReported` | core/run_engine.go:233-568 | a turn that starts is reported once, by its number, and as failed exactly if it ends the run with an error |
| `RunProperties.SteeredContinuation` | core/stream.go:762-773 | after an accepted output the history a steered run continues from may be sent if and only if the end strategy is not early or no call is left over |
| `RunProperties.EarlySteerBreaksHistory` | core/stream.go:762-773 | an output accepted early next to a function call is such a case |
| `RunProperties.FinishedContinues` | core/run_engine.go:477-519 | the history a run with an output leaves can be prompted again if and only if its last turn was not stopped by a run condition with calls, and did not accept an output early with calls left over |
| `RunProperties.StoppedRunBreaksHistory` | core/run_engine.go:477-489 | a run condition that stops a turn with text and a call is such a case |
| `RunProperties.EarlyRunBreaksHistory` | core/agent.go:1035-1037 | a run that ends on an output accepted early next to a function call is one |
| `RunProperties.WaitingRunResumes` | core/run_engine.go:94-142 | a run that ends waiting for deferred calls, resumed with one result per call, goes on from a history that may be sent |
| `SteeredRuns.SteeredRequests` | core/stream.go:589-802 | every history a steered run sends may be sent unless an earlier turn accepted an output early with calls left over and was steered on; then, without compaction, no later one may |
| `SteeredRuns.UnsteeredRunIsRun` | core/stream.go:846-868 | without messages a steered run is the run both engines agree on |
| `SteeredRuns.MessagesEnter` | core/stream.go:762-773 | messages enter the history behind every turn that did not fail, wait or meet a run condition, and the run goes on; behind the others they do not |
| `SteeredRuns.MessagesAreSent` | core/stream.go:846-868 | without compaction the next request ends with them |
| `EngineObjects.RunCounters.IncrementRetries` | core/deferred.go:11-37 | one more retry, and an error exactly when the limit is passed |
| `EngineObjects.RunCounters.AcceptOutputs` | core/agent.go:959-1049 | the loop over output calls does what `OutputLoop` specifies |
| `ToolCounters.SchedulesRefineRunJob` | core/agent.go:1137-1306 | however the calls interleave, the counters they update under the mutex end as the sequential specification says, with the schedule's own order of endings; so do verdict and results |
| `ToolCounters.ScheduleCounts` | core/agent.go:1291-1306 | at every moment of every interleaving the counted calls are those begun, and each started call that has ended has ended once |
| `ToolCounters.CountStaysWithinLimit` | core/agent.go:1053-1062 | since the whole response was admitted, the count never passes the tool-call limit at any moment |
| `ToolCounters.LandsOnce` | core/agent.go:1205-1279 | each call that is reached and not cancelled while waiting ends exactly once, no other call does |
| `ToolCounters.RetriesSinceSuccess` | core/agent.go:1546-1643 | a tool's counter is the number of retries it asked for since it last succeeded, whatever the order of endings |
| `ResponseContents.TurnTalliesRetries` | core/run_engine.go:491-548 | the counters of tools go from turn to turn: a turn that continues the run adds what its function calls came to, and nothing else changes them |
| `EngineObjects.RunCounters.ExecuteTools` | core/agent.go:1051-1081 | limit check, execution, parting and reset refine `RunTools` |
| `EngineObjects.SortCalls` | core/agent.go:930-943 | the loop parts the calls as `Pick` does |
| `EngineObjects.AnswerUnknown` | core/agent.go:951-956 | one retry prompt per unknown call |
| `EngineObjects.PartResults` | core/agent.go:1066-1073 | the loop parts answers and deferred calls as specified |
| `EngineObjects.RunCounters.ProcessResponse` | core/agent.go:825-1094 | the imperative processResponse equals `Process`, about which the laws above are proved |
| `EngineObjects.TurnEngine.OpenTurn` | core/run_engine.go:216-400 | Step up to the reply: checks, tool choice kept in shared settings, compaction, request |
| `EngineObjects.TurnEngine.CloseTurn` | core/run_engine.go:400-569 | Step from the reply on, statement by statement |
| `EngineObjects.TurnEngine.Step` | core/run_engine.go:216-569 | Step skips dropped responses and advances the run toward its one fate |
| `EngineObjects.TurnEngine.RunToEnd` | core/agent.go:784-795 | runLoop reaches that fate |
| `EngineObjects.AgentStream.OpenTurn` | core/stream.go:385-587 | startTurn, statement by statement, has the specified effect on the stream's fields |
| `EngineObjects.AgentStream.CloseTurn` | core/stream.go:589-802 | completeTurn, statement by statement, has the specified effect |
| `EngineObjects.AgentStream.BeginTurn` | core/stream.go:385-587 | opening keeps the events alternating, and a turn is open exactly if it did not fail |
| `EngineObjects.AgentStream.EndTurn` | core/stream.go:589-802 | closing keeps the events alternating, and an open turn is left only to finish |
| `EngineObjects.AgentStream.Next` | core/stream.go:208-242 | reading changes nothing about where the stream will end, and always ends |
| `EngineObjects.AgentStream.Close` | core/stream.go:323-337 | Close before the end completes an open turn and fails the run; after the end it changes nothing |
| `EngineObjects.AgentStream.Result` | core/stream.go:339-357 | Result reads to the end that `Drain` describes |
| `EngineObjects.AgentStream.FinishRun` | core/stream.go:804-817 | finish closes an open turn once, so that events stay balanced |
| `EngineObjects.StartKeepsLively` | core/stream.go:385-587 | opening a turn keeps the events alternating, failures included |
| `EngineObjects.CompleteKeepsLively` | core/stream.go:589-802 | closing a turn keeps the events alternating, failures included |
| `Steering.SteerQueue.Enqueue` | core/steer.go:49-73 | trimmed text is queued, or refused: empty, closed, full |
| `Steering.SteerQueue.Take` | core/steer.go:79-97 | everything queued is handed over; an empty terminal take closes the queue in the same section |
| `Steering.SteerQueue.Shut` | core/steer.go:132-149 | closing hands over what is left, once |
| `Trimming.TrimSpaceTrims` | core/steer.go:49-73 | what is trimmed is white space, and what is left neither begins nor ends with it |
| `Trimming.TrimmedAway` | core/steer.go:49-73 | nothing is left exactly of a blank text |
| `Steering.SteerProtocol` | core/stream.go:804-888 | over every interleaving each accepted message has at most one outcome, exactly one once the stream is done; history follows the order of acceptance; a closed queue is empty |
| `Steering.ClosedIsFinal` | core/steer.go:49-97 | once closed, nothing is accepted any more, so nothing is lost between the terminal take and the end |
| `Steering.AcknowledgedEntered` | core/stream.go:846-888 | an acknowledged message is in the history |
| `Steering.AcknowledgedWasSent` | core/stream.go:568-579 | a message is acknowledged if and only if its hook accepted it, and only after a model request that carried it was made |
| `Steering.GivenUpIsRejected` | core/stream.go:568-579 | what a failed request, preparation or hook, a deferral or the end gives up is rejected by the end and never acknowledged |
| `Steering.RejectedWasGivenUp` | core/stream.go:869-888 | only what was given up is rejected |
| `Steering.HistoryWasPrepared` | core/stream.go:846-868 | a message is in the history if and only if its batch was prepared |
| `Steering.DeferralIsFinal` | core/stream.go:732-761 | once a turn waits for deferred input nothing is accepted and no request is made |
| `Steering.AcceptedOutputIsFinal` | core/stream.go:762-773 | a request that follows an accepted output carries a message: without one the output is the last word |
| `Steering.CanFinish` | core/stream.go:804-888 | every run can be continued, without further producers, until the stream is done and each accepted message has its one outcome |
| `StoredItems.ReplayOrderSorts` | appserver/runtime_history.go:139-150 | replay order is a permutation of the items in which none ranks below one in front of it |
| `StoredItems.ReplayOrderPlaces` | appserver/runtime_history.go:139-167 | and it is stable |
| `SteerReplay.ConsumptionBoundary` | appserver/runtime_steer.go:199-229 | the boundary is the largest sequence number of the turn's items |
| `SteerReplay.ReplayFollowsConsumption` | appserver/runtime_steer.go:131-258 | in every reachable state a consumed steer's boundary is at least its own number; replay puts it after every other item up to the boundary, before every item beyond it, and consumed steers in the order they were accepted |
| `SteerOutcomes.BoundaryDividesTime` | appserver/runtime_steer.go:199-258 | a consumed steer's boundary divides time: what was stored when its batch was prepared is up to it, everything stored later is beyond it |
| `SteerOutcomes.OutcomeIsFinal` | appserver/runtime_steer.go:131-258 | a steer marked as consumed, with its boundary, or as failed stays so to the end of the turn |
| `ReplayHistory.CompactionWindow` | appserver/thread_compact.go:120-128 | everything from the last compaction item on, or everything |
| `ReplayHistory.BoundedReplay` | appserver/runtime_history.go:34-77 | the optional compaction head plus the longest suffix that fits 512 items and 4 MiB with it |
| `ReplayHistory.RuntimeMessages` | appserver/runtime_history.go:79-137 | sorting into replay order, then the loop, build the specified messages, with every call answered in the next message |
| `ReplayHistory.ReplayedHistory` | appserver/server.go:1735-1748 | what a new turn is told: window, what fits of it, replay order and messages together |
| `ReplayHistory.HistoryFollowsConsumption` | appserver/runtime_history.go:79-167 | in the rebuilt history a consumed steer's message stands behind those of every non-steer item up to its boundary and before those of every item beyond it, for every reachable turn and every window |
| `ReplayHistory.SteersSpeakInOrder` | appserver/runtime_history.go:139-167 | the messages of consumed steers stand in the order of acceptance |
| `ReplayHistory.CollectParents` | appserver/runtime_history.go:169-178 | the loop collects exactly the ids of the replayed tool calls |
| `ReplayHistory.BuildIsAnswered` | appserver/runtime_history.go:188-222 | whatever is stored, each call is answered in the very next message |
| `ReplayHistory.BuildSplits` | appserver/runtime_history.go:79-137 | each item's messages stand together, between those of the items before and behind it |
| `ReplayHistory.HistoryShowsItem` | appserver/runtime_history.go:188-222 | a tool item becomes one response with its one call, immediately followed by one request with that call's one answer under the same id; a user's or the system's words a request with that part, the assistant's a response with that text; anything else nothing |
| `ReplayHistory.HistoryNamesCall` | appserver/runtime_history.go:188-247 | the exchange of a tool item stands under the id that the numbering gives it; its own, if the tool items have safe ids, each its own |
| `CallNames.SameIdExactly` | appserver/runtime_history.go:224-247 | two replayed calls share an id exactly when names numbered alike agree up to the cut, or one is the first of a name that reads like the other with its number |
| `CallNames.NumberedIdClashes` | appserver/runtime_history.go:224-247 | the last two of items "a", "a" and "a_2" are such a case |
| `CallNames.OwnIds` | appserver/runtime_history.go:224-247 | items with safe ids, each its own, are replayed under those ids |
| `CallNames.UnnamedApart` | appserver/runtime_history.go:224-237 | stored items without ids are named by their numbers, so different ones differently |
| `CallNames.IdsAreSafe` | appserver/runtime_history.go:505-525 | every id has 1 to 64 of the characters that providers accept |
| `ReplayHistory.ChildShownUnlessParentIs` | appserver/runtime_history.go:169-186 | a command, file change or MCP item is shown exactly when its parent tool call is not replayed |
| `RevertExclusion.RevertsExcludeTurns` | appserver/workspace_revert_coordination.go:45-111 | while a granted reservation is held no turn is queued or running and no lease is out; there is at most one; no unlocked mutex is ever unlocked; a finished request holds nothing |
| `RevertExclusion.GrantedWhenQuiet` | appserver/workspace_revert_coordination.go:89-111 | a reservation is granted exactly when the turns could be listed and none is queued or running |
| `RevertExclusion.AdmittedWithoutReservation` | appserver/workspace_revert_coordination.go:45-88 | a lease, or a reservation to be, is given exactly when there is no reservation |
| `RevertExclusion.ReservationEnds` | appserver/workspace_revert_coordination.go:89-111 | dropping a reservation leaves none behind and the coordinator free |
| `RevertExclusion.RecordedEndIsInactive` | appserver/runtime.go:276-372 | a turn whose end is recorded no longer stands in the way of a revert; no other turn changes |
| `RevertExclusion.FailedStartIsInactive` | appserver/runtime.go:179-249 | nor does one whose failure to start is recorded |
| `RevertExclusion.ReservationSurvives` | appserver/workspace_revert_coordination.go:68-111 | a granted reservation survives every step of anybody else, late releases included, and keeps excluding turns |
| `RevertExclusion.MarkedOnlyUnderLock` | appserver/runtime.go:374-412 | a marked context is used only while its request holds the coordinator and the start mutex the marks tell of, although the marks outlive the locks |
| `RevertExclusion.NestedAcquireIsIdle` | appserver/server.go:782-809 | Start called under thread/start's lease neither locks nor waits, and its own release unlocks nothing |
| `RevertExclusion.OnlyHoldersUnlock` | appserver/thread_compact.go:50-67 | nobody else's step takes a mutex or the reservation away from its holder, whichever closures are called late or again |
| `RevertExclusion.SecondReleaseIsIdle` | appserver/thread_shell_command.go:88-110 | the second call of a release closure changes no shared state |
| `RevertExclusion.OnlyLeasesActivate` | appserver/runtime.go:179-249 | a turn becomes active only by a step of the request that holds the coordinator, without a reservation |
| `RevertProgress.ShutdownIsFinal` | appserver/runtime.go:442-470 | once a service is shutting down and none of its turns is left, none ever runs again |
| `RevertProgress.DrainedStaysDown` | appserver/runtime.go:442-470 | when Shutdown has seen its service drained, no turn of it is left and none ever runs again |
| `RevertProgress.LeaseStartsTurn` | appserver/runtime.go:179-249 | under its lease, in a service that is not shutting down, Start gets one new turn running |
| `RevertProgress.NoDeadlock` | appserver/runtime.go:385-412 | a request that waits for nobody can step; the coordinator's holder always can; a start mutex's holder can, or waits for the coordinator, or, in Shutdown, for a turn that can end; nobody waits for itself |
| `CacheKey.StandardRulesLawful` | modelutil/cache_key.go:213-271 | the repository's key rules meet the conditions the laws below ask for |
| `CacheKey.SortCanonical` | modelutil/cache_key.go:309-362 | sorted arrays depend only on their members |
| `CacheKeyLaws.Idempotent` | modelutil/cache_key.go:116-211 | normalizing twice is normalizing once |
| `CacheKeyLaws.OrderForgotten` | modelutil/cache_key.go:196-211 | the order of required, enum and tool arrays does not matter |
| `CacheKeyLaws.MetadataForgotten` | modelutil/cache_key.go:213-248 | dropped metadata leaves no trace |
| `CacheKeyLaws.SpellingForgotten` | modelutil/cache_key.go:272-302 | JSON kept in a string counts by value, not by spelling |
| `CacheKeyLaws.ArgumentsLoseMetadata` | modelutil/cache_key.go:185-194 | metadata keys are dropped inside the JSON text of a call's arguments too, so the normal form is not injective |
| `CacheKeyLaws.Congruent` | modelutil/cache_key.go:134-211 | values with one normal form can be exchanged anywhere in a request |
| `CacheKeyLaws.Distinguishes` | modelutil/cache_key.go:134-211 | values with different normal forms keep whole requests apart, at any depth; a string does where its key neither holds JSON nor is a type tag |
| `CacheKeyLaws.ToolOutputKeptApart` | modelutil/cache_key.go:134-194 | requests with different content in one tool result have different normal forms |
| `CacheKeyLaws.ToolOutputTellsApart` | modelutil/cache_key.go:116-211 | any two requests with different tool-return content at the same place, reached through kept fields and unsorted arrays, have different normal forms, whatever else differs |
| `CacheKeyLaws.NormalKeepsPlaces` | modelutil/cache_key.go:116-211 | what stands at such a place stands there in the normal form, normal |
| `CacheKeyStandard.FoldAppend` | modelutil/cache_key.go:373-376 | folding goes character by character |
| `CacheKeyStandard.FoldIsPlain` | modelutil/cache_key.go:373-376 | a folded key has no separator and no upper-case letter |
| `CacheKeyStandard.FoldKeepsRest` | modelutil/cache_key.go:373-376 | nothing else is lost |
| `CacheKeyStandard.StandardMetadataForgotten` | modelutil/cache_key.go:213-242 | "tool_call_id", "requestID" and "created_at" leave no trace in a request |
| `CacheKeyStandard.StandardIdForgotten` | modelutil/cache_key.go:250-261 | the id of a tool call leaves none either |
| `CacheKeyStandard.PlainIdKept` | modelutil/cache_key.go:243-261 | any other id is kept |
| `CacheKeyStandard.StandardOrderForgotten` | modelutil/cache_key.go:309-348 | the order of required and enum lists of scalars and of named function tools does not matter |
| `CacheKeyStandard.StandardSpellingForgotten` | modelutil/cache_key.go:263-289 | the spelling of the JSON in "args_json" and "arguments" does not matter |
| `CacheKeyStandard.StandardPropertiesKept` | modelutil/cache_key.go:134-151 | under "properties" and "$defs" every key is kept |
| `CacheKeyStandard.StandardToolOutputTellsApart` | modelutil/cache_key.go:134-178 | under the repository's rules different content in {"type":"tool-return","data":{"content":...}} at the same kept place gives different normal forms |
| `CacheKeyPayloads.PayloadsToldApart` | modelutil/cache_key.go:60-83 | so any two requests, as they are written for hashing, that differ in the content of a tool result have different normal forms, whatever else differs |
| `CacheKeyPayloads.StandardMessageMetadataForgotten` | modelutil/cache_key.go:213-242 | "timestamp", "usage", "model_name" and "finish_reason" leave no trace |
| `CacheKeyPayloads.StandardContentLosesMetadata` | modelutil/cache_key.go:134-160 | content is verbatim in tool results only: elsewhere metadata in it leaves no trace |
| `CacheKeyPayloads.StandardSettingTellsApart` | modelutil/cache_key.go:134-160 | requests that differ in a setting such as "model" or "temperature" have different normal forms |
| `CacheKeyPayloads.MixedArrayKeepsOrder` | modelutil/cache_key.go:309-348 | an array with a member that is no scalar, or no object, keeps its order |
| `ResponseCache.MemoryCache.Get` | modelutil/cache.go:75-88 | finds the last response stored under the key, unless expired, whatever was deleted lazily before |
| `ResponseCache.MemoryCache.Set` | modelutil/cache.go:90-97 | adds one entry to the log of stored responses |
| `ResponseCache.CachedRequest` | modelutil/cache.go:123-143 | one request with nothing in between: the model is asked exactly when nothing live is stored or no key exists, and a failed request stores nothing |
| `ResponseCache.LookupIsLastLive` | modelutil/cache.go:75-88 | a lookup succeeds if and only if the last entry under the key is no older than the time to live, and gives that entry |
| `ResponseCache.HitWasAnswered` | modelutil/cache.go:123-143 | however requests interleave between lookup, answer and store, a hit returns what the model answered to an earlier request with that key, stored no longer ago than the time to live |
| `ResponseCache.HitExactlyWhen` | modelutil/cache.go:123-143 | in every interleaving a request returns from the cache exactly when the last response stored under its key is no older than the time to live |
| `ResponseCache.AnswerIsKept` | modelutil/cache.go:123-143 | an answer to a keyed request is about to be stored, or has been stored and returned |
| `ResponseCache.FailureStoresNothing` | modelutil/cache.go:123-143 | in every interleaving a request whose model call failed never stores |
| `Truncation.RuneStartPrefix` | appserver/runtime_tool_items.go:288-296 | on valid text, the longest valid prefix within the limit |
| `Truncation.RuneStartSuffix` | appserver/runtime_mcp_tools.go:434-443 | on valid text, the longest valid suffix within the limit |
| `Truncation.DecodingPrefix` | appserver/runtime_process_tools.go:447-459 | the same longest valid prefix, found by decoding |
| `Truncation.LongestPrefixUnique` | appserver/runtime_process_tools.go:447-459 | so decode-and-retry equals stepping back to a rune start |
| `Truncation.BoundedToolOutput` | appserver/runtime_tool_items.go:274-287 | valid text within 64 KiB: the input, or longest head, marker, longest tail |
| `Truncation.BoundedMcpText` | appserver/runtime_mcp_tools.go:409-424 | the same for a given limit, with the cases of no limit and of a limit smaller than the marker |
| `Truncation.BoundedMetadata` | appserver/runtime_process_tools.go:358-368 | longest head and marker; within the limit if and only if the value is or the marker is |
| `Truncation.BoundedArguments` | appserver/runtime_process_tools.go:370-388 | within the limit if and only if the argument that no longer fits, if any, leaves room for the marker; the arguments in front are kept |
| `Truncation.SummaryOverruns` | appserver/runtime_process_tools.go:306-313 | arguments of 1530 and 10 bytes beside a two-byte command exceed what the summary leaves them |
| `Truncation.HeadTail` | core/truncate.go:41-56 | the two cuts fall on line breaks where there are some and on characters always, and never overlap |
| `Truncation.HeadTailValid` | core/truncate.go:41-64 | on valid text they give the longest valid head and tail within the line cuts |
| `Truncation.TruncateToolOutput` | core/truncate.go:30-65 | untouched within budget; otherwise head, marker, tail with 60% of the budget for the head and the rest for the tail; neither overlap fallback is reached; valid text stays valid |
| `Truncation.AppendOutput` | appserver/runtime_command_items.go:222-233 | what one chunk adds to the output |
| `Truncation.ShowChunk` | appserver/runtime_command_items.go:110-149 | a capped item and an empty event change nothing; otherwise the output covers one more chunk |
| `Truncation.CommandOutput` | appserver/runtime_command_items.go:110-149 | over any chunks: within 64 KiB, the longest valid part of the chunks, each made valid, that leaves room for the marker, which comes once, last, exactly when something is missing |
| `Truncation.SplitDoesNotMatter` | appserver/runtime_command_items.go:222-233 | if no event but the last ends inside a character, the text is that of all the bytes, however they were split |
| `Truncation.SplitInsideMatters` | appserver/runtime_command_items.go:222-233 | a split inside a character does matter |
| `Utf8.ValidCut` | core/truncate.go:49-56 | valid text cut at a rune start gives two valid texts |
| `Utf8.ValidMeansEncoded` | appserver/runtime_process_tools.go:447-459 | valid bytes are exactly the encodings of character sequences (section 3 of RFC 3629) |
| `Utf8.ToValidReplaces` | appserver/runtime_command_items.go:110-149 | a run of bytes in which no character begins gives way to one replacement character |
| `RequestScheduling.SchedulerIsSafe` | appserver/scheduler.go:41-93 | at most `limit` leases are outstanding, each frees its slot at most once and has done so when finished, and two leases of a scope never run together |
| `RequestScheduling.FreeingNeverBlocks` | appserver/scheduler.go:75-82 | taking the token back never blocks |
| `RequestScheduling.RefusedWhenFull` | appserver/scheduler.go:41-56 | a request is refused exactly when `limit` leases are outstanding |
| `RequestScheduling.NoScopeDeadlock` | appserver/scheduler.go:58-72 | a lease inside Run can take its own next step, or waits for its scope's lock and then the lease that holds it can |
| `RequestScheduling.RunStepsTerminate` | appserver/scheduler.go:58-72 | every step of Run leaves less to do |
| `RequestScheduling.AllGetThrough` | appserver/scheduler.go:41-93 | from any reachable state all leases inside Run can be brought to their end, without cancelling any, with their slots free |
| `Approvals.ApprovalsAreSafe` | appserver/approval.go:227-340 | over every interleaving a request is decided and its verdict sent at most once, and a returned verdict is that one |
| `Approvals.DecidedOnce` | appserver/approval.go:227-340 | a decision stands through the rest of the run |
| `Approvals.ApprovedWasAnswered` | appserver/approval.go:251-340 | a caller returns with approval only if a client gave an approving answer to its very request; a command's answer must have been offered |
| `Approvals.SendNeverBlocks` | appserver/approval.go:387-433 | the resolving send never blocks, even if the caller has gone |
| `Approvals.NoLostResponse` | appserver/approval.go:387-433 | a waiting caller can still be answered, is about to be, or can return |
| `Approvals.SkipsOnlyGranted` | appserver/approval.go:435-447 | after any run a file change skips the prompt if and only if it has targets and each was a target of a file change that a response of that run accepted for the session |
| `ThreadUnloading.LiveTimer` | appserver/thread_discovery.go:170-231 | a timer is live if and only if the thread has been idle since the unsubscribe that armed it; stale timers never are |
| `ThreadUnloading.ThreadTable.Consistent` | appserver/thread_discovery.go:129-231 | subscribed threads are loaded, and the armed timers are exactly those of loaded, unsubscribed threads |
| `ThreadUnloading.ThreadTable.MarkLoaded` | appserver/thread_discovery.go:129-144 | each thread stays where its own history puts it |
| `ThreadUnloading.ThreadTable.MarkUnloaded` | appserver/thread_discovery.go:146-155 | each thread stays where its own history puts it |
| `ThreadUnloading.ThreadTable.UnsubscribeThread` | appserver/thread_discovery.go:170-185 | its answer tells whether the thread was loaded and subscribed |
| `ThreadUnloading.ThreadTable.ExpireIdle` | appserver/thread_discovery.go:212-231 | closes the thread if and only if it has been idle since this very timer was armed, so the nested checks always pass |

## Left out

- Transports, method dispatch, parameter decoding, the filesystem, git, process and MCP services: plumbing over code this model does not contain.
- The durable store: taken by its contract only (item numbers grow, items are listed in that order, turns have a status).
- Crash recovery of file-change reverts: its guarantees live in the store.
- Provider calls, summary texts, prompt templates, hooks, interceptor bodies, guardrails, tracing, cost, timestamps and run ids: oracle values or absent.
- Reflection-based schemas and typed output decoding: `Judgement` is what parsing, repair and validation came to.
- encoding/json: a parameter of the cache-key model, with two laws asked of it (decoding undoes encoding; strings inside decoded JSON are shorter than the string that held them). Key folding lowers ASCII letters only. SHA-256 is left out: laws are about what is hashed.
- Non-ASCII truncation markers: markers are parameters required to be ASCII, as the source's are; the wording is not modelled.
- CompressSound: asks for KeepLastN of at least 1, as WithAutoContext arranges; below that the source indexes out of range.
- TruncateToolOutput: the product of MaxTokens and 4 is not wrapped at 64 bits.
- IdsAreSafe: the hash that shortens a long identifier is a parameter with 16 safe characters.
- HitWasAnswered: responses are values, so a caller that changes a cached response through its pointer is not seen.
- RunBatches: executes the calls by their sequential specification; SchedulesRefineRunJob proves that every interleaving has its counters and outcome. Reading a retry counter at the start of a call, for the tool to see, and the longer wording of a retry beyond the tool's own maximum are not modelled.
- Events: of TurnCompleted only the turn and whether it failed are modelled; tool events and the stale response reported after a mid-stream failure are not.
- AgentStream: Close reports a cancelled context as the run's error; the other errors a caller may see from the provider's own Close are not modelled. It is the stream without a steer queue; the steered stream is the protocol in Steering.
- SteerReplay, RevertCoordination, RequestScheduling, Approvals: state machines on values instead of classes with mutexes, so that every interleaving is a sequence of steps; repeated client ids of steers, turn cancellation and notifications on approval responses, and messages of denied approvals are not modelled. A lease is run at most once, as its callers do.
- MarkedOnlyUnderLock: every start comes from a connection, which is a coordinator; a notifier that is none (appserver/runtime.go 378-381) starts without the lock and is not modelled.
- CacheKey: the source fills maps and sorts arrays in place; here the result is a function of the input, and aliasing of decoded values is not captured.
- boundedRuntimeProcessStream, thread search and pagination, settings merging, catalogs and daemon status: only easy members.
