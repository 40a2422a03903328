# Models of the maivn SDK's stateful cores

The SDK keeps most of its difficult logic in a few places: interleaved tool calls that feed one another,
a stream handed across threads, a durable queue behind a file watcher, exact string positions, graph
transformations, and several small protocols. Each has a model here and theorems about all of its runs
or inputs. `dafny verify dfyconfig.toml` checks the whole project.

## How the models are built

* **Protocols are transition systems.** A datatype holds the state, `Enabled` and `Step` say what may
  happen next, and the theorems quantify over every run from the initial state. A step is never longer
  than what the source does between two awaits (or, across threads, between two points where another
  thread can act), so every interleaving of the source is a run of the model.
* **Objects that change in place are classes** with the source's fields. Each method's contract equates
  the object's new `Snapshot()` with a step of the transition system, which carries the theorems over.
  Loops are loops; each is proved against a specification function, and the lemmas are about that function.
* **Code that awaits** is written as one method from its first statement to its last. What other threads or
  coroutines do at the points where they can get in between is a field, `turns`, any lists of their actions
  whatever; the contracts hold for all of them, and the object only goes through reachable states.
* **Steps are told twice**: by the specification function that the code is proved against, and by theorems that
  speak of values, keys, positions and labels alone and name no such function, so that neither rests on the other.
* **Values that are only stored and compared** (tool results, arguments, bodies) are opaque numbers.

| files | what they model |
|---|---|
| `tool_catalog`, `revision_paths` | declared tools and edges; every path of a dependency revision |
| `tool_feeding`, `tool_plan` | which tools can be fed at all, and from a cycle among them to a plan of calls |
| `tool_runtime`, `runtime_frames`, `runtime_progress`, `runtime_wakeups`, `runtime_deadlock`, `runtime_hang`, `planned_results`, `revision_isolation`, `revision_history`, `local_tool_runtime` | the local tool runtime: reservation, completion events, input rounds, revisions |
| `input_rounds`, `dependency_lookup`, `runtime_arguments`, `call_records`, `revision_admission`, `revision_root` | what one call of the runtime asks, reads, publishes and leaves on record |
| `stream_bridge`, `stream_outcomes`, `stream_closing`, `stream_exceptions`, `stream_bridge_object` | an async producer, a blocking generator and its close, over a queue of one |
| `file_watch`, `quiet_period`, `first_scan`, `watch_returns`, `event_sequence`, `local_file_watcher` | the watcher's volatile candidates over its transactional journal |
| `json_pointer`, `placeholder_text`, `restoration_rebase`, `private_restorations`, `restoration_pointers`, `substitution_effects`, `event_hydration`, `cut_spans`, `bracket_tokens`, `scanned_tokens`, `key_lookup`, `named_values` | placeholder substitution with exact provenance |
| `schema_references`, `schema_pruning`, `schema_meaning` | pruning unused definitions from a JSON Schema |
| `tool_graph`, `tool_references`, `tool_inheritance`, `tool_outcomes`, `tool_graph_compiler` | depth-first compilation of a tool graph, counted references, dependency lists shared with base classes |
| `claim_reports`, `claim_loop` | the work loop's lease reports under cancellation, its rounds and its keep-alive |
| `local_tool_pump`, `pump_deliveries`, `pump_endings`, `stream_pump` | replay suppression, batches, callbacks and uploads around local calls |
| `private_workspace`, `workspace_texts` | reversible placeholders for editable source values |
| `span_lifecycle`, `span_events` | the OpenTelemetry adapter's spans |

## Results that are not what the documentation suggests

Where a property fails in the code, the code is modelled as it is, a lemma exhibits the failure, and another
says exactly when the property holds.

* A planned result is final once its holder returned, but an *extra* call of the same tool that fails
  writes a failure that later consumers read first: `FailingExtraCallPoisonsConsumer` shows it. A filled key
  is refused if and only if its failure was on record at the fill or an ordinary call of its tool failed
  since: `OnlyFailingExtrasPoison`.
* A *cancelled* holder keeps its reservation, so the key can never be filled afterwards:
  `CancelledHolderKeepsKey`.
* Some run of the tool runtime hangs if and only if callable tools can come to wait for one another in a
  cycle, where every dependency ahead of the one waited for is bound to an earlier turn's result (which takes
  a conversation-scoped dependency and a conversation) or fed by a tool that can itself return:
  `HangsIffCycle`. A cycle behind a dependency that nothing can feed does not hang: `BlockedCycleHangsIff`. A
  state is stuck exactly when every unfinished call waits on an unset event (`StuckIffAllWait`), and then tools
  of calls in flight depend on one another in a cycle (`StuckHasCycle`).
* Compiling a tool graph appends an inferred dependency to the list its class reads, and a subclass without a
  list of its own reads its base's. So two siblings can end up with one fed by the other's model:
  `SharedListMisleads`. Classes read only what their own fields infer if and only if no list to which a
  dependency is added is shared: `OnlyInferredIff`, `SharedIffAlone`.
* Rebasing a restoration span that cuts a placeholder loses its text in general: `CutSpanMoves` is an
  instance. Any span keeps its text exactly under `KeepsTextIff`, whose condition, for a span that cuts two
  tokens, still speaks of the resolved text between them; for one whose end cuts the one token it meets,
  exactly when the cut part is how the value and what follows begin (`CutEndKeepsTextIff`), for one whose
  start does, exactly when the value is as long as the token and ends alike (`CutStartKeepsTextIff`).
* The work loop asks for one claim per pass (`max_fires=1`). A server that hands over more than it was asked
  for loses the ones behind the current claim when that one is cancelled: `SecondClaimIsDropped`;
  `StoppedLoopOwesOnlyTheQueue` says that the loop owes those and no others.

## Model

| member | source | states |
|---|---|---|
| `RuntimeProgress.NoDeadlock` | src/maivn/_internal/tool_runtime.py:301-315 | with acyclic declared dependencies, in every reachable state an unfinished call leaves some call able to step by itself |
| `RuntimeProgress.UnsetEventIsHeld` | src/maivn/_internal/tool_runtime.py:502-532 | an unset completion event is always held by an unfinished call of that very key, also after an input round replaced the event |
| `RuntimeWakeups.WokenBehindFinishedCall` | src/maivn/_internal/tool_runtime.py:683-700 | in every reachable state a call can be woken only when a call of the tool it waits for, which feeds the dependency it is at and held that event, has finished |
| `RuntimeProgress.EverySchedulingFinishesEveryCall` | src/maivn/_internal/tool_runtime.py:240-508 | however the steps interleave, there are boundedly many of them and when none is left every call has finished |
| `RuntimeProgress.ProgressIsBounded` | src/maivn/_internal/tool_runtime.py:607-700 | the number of steps a set of frames can still take never exceeds their remaining work |
| `RuntimeDeadlock.StuckIffAllWait` | src/maivn/_internal/tool_runtime.py:650-700 | a reachable state has no step of any call left if and only if every unfinished call waits on an unset completion event |
| `RuntimeDeadlock.StuckHasCycle` | src/maivn/_internal/tool_runtime.py:650-700 | whenever a reachable state is stuck with a call unfinished, tools of calls in flight depend on one another in a cycle |
| `RuntimeDeadlock.HangHasCycle` | src/maivn/_internal/tool_runtime.py:650-700 | whenever some run hangs, tools can come to wait for one another in a cycle: each reaches the dependency the next one feeds, as all those ahead of it can be met |
| `RuntimeHang.CycleHangs` | src/maivn/_internal/tool_runtime.py:650-700 | whichever tools are called at all, a cycle in which each tool can come to wait for the next has a run after which a call of each waits for ever |
| `RuntimeHang.HangsIffCycle` | src/maivn/_internal/tool_runtime.py:650-700 | the exact condition: a catalogue has a run that hangs if and only if its callable tools can come to wait for one another in a cycle; where an id and a name are those of two callable tools, a sufficient and a necessary cycle |
| `RuntimeHang.BlockedCycleHangsIff` | src/maivn/_internal/retained_dependencies.py:36-63 | a cycle behind a dependency on an unregistered tool hangs if and only if there is a conversation to bind it to an earlier result |
| `ToolFeeding.LeastFeed` | src/maivn/_internal/tool_runtime.py:637-700 | the tools that can return form the least set closed under feeding, and can be called in an order in which each finds what it needs |
| `ToolPlan.CyclePlan` | src/maivn/_internal/tool_runtime.py:637-700 | every cycle of waiting tools gives a plan: tools that can finish first without those that wait, and tools that then all come to wait for one another |
| `RuntimeDeadlock.RankedNeverHangs` | src/maivn/_internal/tool_runtime.py:650-700 | a rank that drops along every declared dependency excludes every hang |
| `PlannedResults.ArrivalOwnsExactlyFreeKeys` | src/maivn/_internal/tool_runtime.py:302-321 | of a dependency-fed key at most one call is the holder, and an arriving call whose retained bindings are accepted becomes it exactly when nobody is, so a failed holder frees it for exactly one retry |
| `PlannedResults.PlannedResultIsFinal` | src/maivn/_internal/tool_runtime.py:372-390 | once the holder has returned a value no later call, in any run, changes the key's result |
| `PlannedResults.ConsumerReceivesPlannedResult` | src/maivn/_internal/tool_runtime.py:690-700 | a consumer woken on a fed key receives the very value a holder returned, or fails |
| `PlannedResults.OnlyFailingExtrasPoison` | src/maivn/_internal/tool_runtime.py:483-489 | after the fill a key is refused to consumers if and only if its failure was on record at the fill or an ordinary call of its tool ended in an error since |
| `PlannedResults.FailingExtraCallPoisonsConsumer` | src/maivn/_internal/tool_runtime.py:483-485 | a reachable state in which the planned value is there and its consumer fails all the same, because an extra call failed |
| `PlannedResults.CancelledHolderKeepsKey` | src/maivn/_internal/tool_runtime.py:483-508 | once the holder of a fed key was cancelled, in no later state of any run is the key filled, held by another call, or there to be received |
| `InputRounds.LaterDecisionAsksAgain` | src/maivn/_internal/tool_runtime.py:510-532 | over all runs: a call of a tool that asks a human forgets the last answer and holds a new completion event if and only if no earlier call of the tool came from the same model decision and that answer is complete; else it joins what is there, and other tools keep everything |
| `DependencyLookup.TurnedAwayIff` | src/maivn/_internal/tool_runtime.py:262-286 | a call of an unknown or privileged tool, or one the server has yet to bind, changes nothing; any other gets a frame |
| `DependencyLookup.ForeignBindingFails` | src/maivn/_internal/retained_dependencies.py:36-63 | one binding that is not for an argument whose last declaration is conversation-scoped, from its producer and this conversation, fails the call as it arrives; with none it goes on |
| `DependencyLookup.DependencyIsFound` | src/maivn/_internal/tool_runtime.py:671-689 | a producer is looked for under its id, then its name; one that was called is waited for, one that was not lets the others go first once, and then a result of an earlier turn does or the call fails |
| `DependencyLookup.LooksTwice` | src/maivn/_internal/tool_runtime.py:669-689 | over all runs a frame that has let the others go first for a dependency had looked for that very one before, so no call fails for an uncalled dependency at its first look |
| `DependencyLookup.WokenReads` | src/maivn/_internal/tool_runtime.py:690-700 | behind the event a failure wins over a result, and without either the call fails |
| `RuntimeArguments.OneRunsPerLane` | src/maivn/_internal/tool_runtime.py:534-600 | in every reachable state no two running calls have the same serialized owner |
| `RuntimeArguments.AnswerReachesItsArgument` | src/maivn/_internal/tool_runtime.py:628-636 | a human's answer goes to the very argument asked for, a supplied argument is not asked for and stays, and a missing answer fails the call |
| `RuntimeArguments.TargetHasItsArguments` | src/maivn/_internal/tool_runtime.py:607-648 | a target only starts with all its human-supplied and dependency arguments, and gets what was supplied unless a dependency feeds it |
| `CallRecords.ReturnPublishes` | src/maivn/_internal/tool_runtime.py:372-390 | what a returned target leaves under its key and no other: only a call that holds the key publishes its value or takes it away by a skip, also when it then fails late; the first value stays the invocation's base |
| `CallRecords.FailureIsLeft` | src/maivn/_internal/tool_runtime.py:483-489 | a call that fails before its target notes the failure, hands its key back and touches no other |
| `CallRecords.OthersLeaveNothing` | src/maivn/_internal/tool_runtime.py:483-508 | a revision changes nothing of what ordinary calls share, and a cancelled call only sets its event |
| `CallRecords.FinishedCallIsRecorded` | src/maivn/_internal/tool_runtime.py:859-876 | a call that ends leaves exactly its record: its arguments once it was through its dependencies, its failure or none; a failing revision writes over no other record, and one that fails after it has published stays recorded as done |
| `CallRecords.RecordsAreOutcomes` | src/maivn/_internal/tool_runtime.py:859-876 | over all runs every record is of a call that ended just so, and every call that ended, unless cancelled, is on record |
| `RevisionIsolation.RevisionsDoNotInterfere` | src/maivn/_internal/tool_runtime.py:287-508 | deleting every dependency revision from any run leaves a run with the same results, failures, reservations, events, base bindings and ordinary frames |
| `RevisionIsolation.RevisionReadsOwnBranch` | src/maivn/_internal/tool_runtime.py:671-700 | a value a revision receives was published by its own branch or by an ordinary call of its invocation, never by a revision for another root |
| `RevisionHistory.RevisionHistoryIsLinear` | src/maivn/_internal/tool_runtime.py:702-779 | per invocation, root and tool the published generations have distinct call ids, each replaces the one its parent names, the last is in force, and at most one is in flight, its claim held exactly while it is |
| `RevisionHistory.GenerationsChain` | src/maivn/_internal/tool_runtime.py:390-399 | the chain property from any sound state, with the call ids used so far |
| `RevisionHistory.AdmissionIsAuthorized` | src/maivn/_internal/tool_runtime.py:744-760 | on every simple path from an admitted revision to its root every edge is opted in and every participant a model constructor |
| `RevisionHistory.AdmittedReplacesVisible` | src/maivn/_internal/tool_runtime.py:761-779 | an admitted revision replaces the branch binding if there is one, else the base binding, else, for the root's own tool only, the failed root call |
| `RevisionHistory.RunKeepsBase` | src/maivn/_internal/tool_runtime.py:378-390 | the first base binding of an invocation and key never changes |
| `RevisionRoot.RevisedRootGoesOnIff` | src/maivn/_internal/tool_runtime.py:834-857 | in every reachable state, behind its last dependency an admitted revision of its failed root's own tool goes on if and only if some dependency argument is there on one side only or has another value than the root had accepted, else it ends refused for that reason; a revision of another tool goes on |
| `RevisionAdmission.AdmittedIff` | src/maivn/_internal/tool_runtime.py:702-779 | a revision is admitted if and only if its id is new, its lineage known, its root a validation failure, its parent a call of this tool, the way to the root supported and opted in, the parent the value in force and the claim free; a refusal names the first of these that fails |
| `RevisionAdmission.RevisionArrives` | src/maivn/_internal/tool_runtime.py:287-300 | all that an arriving revision changes: an admitted one starts from its supplied arguments and holds its claim, a refused one has ended and leaves a record under its id if there was none |
| `RevisionAdmission.OwnBranchComesFirst` | src/maivn/_internal/tool_runtime.py:658-668 | a revision never waits: it takes its own branch's value, else the first of its invocation, the tool id's before the tool name's, and fails where there is neither |
| `RevisionPaths.Search` | src/maivn/_internal/tool_runtime.py:790-811 | the recursive search returns all admissible walks and only those, and terminates on cyclic graphs |
| `RevisionPaths.Paths` | src/maivn/_internal/tool_runtime.py:781-816 | rejection exactly when no path reaches the root, else exactly the revision paths |
| `RevisionPaths.PathsAreSimplePaths` | src/maivn/_internal/tool_runtime.py:781-816 | what the search enumerates is exactly the simple paths of declared edges |
| `RevisionPaths.Judge` | src/maivn/_internal/tool_runtime.py:744-760 | the verdict over the searched paths is the verdict over all revision paths |
| `LocalRuntime.LocalToolRuntime.OutcomeForEvent` | src/maivn/_internal/tool_runtime.py:240-332 | an arriving event changes the object exactly as the arrival step |
| `LocalRuntime.LocalToolRuntime.ValidatedRetained` | src/maivn/_internal/retained_dependencies.py:36-63 | the loop over the retained bindings accepts them exactly when each is for an argument declared conversation-scoped, from this conversation and that dependency's producer |
| `LocalRuntime.LocalToolRuntime.PrepareCall` | src/maivn/_internal/tool_runtime.py:316-328 | foreign bindings fail the call before anything else is prepared |
| `LocalRuntime.LocalToolRuntime.StartInputRound` | src/maivn/_internal/tool_runtime.py:510-532 | a later model decision resets a finished key once, a sibling of the same batch does not, everything else stays |
| `LocalRuntime.LocalToolRuntime.ArriveOrdinaryCall` | src/maivn/_internal/tool_runtime.py:301-315 | reservation and event of an ordinary call, as the arrival step |
| `LocalRuntime.LocalToolRuntime.RevisionContext` | src/maivn/_internal/tool_runtime.py:702-779 | the admission checks in their order: the refusal is the first failing one, the claim is taken only on admission |
| `LocalRuntime.LocalToolRuntime.ArriveRevisionCall` | src/maivn/_internal/tool_runtime.py:287-300 | admission or refusal of a revision, as the arrival step |
| `LocalRuntime.LocalToolRuntime.TargetReturned` | src/maivn/_internal/tool_runtime.py:372-508 | publication, late failure and settlement, as the return step |
| `LocalRuntime.LocalToolRuntime.PublishCall` | src/maivn/_internal/tool_runtime.py:372-399 | results, base binding or branch binding of a returned target |
| `LocalRuntime.LocalToolRuntime.FailCall` | src/maivn/_internal/tool_runtime.py:483-508 | failure note, released reservation, record, claim and event of a failed call |
| `LocalRuntime.LocalToolRuntime.SettleCall` | src/maivn/_internal/tool_runtime.py:502-508 | claim discarded and held event set, whatever the outcome |
| `LocalRuntime.LocalToolRuntime.LookUpDependency` | src/maivn/_internal/tool_runtime.py:637-648 | the loop over the dependencies up to its next await, as the lookup step: the target is reached behind the last one |
| `LocalRuntime.LocalToolRuntime.ToolDependencyResult` | src/maivn/_internal/tool_runtime.py:669-700 | for an ordinary call: yield once, wait for the event, read the ledgers, fall back to a retained value, or fail, as the specified lookup |
| `LocalRuntime.LocalToolRuntime.LookUpForRevision` | src/maivn/_internal/tool_runtime.py:658-668 | for a revision: its branch, its invocation's base, or failure, and the root check behind the last dependency |
| `LocalRuntime.LocalToolRuntime.DependencyResultKey` | src/maivn/_internal/tool_runtime.py:878-888 | the loop over both spellings finds the first that has a result, a failure or an event |
| `LocalRuntime.LocalToolRuntime.RevisionDependencyResult` | src/maivn/_internal/tool_runtime.py:658-668 | the two loops find the branch binding under either spelling, else the base binding under either |
| `LocalRuntime.LocalToolRuntime.RequireRevisedRootDependency` | src/maivn/_internal/tool_runtime.py:834-857 | refused if and only if the revision reuses the root's call id or, for the root's own tool, every dependency argument is as the root had accepted it |
| `LocalRuntime.LocalToolRuntime.EventSet` | src/maivn/_internal/tool_runtime.py:690-700 | a woken frame receives the result, or fails, as the wake-up step |
| `LocalRuntime.LocalToolRuntime.ReadResult` | src/maivn/_internal/tool_runtime.py:693-700 | the read behind a completion event: a failure wins over a result, and a key with neither fails the call |
| `LocalRuntime.LocalToolRuntime.InputAnswered` | src/maivn/_internal/tool_runtime.py:628-636 | the next human-supplied argument, as the answer step: a supplied one is not asked for, a missing answer fails the call |
| `LocalRuntime.LocalToolRuntime.EnterTarget` | src/maivn/_internal/tool_runtime.py:534-600 | a serialized owner's lane is taken while its target runs |
| `LocalRuntime.LocalToolRuntime.CancelCall` | src/maivn/_internal/tool_runtime.py:502-508 | a cancelled frame gives up claim, lane and event and nothing else |
| `StreamBridge.TakenIsPrefixOfSource` | src/maivn/_internal/api/async_stream.py:89-173 | in every reachable state what the consumer took is a prefix of what the source yielded, and the queue holds at most one item |
| `StreamBridge.PlainEndIsComplete` | src/maivn/_internal/api/async_stream.py:146-173 | a consumer that reaches a plain end has received every event of a source that ran to its end |
| `StreamBridge.NeverBothBlocked` | src/maivn/_internal/api/async_stream.py:121-144 | no wake-up is lost: producer and consumer are never both blocked, and a producer parked without a signal faces a full queue, a signal on its way, or a close that will cancel it |
| `StreamBridge.WaitingConsumerIsServed` | src/maivn/_internal/api/async_stream.py:89-206 | in every run, beside a waiting consumer the bridge is open, the producing side can always go on, and after at most seven of its actions and the wake-ups on their way, the source's answers included, the queue holds an item |
| `StreamBridge.CloseIsNeverMissed` | src/maivn/_internal/api/async_stream.py:95-119 | a close that races the start-up stops the coroutine before it pulls, or cancels it, and never leaves it parked for good |
| `StreamBridge.StepKeepsInv` | src/maivn/_internal/api/async_stream.py:79-181 | every action of every thread keeps the bridge's invariant |
| `StreamOutcomes.StreamEndsAsTheSource` | src/maivn/_internal/api/async_stream.py:146-181 | over all runs: when the producing side of an open bridge has finished, exactly what the source yielded has been handed over in order, and the first item that is no event is a failure if and only if the source raised, could not be created or was never started, else the plain end |
| `StreamClosing.SourceIsClosedOnce` | src/maivn/_internal/api/async_stream.py:163-173 | in every run a created source has been closed exactly once when the coroutine is over, however it ended, and never twice |
| `StreamClosing.WakesAreEarned` | src/maivn/_internal/api/async_stream.py:121-144 | in every run the coroutine never wakes more often than its signal was set, nor is it set more often than items were taken |
| `StreamClosing.ClosedBridgeEnds` | src/maivn/_internal/api/async_stream.py:95-181 | from a close on the producing side takes at most ten more actions, and it can go on until it has finished unless it waits for a source that was told of the cancellation |
| `StreamClosing.ConsumerStopsAtTheEnd` | src/maivn/_internal/api/async_stream.py:196-206 | the consumer of an open bridge takes events until it stops, and stops only at an item that is no event |
| `StreamExceptions.FallsBackIffEscaped` | src/maivn/_internal/api/async_stream.py:146-181 | in every run the worker offers a failure of its own if and only if an exception left the coroutine, which one the source raised while it was pulled never does |
| `StreamExceptions.ClosesAndCancelsOnce` | src/maivn/_internal/api/async_stream.py:95-119 | in every run the close is its three actions and no more, one cancellation at most reaches the coroutine, and it is interrupted at most that often |
| `StreamExceptions.ConsumerGoesRound` | src/maivn/_internal/api/async_stream.py:89-93 | until it stops the consumer takes an item, looks for the signal, sets it and asks again, each exactly once a round |
| `StreamExceptions.OnePutBehindClose` | src/maivn/_internal/api/async_stream.py:102-144 | once the close is requested, at most one more item is put, by the coroutine and the worker together: the one whose check came before it |
| `StreamExceptions.ClosedLoopIsLeft` | src/maivn/_internal/api/async_stream.py:115-129 | over all runs nothing is posted to a loop that is over, and nothing runs on it |
| `StreamBridgeObject.Bridge.CancelDrain` | src/maivn/_internal/api/async_stream.py:110-119 | whatever the worker does meanwhile, afterwards no coroutine is parked without a signal and the consumer takes nothing more |
| `StreamBridgeObject.Bridge.EnqueueFromAsync` | src/maivn/_internal/api/async_stream.py:131-144 | the whole loop, under any interference: the item is handed over exactly once if the result is true, and not at all if the bridge was closed or the wait cancelled |
| `StreamBridgeObject.Bridge.DrainEvents` | src/maivn/_internal/api/async_stream.py:159-162 | how the loop over the source is left: by its end or a closed bridge, or by an exception |
| `StreamBridgeObject.Bridge.CloseSource` | src/maivn/_internal/api/async_stream.py:163-173 | failure, close and sentinel in this order; an exception in any of them leaves the coroutine only after the sentinel was offered |
| `StreamBridgeObject.Bridge.Drain` | src/maivn/_internal/api/async_stream.py:146-173 | the coroutine ends normally exactly where the protocol finishes, and raises exactly where the worker's fallback begins |
| `StreamBridgeObject.Bridge.EnqueueFromWorker` | src/maivn/_internal/api/async_stream.py:102-108 | the fallback hands its item over, or gives it up only because the bridge is closed |
| `StreamBridgeObject.Bridge.Run` | src/maivn/_internal/api/async_stream.py:175-180 | whatever fails, the worker does not end before an item that ends the stream was handed over, unless the bridge is closed; if starting or creating failed, exactly the failure and the end |
| `StreamBridgeObject.Bridge.Get` | src/maivn/_internal/api/async_stream.py:89-93 | the consumer receives the head of the queue and the worker its signal, whatever the worker does in between |
| `StreamBridgeObject.Bridge.Resume` | src/maivn/_internal/api/async_stream.py:194-206 | the generator yields events, raises at a failure and ends at the sentinel, in both cases with the bridge closed; it ends only with every event of a source that ran out |
| `FileWatch.JournalConserves` | src/maivn/_internal/local_file_state.py:94-114 | over every run with crashes and lost acknowledgements, settled followed by pending events are the events ever appended, unchanged and in order, and the receiver's first arrivals are a prefix at most one ahead |
| `FileWatch.HistoryGrows` | src/maivn/_internal/local_file_state.py:94-114 | no later step alters or withdraws an appended or settled event |
| `FileWatch.PendingIsBounded` | src/maivn/_internal/local_file_watch.py:186-211 | the queue never grows past its limit, or past what it was opened with |
| `QuietPeriod.QueuedOnlyAfterQuietPeriod` | src/maivn/_internal/local_file_watch.py:219-234 | an event is queued only for an identity whose size or time differs from the cursor's and whose completion marker, where one is required, is there and new, and that every scan over at least the quiet period saw unchanged |
| `QuietPeriod.QuietChangeIsQueuedWhenThereIsRoom` | src/maivn/_internal/local_file_watch.py:178-211 | the first scan that has seen such a change, marker included, over the quiet period queues it if and only if there is room; a full queue keeps its age and drops nothing |
| `QuietPeriod.VisitVerdict` | src/maivn/_internal/local_file_watch.py:178-211 | what a scan decides about one path depends only on where that path stood before the scan and on room |
| `FirstScan.ExistingFilesAreSilent` | src/maivn/_internal/local_file_watch.py:166-211 | over all runs from a fresh journal, with `emit_existing` off: no event is queued for a path the first scan found until a scan sees another size or time, or misses it |
| `FirstScan.ExistingFilesAreAnnounced` | src/maivn/_internal/local_file_watch.py:166-211 | with `emit_existing` on: a path that no scan has queued yet is queued as created by the first scan that has seen it unchanged over the quiet period and has room |
| `WatchReturns.ReturnedFileIsCreated` | src/maivn/_internal/local_file_watch.py:178-211 | over all runs: a file that some scan missed is new when it returns, and is queued as created by the first scan that has then seen it unchanged over the quiet period and has room, unless an event has told of it in between |
| `WatchReturns.SettlesOnlyTheAcknowledged` | src/maivn/_internal/local_file_watch.py:236-256 | over all runs an event can be settled if and only if the very last thing that happened was its own delivery, acknowledged |
| `EventSequence.SuccessiveEventsDiffer` | src/maivn/_internal/local_file_watch.py:219-234 | two successive events of a path that never disappeared differ in size or time |
| `LocalFileWatching.LocalFileWatcher.IsReady` | src/maivn/_internal/local_file_watch.py:219-234 | verdict and candidate left behind |
| `LocalFileWatching.LocalFileWatcher.BeginScan` | src/maivn/_internal/local_file_watch.py:178-183 | baseline on the very first scan, of nothing if existing files are to be announced, then cursor and candidates forget what disappeared |
| `LocalFileWatching.LocalFileWatcher.VisitPath` | src/maivn/_internal/local_file_watch.py:187-210 | one path of a scan is queued, held back by a full queue, or left a candidate |
| `LocalFileWatching.LocalFileWatcher.ScanOnce` | src/maivn/_internal/local_file_watch.py:166-211 | a scan changes watcher and journal as the scan step; its counters are exact |
| `LocalFileWatching.LocalFileWatcher.DeliverPending` | src/maivn/_internal/local_file_watch.py:236-256 | one attempt per pending event from the head, settled only when acknowledged |
| `LocalFileWatching.DeliveryIsRun` | src/maivn/_internal/local_file_watch.py:236-256 | a delivery is a run of the watcher, so the run theorems hold of it |
| `LocalFileWatching.FileJournal.Baseline` | src/maivn/_internal/local_file_state.py:72-82 | whichever write fails, either all observations and the flag are there or neither has changed |
| `LocalFileWatching.FileJournal.Forget` | src/maivn/_internal/local_file_state.py:84-92 | whichever delete fails, either all the named cursors are gone or none |
| `LocalFileWatching.FileJournal.First` | src/maivn/_internal/local_file_state.py:105-110 | the oldest event ever appended that is not settled; none exactly when everything is settled |
| `LocalFileWatching.FileJournal.Append` | src/maivn/_internal/local_file_state.py:94-103 | whichever write fails, event and cursor are both there or neither; with a fresh id, settled followed by pending stay all that was appended |
| `LocalFileWatching.FileJournal.Settle` | src/maivn/_internal/local_file_state.py:112-114 | exactly the rows with the event's id are dropped; for the oldest event that is its row alone |
| `JsonPointer.EscapeRoundTrip` | src/maivn/_internal/private_placeholders.py:117-121 | every key, tildes and slashes included, survives escaping and the walker's unescaping (sections 3 and 4 of RFC 6901) |
| `JsonPointer.DecimalRoundTrip` | src/maivn/_internal/private_placeholders.py:122-126 | a list position survives being written into a pointer and read back |
| `JsonPointer.SplitJoin` | src/maivn/_internal/private_placeholders.py:149-157 | splitting a pointer gives back the segments it was built from |
| `PlaceholderText.RecordText` | src/maivn/_internal/private_placeholders.py:91-115 | the recording loop computes the text of the simple substitution and the specified spans |
| `PlaceholderText.RecordTokens` | src/maivn/_internal/private_placeholders.py:93-115 | the same, for the tokens found |
| `PlaceholderText.SpansAreLandings` | src/maivn/_internal/private_placeholders.py:96-113 | the spans are, in order, one for each token with a non-empty value, from where its beginning to where its end lands in the restored text |
| `PlaceholderText.SpansSelectValues` | src/maivn/_internal/private_placeholders.py:78-113 | each span selects exactly the value substituted for its key, and spans are ordered and disjoint |
| `PlaceholderText.OutsideUnchanged` | src/maivn/_internal/private_placeholders.py:91-115 | all text outside the spans is the source's text outside the resolved tokens |
| `SubstitutionEffects.EveryValueIsRecorded` | src/maivn/_internal/private_placeholders.py:91-115 | exactly what a substitution is: the text is pieced together from values, tokens without one, and copies of what lies between, and its spans are, in order, the places of exactly the values that are not empty |
| `PlaceholderText.PrefixLands` | src/maivn/_internal/private_placeholders.py:161-170 | substituting the text before an uncut position gives a prefix of the restored text, as long as that position's landing |
| `RestorationRebase.RebasedSelectsSameText` | src/maivn/_internal/private_placeholders.py:132-171 | a span that neither cuts nor contains a token selects the same text after rebasing |
| `RestorationRebase.RebasedSelectsResolvedText` | src/maivn/_internal/private_placeholders.py:132-171 | a span that cuts no token selects what its own text resolves to |
| `RestorationRebase.RebasedKeepsOrder` | src/maivn/_internal/private_placeholders.py:132-171 | rebasing keeps spans in order |
| `RestorationRebase.RebasedAvoidsRecorded` | src/maivn/_internal/private_placeholders.py:132-171 | a rebased span never overlaps a newly recorded one |
| `BracketTokens.PatternIsFinder` | src/maivn/_internal/private_placeholders.py:1-8 | a concrete scanner for the documented token shape meets every assumption made of the pattern, at cut tokens too |
| `ScannedTokens.FindExactly` | src/maivn/_internal/private_placeholders.py:1-8 | that scanner finds exactly the stretches of the documented shape, a brace-free key that is not empty between the two brackets, each with its key and value |
| `BracketTokens.FindOfPrefix` | src/maivn/_internal/private_placeholders.py:161-168 | of that scanner, any prefix shows exactly the tokens that end in it: what is left of a cut token holds none |
| `CutSpans.RebasedLandsAnywhere` | src/maivn/_internal/private_placeholders.py:159-170 | with such a scanner both ends of any span go where the text before them lands, cut or not |
| `CutSpans.CutEndLands` | src/maivn/_internal/private_placeholders.py:159-170 | an end inside a token goes to the token's landing plus its distance from the token's start |
| `CutSpans.KeepsTextIff` | src/maivn/_internal/private_placeholders.py:132-171 | any span at all selects its old text if and only if the tokens between what it cuts are as long as their values and the text from there reads as before |
| `CutSpans.CutEndKeepsTextIff` | src/maivn/_internal/private_placeholders.py:132-171 | a span whose end cuts the one token it meets: if and only if the cut part is how the value, and what follows, begin; always when the token has no value |
| `CutSpans.CutStartKeepsTextIff` | src/maivn/_internal/private_placeholders.py:132-171 | a span whose start cuts the one token it meets: if and only if the value has the token's length and ends alike; and when its ends change places |
| `BracketTokens.CutSpanMoves` | src/maivn/_internal/private_placeholders.py:159-170 | one instance of `CutEndKeepsTextIff`: in this text a span over the opening of a token loses its text to this value |
| `KeyLookup.Lookup` | src/maivn/_internal/private_placeholders.py:212-238 | a key gets the value of the entry it names, and none exactly when no candidate is spelled like any of the caller's keys |
| `KeyLookup.SanitizedIndex` | src/maivn/_internal/private_placeholders.py:241-251 | each canonical spelling leads to the first key spelled that way |
| `KeyLookup.NamesOne` | src/maivn/_internal/private_placeholders.py:212-238 | a key names at most one entry: exact keys before spellings, earlier candidates before later ones, earlier keys before later ones |
| `NamedValues.ResolveKey` | src/maivn/_internal/private_placeholders.py:102-105 | a placeholder stands for the entry its candidates name, and for nothing when they name none or one without a value |
| `NamedValues.RecordNamedText` | src/maivn/_internal/private_placeholders.py:91-115 | every recorded span selects the text of the value of the very entry of the caller's map that its placeholder names |
| `PrivateRestorations.Walk` | src/maivn/_internal/private_placeholders.py:91-129 | the recording walk computes the tree of the simple recursion and appends the leaves' spans in order |
| `PrivateRestorations.WalkFields` | src/maivn/_internal/private_placeholders.py:116-121 | a mapping's values in order, each under its escaped key |
| `PrivateRestorations.WalkItems` | src/maivn/_internal/private_placeholders.py:122-126 | a list's items in order, each under its position |
| `PrivateRestorations.NoValuesChangeNothing` | src/maivn/_internal/private_placeholders.py:174-188 | without values the tree comes back unchanged, which justifies the early return |
| `SubstitutionEffects.RecordedChildByChild` | src/maivn/_internal/private_placeholders.py:116-128 | what is recorded for a mapping or list is what is recorded for its values, one after another, each under its own pointer |
| `SubstitutionEffects.EveryLeafIsRecorded` | src/maivn/_internal/private_placeholders.py:91-129 | every substituted value of every text in a tree is on record under the text's pointer |
| `RestorationPointers.PointerLeadsBack` | src/maivn/_internal/private_placeholders.py:116-126 | the rebase walker, given any recorded pointer, arrives at that span's own leaf |
| `RestorationPointers.RecordedApart` | src/maivn/_internal/private_placeholders.py:91-129 | over a whole tree, spans under one pointer never overlap |
| `EventHydration.Project` | src/maivn/_internal/private_placeholders.py:47-75 | malformed entries and a missing list included: an order-preserving one-to-one match between the results and the named entries of the path with `offset <= start < end <= offset + length`, each moved by the offset |
| `EventHydration.ProjectTwice` | src/maivn/_internal/private_placeholders.py:47-75 | projecting by two nested slices equals projecting by their composition |
| `EventHydration.Rebase` | src/maivn/_internal/private_placeholders.py:132-171 | an order-preserving one-to-one match between the results and the named entries whose pointer leads to a text with at least `end` characters, each from where the text before it to where the text through it ends after substitution |
| `EventHydration.RebaseItem` | src/maivn/_internal/private_placeholders.py:159-170 | one valid entry, by the lengths of two substituted prefixes |
| `EventHydration.RestoreFollows` | src/maivn/_internal/private_placeholders.py:78-129 | a pointer leads in the restored tree to the restored form of what it led to |
| `EventHydration.RecordedSelectsValue` | src/maivn/_internal/private_placeholders.py:78-129 | in the restored tree the pointer and span of a recorded entry select the value of a token of the original leaf |
| `EventHydration.RebasedEntrySelectsSameText` | src/maivn/_internal/private_placeholders.py:132-171 | in the restored payload a rebased entry selects the text it selected before |
| `EventHydration.MergedApart` | src/maivn/_internal/client_stream.py:561-601 | rebased and newly recorded spans together never overlap under one pointer |
| `EventHydration.SubtreeRecordsItsOwn` | src/maivn/_internal/client_stream.py:567-580 | the spans below the payload, its prefix removed, are those recorded on the payload alone |
| `EventHydration.HydratedPayloadIsMerged` | src/maivn/_internal/client_stream.py:561-601 | the list attached to a hydrated payload is the payload's own merged list, free of overlaps |
| `EventHydration.HydratePayload` | src/maivn/_internal/client_stream.py:561-580 | the restored data and the attached list of one event |
| `SchemaReferences.DefinitionReferences` | src/maivn/_internal/schema_references.py:43-62 | every name referred to at any depth, or nothing exactly when some mapping declares a scope or a foreign reference |
| `SchemaReferences.PruneUnusedDefinitions` | src/maivn/_internal/schema_references.py:15-40 | the definitions kept are exactly the least closed set; the schema is returned as it is exactly when there is none; terminates on recursive schemas |
| `SchemaPruning.PrunedExactly` | src/maivn/_internal/schema_references.py:15-40 | in terms of references alone: everything but the definitions stays in order, and of those, in order, exactly the ones to which a chain of references leads; the schema is left alone if and only if there are none, the rest declares a scope or a foreign reference, or a chain leads to a missing definition or one that does |
| `SchemaPruning.PlainIff` | src/maivn/_internal/schema_references.py:43-62 | a value can be collected if and only if no mapping at any place in it has a scoping key or a reference that is not local |
| `SchemaPruning.NamesAre` | src/maivn/_internal/schema_references.py:43-62 | the names collected are exactly those some mapping at some place refers to |
| `SchemaMeaning.PruningKeepsMeaning` | src/maivn/_internal/schema_references.py:15-40 | at every depth the references of the root unfold to the same meaning before and after |
| `SchemaMeaning.MeaningTells` | src/maivn/_internal/schema_references.py:15-40 | a meaning forgets nothing: equal meanings are of equal values whose references lead, in each one's schema, to values of equal meaning |
| `SchemaMeaning.SameTarget` | src/maivn/_internal/schema_references.py:43-62 | a reference to a kept definition, with any further path, leads to the same value in both schemas |
| `SchemaMeaning.PruningIsDetermined` | src/maivn/_internal/schema_references.py:15-40 | a schema has one pruned form |
| `SchemaMeaning.PruningTwiceIsOnce` | src/maivn/_internal/schema_references.py:15-40 | pruning is idempotent |
| `ToolGraphCompiler.CompileToolMetadataGraph` | src/maivn/_internal/compat/_tool_graph.py:33-78 | on any finite graph, cyclic or not: no target twice, every registered one, whatever a tool needs before it unless they share a cycle, and a registered tool before all that neither it nor one registered earlier leads to; every field that can be fed has its dependency in a list its class may read, and every entry added was inferred by a class that may read the list |
| `ToolGraph.CompiledIsLeastClosure` | src/maivn/_internal/compat/_tool_graph.py:47-78 | the listed targets are exactly the registered ones and the models nested in listed ones |
| `ToolGraph.ProducersComeFirst` | src/maivn/_internal/compat/_tool_graph.py:47-96 | when the lookups of nested models and registered producers have no cycle, every nested model and every declared registered producer comes before its consumer, inherited declarations included |
| `ToolGraph.EdgesAreNeeds` | src/maivn/_internal/compat/_tool_graph.py:81-96 | with tidy names and no shared lists a tool can be led to nothing but what it needs |
| `ToolGraph.NeededComeFirst` | src/maivn/_internal/compat/_tool_graph.py:47-96 | with tidy names and no shared lists it is enough that the needs themselves have no cycle |
| `ToolGraphCompiler.GraphCompiler.Visit` | src/maivn/_internal/compat/_tool_graph.py:47-74 | a visit keeps the invariant and lists its target unless it is on the way already, and nothing that is not reached from it |
| `ToolGraphCompiler.GraphCompiler.VisitNested` | src/maivn/_internal/compat/_tool_graph.py:52-68 | every nested model of a target is listed or on the way, and every field that is the only direct one for its model has a dependency |
| `ToolGraphCompiler.GraphCompiler.VisitProducers` | src/maivn/_internal/compat/_tool_graph.py:69-70 | every declared registered producer is listed or on the way |
| `ToolGraphCompiler.GraphCompiler.ToolOfNested` | src/maivn/_internal/compat/_tool_graph.py:55-62 | registered metadata is reused, else the class is registered once, in both lookup tables, under its own name |
| `ToolGraphCompiler.GraphCompiler.Close` | src/maivn/_internal/compat/_tool_graph.py:71-73 | a target is listed once everything it needs is listed or on the way |
| `ToolGraphCompiler.GraphCompiler.VisitRegistered` | src/maivn/_internal/compat/_tool_graph.py:75-78 | all registered tools are listed, in the order of their registration as far as dependencies allow, and the list keeps every promise |
| `ToolGraphCompiler.GraphCompiler.Producers` | src/maivn/_internal/compat/_tool_graph.py:81-96 | the producers known by now, by id, else by name, in order |
| `ToolGraphCompiler.GraphCompiler.MeantAreFound` | src/maivn/_internal/compat/_tool_graph.py:81-96 | every registered producer that a declaration means, inherited or not, is among those found, unless a nearer base's list can hide it |
| `ToolGraphCompiler.HidesProducerIff` | src/maivn/_internal/compat/_tool_graph.py:55-62 | of one registration on the way, the update of the lookup table: it hides a registered producer from a declaration if and only if the class takes the id asked for or the name the producer is found under |
| `ToolGraphCompiler.GraphCompiler.AppendModelDependency` | src/maivn/_internal/compat/_tool_graph.py:151-163 | the dependency goes to the end of the list the class reads, a base's if it has none of its own, or to a new one if there is none; nothing happens if the argument has one there; no declaration is lost |
| `ToolInheritance.OnlyInferredIff` | src/maivn/_internal/compat/_tool_graph.py:151-163 | as long as no list in use is hidden later: beside their declarations classes read only what their own fields infer if and only if whoever reads a list that a field adds to infers the same |
| `ToolInheritance.SharedIffAlone` | src/maivn/_internal/compat/_tool_graph.py:151-163 | with different class names that is: no class reads a list to which another's field adds a dependency |
| `ToolInheritance.KeptFieldsStay` | src/maivn/_internal/compat/_tool_graph.py:151-163 | no list in use is hidden later where classes have one base each and keep its model-valued fields |
| `ToolInheritance.FedIsRead` | src/maivn/_internal/compat/_tool_graph.py:64-68 | a field that can be fed has a dependency in the very list its class reads in the end |
| `ToolOutcomes.FedByItsModel` | src/maivn/_internal/compat/_tool_graph.py:52-68 | where no list misleads, a field that can be fed and has no declaration is fed, by id and by name, by the tool of its own model |
| `ToolOutcomes.NameIsLast` | src/maivn/_internal/compat/_tool_graph.py:40-41 | a target goes by the name of its last registration, else by its class's own |
| `ToolOutcomes.RegisteredIsLast` | src/maivn/_internal/compat/_tool_graph.py:40-41 | a name stands for the last tool registered under it |
| `ToolInheritance.SharedListMisleads` | src/maivn/_internal/compat/_tool_graph.py:151-163 | two siblings of a base with a declared dependency, each with a field `b`: whatever a compilation leaves behind, exactly one is fed by its own model, the other by its sibling's, and the base gains a dependency for a field it does not have |
| `ToolReferences.CountedOnceIffSole` | src/maivn/_internal/compat/_tool_graph.py:99-120 | a field's model is counted once if and only if the field is the only direct one for it among all registered and nested models |
| `ToolReferences.DirectCounts` | src/maivn/_internal/compat/_tool_graph.py:99-120 | the direct fields holding a model, counted once over each reachable model |
| `ClaimReports.ReportsFollowTheProtocol` | src/maivn/_internal/claiming.py:319-413 | under any cancellations a claim's reports are `working` ones followed by at most five attempts of one outcome, with at most 7.5 seconds of retry pauses |
| `ClaimReports.NoClaimIsDropped` | src/maivn/_internal/claiming.py:289-379 | with one claim per pass each claim handed over is held or has had its outcome attempted |
| `ClaimReports.StoppedLoopOwesOnlyTheQueue` | src/maivn/_internal/claiming.py:298-317 | a stopped loop owes a report exactly for the claims its last pass held behind the current one |
| `ClaimReports.SecondClaimIsDropped` | src/maivn/_internal/claiming.py:298-317 | the limit: cancelling the first of two claims loses the second without a word; the loop asks for one at a time, so a server must hand over more than it was asked for |
| `ClaimReports.CancelledRunAbandons` | src/maivn/_internal/claiming.py:319-379 | in every run in which a cancellation strikes while a claim is run or its keep-alive stopped, once the loop has left the claim it has reported it abandoned, and it never reports it completed or failed |
| `ClaimReports.OutcomeIsTheRunners` | src/maivn/_internal/claiming.py:319-348 | over all runs: every `completed` or `failed` report of a claim follows an end of its runner with that very status |
| `ClaimReports.RunnersOutcomeIsReported` | src/maivn/_internal/claiming.py:319-348 | once a claim's runner has ended with a status and the keep-alive is stopped without a cancellation, that status is reported next and the claim never gets another outcome |
| `ClaimLoop.LeavesIffTold` | src/maivn/_internal/claiming.py:289-317 | in every run the loop is on its way out if and only if it or its runner was cancelled or it was refused for good; no transient failure ends it |
| `ClaimLoop.LoopComesRound` | src/maivn/_internal/claiming.py:289-348 | whatever the keep-alive and cancellations do, the loop takes boundedly many steps, eleven a claim, before it asks again |
| `ClaimLoop.RestsBetweenAsks` | src/maivn/_internal/claiming.py:289-317 | it rests exactly once between asking and asking again |
| `ClaimLoop.TransientIsRetried` | src/maivn/_internal/claiming.py:381-413 | a reply to an outcome is waited out and the outcome reported once more exactly when it is transient and not the fifth |
| `ClaimLoop.TakenClaimIsKept` | src/maivn/_internal/claiming.py:319-323 | a claim that is taken up is held and its keep-alive starts |
| `ClaimLoop.KeptUntilLost` | src/maivn/_internal/claiming.py:350-364 | while a claim is run each wake of the keep-alive is one `working` report of it; it goes on whatever the replies until one says that the claim is lost |
| `ClaimLoop.OutcomeIsReportedAlone` | src/maivn/_internal/claiming.py:319-348 | in every run a claim is held exactly while it is run, and its keep-alive is gone before its outcome is reported |
| `ClaimReports.ReportOutcome` | src/maivn/_internal/claiming.py:381-413 | one status throughout, one to five attempts, ended by the first reply that is not transient, and the pauses in between |
| `LocalToolPump.CallsRunOnce` | src/maivn/_internal/client_stream.py:365-381 | however often a local call is redelivered, at most one start with its id is executed |
| `LocalToolPump.BatchesPartition` | src/maivn/_internal/client_stream.py:358-410 | at every moment the batches followed by the pending calls are the scheduled calls in order; once the loop over the source is left nothing is pending, so the batches alone are |
| `LocalToolPump.SurfacedAtMostOnce` | src/maivn/_internal/client_stream.py:232-328 | at every moment no event has surfaced twice, no completion without its start, no replay at all, and all but starts in source order |
| `LocalToolPump.EventsSurfaceOnce` | src/maivn/_internal/client_stream.py:383-410 | once the loop over the source is left and no task has a step left, every event read has surfaced exactly once except suppressed replays, and there is one completion for exactly the executed calls with an outcome |
| `LocalToolPump.ClosedPumpHasDelivered` | src/maivn/_internal/client_stream.py:330-410 | the last mark is put only behind everything, and by then the uploads, batch after batch, are the outcomes of exactly the local calls executed, in order |
| `LocalToolPump.EndedPumpGoesOn` | src/maivn/_internal/client_stream.py:383-410 | a pump that has left the source can always go on until its last mark |
| `LocalToolPump.PossibleSignals` | src/maivn/_internal/tool_runtime.py:240-508 | over all runs: a returned task was told nothing if its call is not local, else of one outcome, last, with or without a start before it |
| `LocalToolPump.FailsOnlyOnConflict` | src/maivn/_internal/client_stream.py:365-381 | the loop refuses a call only when its id was scheduled with different content |
| `PumpEndings.RefusedIffConflict` | src/maivn/_internal/client_stream.py:365-381 | a pump that has left the source refused a call if and only if some local call of the source comes again under its id with other content |
| `PumpEndings.StreamEndsWithItsException` | src/maivn/_internal/client_stream.py:400-410 | a closed pump has put one last mark and, exactly if the source raised or has such a conflict, one exception directly before it |
| `PumpEndings.LayersAreBatches` | src/maivn/_internal/client_stream.py:358-403 | two executed calls are uploaded together if and only if no boundary of the source lies between them |
| `PumpDeliveries.NewStartsAreScheduled` | src/maivn/_internal/client_stream.py:365-390 | exactly the starts are executed that are not of a local call whose id an earlier local call had |
| `PumpDeliveries.UploadsAreLocalCalls` | src/maivn/_internal/client_stream.py:330-363 | a closed pump has uploaded exactly the executed local calls, in source order |
| `PumpDeliveries.StartIsShownInTime` | src/maivn/_internal/client_stream.py:241-275 | a start has surfaced if and only if its target has begun or it has an outcome |
| `PumpObject.StreamPump.ExecuteLocalTool` | src/maivn/_internal/client_stream.py:232-328 | whichever way the call goes and whatever the other coroutines do meanwhile, its start has been put exactly once when the task returns, and its completion if there is an outcome |
| `PumpObject.StreamPump.ProduceEvents` | src/maivn/_internal/client_stream.py:383-410 | the whole loop, its cleanup and the uploads: by the last mark everything has been delivered, and directly before it stands the exception of a source that raised or has a conflict, and else none |
| `PumpObject.StreamPump.LeaveSource` | src/maivn/_internal/client_stream.py:397-401 | the cleanup behind the loop, as the step that ends the source: the last layer is flushed either way, and it is kept whether the source raised |
| `PumpObject.StreamPump.PutLastMark` | src/maivn/_internal/client_stream.py:402-410 | the exception, if there is one, and the last mark behind it |
| `PumpObject.StreamPump.Receive` | src/maivn/_internal/client_stream.py:383-403 | one turn of the loop over the source, as its step |
| `PumpObject.StreamPump.FlushLayer` | src/maivn/_internal/client_stream.py:358-363 | pending calls become one batch, an empty layer none |
| `PumpObject.StreamPump.IsReplayed` | src/maivn/_internal/client_stream.py:365-381 | replayed, refused or new, and only a new local call is remembered |
| `PrivateWorkspace.ShieldedReturns` | src/maivn/_internal/private_workspace.py:54-97 | any value, key and content flag: resolving what was shielded gives the value back with its types, whatever was shielded before and is shielded later |
| `PrivateWorkspace.ShieldConceals` | src/maivn/_internal/private_workspace.py:54-74 | every text left in a shielded value is vocabulary, an opaque id or an issued token, and inside content no number is left |
| `PrivateWorkspace.ShieldKeepsConsistent` | src/maivn/_internal/private_workspace.py:45-74 | keys and values stay one-to-one and issued tokens keep their values for ever |
| `PrivateWorkspace.DifferentTokens` | src/maivn/_internal/private_workspace.py:45-52 | tokens of values that differ in type or content differ |
| `PrivateWorkspace.PlainTextStays` | src/maivn/_internal/private_workspace.py:76-81 | text without braces resolves to itself |
| `WorkspaceTexts.ShieldShadows` | src/maivn/_internal/private_workspace.py:54-74 | shielding keeps shape and keys, leaves exactly vocabulary, opaque ids, nulls, and numbers outside content as they are, and puts a token of its own value for everything else |
| `WorkspaceTexts.LongerTextResolves` | src/maivn/_internal/private_workspace.py:76-97 | any text that is more than one token resolves with each token in it replaced by its value's text and all else copied, and is refused if one was never issued |
| `WorkspaceTexts.TokenResolves` | src/maivn/_internal/private_workspace.py:76-97 | a text that is one token resolves to the value itself, and is refused if that was never issued |
| `PrivateWorkspace.PrivateWorkspaceValues.Token` | src/maivn/_internal/private_workspace.py:45-52 | a value gets its token on first sight and keeps it |
| `PrivateWorkspace.PrivateWorkspaceValues.ShieldValue` | src/maivn/_internal/private_workspace.py:54-74 | the object's shielding is the specified one, vault included |
| `PrivateWorkspace.PrivateWorkspaceValues.ShieldMapping` | src/maivn/_internal/private_workspace.py:56-60 | entries in order, content below a `content` key |
| `PrivateWorkspace.PrivateWorkspaceValues.ShieldListing` | src/maivn/_internal/private_workspace.py:61-64 | items in order, under the list's own key |
| `SpanLifecycle.SpansAreConserved` | src/maivn/telemetry/opentelemetry.py:60-191 | for every sequence of events and shutdowns: started spans are ended plus open ones, none ends twice, open tools belong to open runs, tool spans end before their run's, both tables keep their limit |
| `SpanLifecycle.ShutdownEndsAll` | src/maivn/telemetry/opentelemetry.py:77-85 | after a shutdown nothing is open and every started span has ended |
| `SpanLifecycle.HandleKeeps` | src/maivn/telemetry/opentelemetry.py:60-75 | one event keeps the adapter's invariant |
| `SpanEvents.RememberedIsThere` | src/maivn/telemetry/opentelemetry.py:268-272 | a remembered key is there, the newest last and each once; only the oldest is let go, and only beyond the limit |
| `SpanEvents.EventGoesOn` | src/maivn/telemetry/opentelemetry.py:60-134 | an event that does not end its run leaves the run open and its tool with an open span, or, if it is terminal, ended and remembered; a completed tool, other tools and other runs it leaves alone |
| `SpanEvents.LateEventsAreIgnored` | src/maivn/telemetry/opentelemetry.py:60-134 | an event of a completed run, or of none, changes nothing |
| `SpanEvents.EventEndsItsRun` | src/maivn/telemetry/opentelemetry.py:60-191 | a terminal event of a run ends every span of it and no other, and the run is remembered |
| `SpanLifecycle.OpenTelemetryAdapter.Consume` | src/maivn/telemetry/opentelemetry.py:60-75 | the listener changes the object exactly as the specified event |
| `SpanLifecycle.OpenTelemetryAdapter.Finish` | src/maivn/telemetry/opentelemetry.py:152-171 | an open tool span is ended once and remembered in its run, any other key is ignored |
| `SpanLifecycle.EnsureRunKeeps` | src/maivn/telemetry/opentelemetry.py:87-100 | a run that is not completed has an open span afterwards: its own, or a root span never used before; the invariant and all other spans stay |
| `SpanLifecycle.StartToolKeeps` | src/maivn/telemetry/opentelemetry.py:136-150 | a started tool gets a span never used before, under the live span of its own run; the invariant stays |
| `SpanLifecycle.OpenTelemetryAdapter.ApplyToolEvent` | src/maivn/telemetry/opentelemetry.py:110-134 | a completed tool is ignored, a terminal event without a start gets both |
| `SpanLifecycle.OpenTelemetryAdapter.FinishAll` | src/maivn/telemetry/opentelemetry.py:173-182 | the listed tools are ended in order |
| `SpanLifecycle.OpenTelemetryAdapter.Close` | src/maivn/telemetry/opentelemetry.py:183-191 | a run's span is ended once and its key remembered |
| `SpanLifecycle.OpenTelemetryAdapter.ShutDown` | src/maivn/telemetry/opentelemetry.py:77-85 | the shutdown of the object is the specified one |

## Left out

- Failure texts and codes of the tool runtime: kept as a set of failed keys and a small kind of fault; which text is chosen is not modelled.
- A tool has one result key, because tools are stored under their name; `tool.name` and the tool id never differ in the model.
- What targets compute, hooks, private-workspace custody, inspection dispatch and generated-file sources: not modelled; a target returns any value, a skip or a fault.
- Preparing arguments: foreign retained bindings are refused as the source does, its checks of the session, the producer's kind and version and of placeholders being one flag of the binding; any further fault may be raised there, none is computed.
- RuntimeHang.HangsIffCycle: where a dependency's id and name are the names of two different callable tools, which of them a lookup reads depends on the calls made by then; there the two cycles bound the condition from both sides and are not shown to meet.
- The steps of the runtime are finer than awaits in places (one dependency, one input at a time), so the theorems cover more interleavings than the event loop has.
- The bridge's bounded join of the worker thread and its timeouts: a blocked put may be retried any number of times; times are not modelled.
- The bridge is closed by its generator alone, as it stops, is closed at a `yield` by any thread, or is left by an exception in any of its statements; no other caller exists.
- A stream of the bridge inside another invocation runs on that invocation's loop, which stays open: callbacks posted to its finished task have no effect there either.
- Walking the file system, root identity checks and the watcher's configuration check: one scan is given as a map from path to identity, in any order without repetition; event ids are fresh and the clock does not go back.
- SQLite: a transaction commits whole or not at all; event bodies are functions of the event's fields.
- A failed transaction inside a scan's append loop is a scan that stops at that path.
- The placeholder pattern, key normalisation, caller-name candidates and key sanitising come from a library that is not part of this model: a finder is any function whose matches are ordered and that sees the same tokens in a prefix that cuts none, each token carrying the value its lookup gives; in the lookup, candidates and sanitising are any functions.
- Decimal list indices in pointers are ASCII; other Unicode decimals that Python accepts are not modelled.
- The received restoration list is passed beside the payload it is stored in; a pointer into that list itself is not treated specially.
- EventHydration.MergedApart: assumes that received spans do not overlap and neither cut nor contain a token, which is what makes rebasing faithful at all.
- Hydration of the compatibility payload and of events without a payload mapping: the same calls on other arguments.
- Percent-encoding in schema references: the source compares plain text and so does the model.
- Pydantic annotations of the tool graph: a model's fields are given with the nested models found in them; a dependency attribute that is no list, which the source refuses, does not occur.
- ToolInheritance.OnlyInferredIff: leaves out lists that a nearer base gains after a class came to read a further one; that takes several bases or an overridden model field (`KeptFieldsStay`).
- ToolGraph.ProducersComeFirst: a declared producer is claimed only when classes registered on the way take no registered tool's name (else the class hides the producer from then on, exactly as `HidesProducerIff` says) and when no nearer base can gain a list that hides the one the class reads.
- The runner of a claim, its usage report and the emitted listener events: only the order and status of reports and the pauses are kept.
- Exceptions inside listeners, batch uploads, file intake and artifact images of the pump, hook events, and a consumer that stops early, which cancels the pump; the event surfaced for a started call may carry extra payload fields.
- Workspace values are exact reals and integers: a negative zero and a zero, equal in Python, are one value there and here; vocabulary and id patterns are any predicates that accept no braces.
- `workspace_scope`, span attributes, statuses and timestamps: no state behind them.
- Recursive agent delegation on the wire, range retrieval of private artifacts, path updates of private model inputs and the invocation image registry: not modelled.
- HTTP, TLS, server-sent events, tunnels, command line, cryptography, model validation: input and output around the cores.
