# The agent's write protocol, modelled in Dafny

The agent turns chat messages into subscription writes. A chat turn reserves a write in a versioned workflow store under a token and a lease, runs the executor, records an authoritative result and releases the reservation. A recovery worker takes over expired leases under a new token and rebuilds the request from what was persisted. Crashes, refused calls, lost replies and other workers can come between any two store calls.

This project models that protocol with what feeds it, and proves what it promises over every run.

- `Base`, `Types`, `SortedIds`: text trimming, millisecond time, entities, canonical id lists.
- `ReservationCodec`, `ResultCodec`, `SnapshotCodec`: the persisted V1 forms as data-transfer objects, with round trips.
- `BusinessKey`, `Recovery`: what makes two requests the same business action; from a prepared request to its reservation and back.
- `WorkflowStore`: each store operation as a function from state to state. `MemoryStore`: the same operations on mutable records behind a map, proved equal to it. `StoreRuns`: safety over runs of arbitrary callers.
- `Protocol`: chat turns and recovery workers as small steps over the store. `ProtocolSafety`, `ProtocolSteps`, `ProtocolTheorems`: the inductive invariant, its preservation by every action, and what follows. `ExecutorCalls`, `ProtocolRuns`, `Reaching`, `Progress`, `Overlap`: calls per message, the lifting of the store theorems, completion, and the exactness of the lease condition.
- `Workers`, `WorkerRuns`: coordinator, chat loop and recovery loop as sequential methods over a store and a clock that change between any two of their calls, and the proof that each of their executions is a run of the protocol.
- `DatabaseRows`, `DatabaseStore`: the database row, its decoding, the conditional updates as refinements of the store operations, and every run of them as a run of the store. `LawfulCalls`: the protocol meets what the database asks of its callers. `DatabaseAnswers`, `DatabaseProtocol`, `DatabaseTheorems`: the adapter's answers, the protocol over the database, and its refinement of the protocol over the store.
- `ShadowStore`: any store mirrored onto any other.
- `WorkflowEngine`, `PolicyGates`, `Pipeline`, `PreparedWrites`, `TurnPersistence`: from an untrusted draft to a prepared write, and from one turn to the next. `HandledTurns`: the protocol with the pipeline in it.
- `CandidateSelection`, `RateLimiter`, `OperationArbiter`: numbered options, the request limiter, the choice between recognisers.

Where a promise turned out conditional, the code is modelled as it is and the exact condition is proved: a reservation decodes exactly when its lease outlives truncation to milliseconds; a snapshot decodes exactly when its trusted keys are trimmed; executors overlap only when the ninety seconds of one, counted from its start, end no earlier than its lease, which is its stamp plus two minutes cut to milliseconds, and then they can; a prompted workflow survives exactly when the turn cleared no other; a deferred row is readable exactly when its retry time truncates to the stored lease; an echoed option line selects its option exactly when it names no other; the arbiter's decision is independent of the order of candidates exactly when they are ambiguous or all unbeaten candidates of the deciding class mean the same, which can fail below the highest rank; the database accepts a takeover the store refuses exactly when it reuses the old token, refuses a result the store accepts exactly when the execution is no longer executing or the token or business key is padded, and a release exactly when the token is padded. The limiter admits at most nineteen requests in sixty seconds, not twenty, because the first request of a window that overlaps an interval and the next window cannot both fall into it.

Time is a count of nanoseconds in which 0 is the zero instant. A digest stands for the JSON text and SHA-256 of a business key; theorems that need it say that it is injective. Names of parameters, operations and states with a meaning in the code are constructors; `OtherField`, `OtherOperation` and the like stand for every other name. Clocks, drawn tokens, executor effects, resolved departments and the faults of each call are parameters.

## Model

| member | source | states |
|---|---|---|
| WorkflowStore.ApplyKeepsInvariant | internal/agent/workflow_store.go:145-440 | Every operation keeps the store invariant: snapshot version equals record version, identity equals the key, status is result_recorded exactly when a result exists, and that result carries the reserved business key. |
| WorkflowStore.SuccessRaisesVersionByOne | internal/agent/workflow_store.go:170-194 | A mutation succeeds only at the version it expected, raises it by exactly one or removes the record, and answers with the record it stored. |
| WorkflowStore.FailureChangesNothing | internal/agent/workflow_store.go:450-470 | A failing call changes nothing except that it may drop an expired idle record under its own key; no call touches another key. |
| WorkflowStore.ExecutionMovesOnlyByItsToken | internal/agent/workflow_store.go:256-440 | Over all operations: an execution keeps its operation and business key, changes token only by a takeover at or after lease expiry, gets another result only from its token holder and then exactly the one presented, and disappears only by its token after a result. |
| WorkflowStore.ExecutionAppearsOnlyByReservation | internal/agent/workflow_store.go:218-294 | Expiry, create, compare-and-swap and deletes never produce an execution; only a successful reservation does, canonicalised and without a result. |
| WorkflowStore.LeaseProtects | internal/agent/workflow_store.go:417-428 | Before its lease expires an unconcluded execution is untouched by every operation that does not present its token to record or defer. |
| WorkflowStore.SeenIsStored | internal/agent/workflow_store.go:514-545 | The copies handed to callers are what is stored: under the invariant cloning alters nothing. |
| MemoryStore.MemoryWorkflowStore.Load | internal/agent/workflow_store.go:130-143 | The in-place operation on mutable records: new contents and reply are exactly those of the store specification, for every argument, context state and clock. |
| MemoryStore.MemoryWorkflowStore.Create | internal/agent/workflow_store.go:145-168 | The in-place operation on mutable records: new contents and reply are exactly those of the store specification, for every argument, context state and clock. |
| MemoryStore.MemoryWorkflowStore.CompareAndSwap | internal/agent/workflow_store.go:170-194 | The in-place operation on mutable records: new contents and reply are exactly those of the store specification, for every argument, context state and clock. |
| MemoryStore.MemoryWorkflowStore.DeleteIfVersion | internal/agent/workflow_store.go:196-216 | The in-place operation on mutable records: new contents and reply are exactly those of the store specification, for every argument, context state and clock. |
| MemoryStore.MemoryWorkflowStore.CreateReservedExecution | internal/agent/workflow_store.go:218-254 | The in-place operation on mutable records: new contents and reply are exactly those of the store specification, for every argument, context state and clock. |
| MemoryStore.MemoryWorkflowStore.ReserveExecution | internal/agent/workflow_store.go:256-294 | The in-place operation on mutable records: new contents and reply are exactly those of the store specification, for every argument, context state and clock. |
| MemoryStore.MemoryWorkflowStore.RecordExecutionResult | internal/agent/workflow_store.go:296-330 | The in-place operation on mutable records: new contents and reply are exactly those of the store specification, for every argument, context state and clock. |
| MemoryStore.MemoryWorkflowStore.FinalizeExecution | internal/agent/workflow_store.go:332-363 | The in-place operation on mutable records: new contents and reply are exactly those of the store specification, for every argument, context state and clock. |
| MemoryStore.MemoryWorkflowStore.DeleteReservedExecution | internal/agent/workflow_store.go:365-391 | The in-place operation on mutable records: new contents and reply are exactly those of the store specification, for every argument, context state and clock. |
| MemoryStore.MemoryWorkflowStore.TakeoverExpiredExecution | internal/agent/workflow_store.go:393-440 | The in-place operation on mutable records: new contents and reply are exactly those of the store specification, for every argument, context state and clock. |
| MemoryStore.MemoryWorkflowStore.ActiveRecord | internal/agent/workflow_store.go:450-460 | Finding a record drops it exactly when it is idle and expired. |
| MemoryStore.MemoryWorkflowStore.RecordForExecutionMutation | internal/agent/workflow_store.go:470-485 | A record is handed out for an execution mutation exactly when version, presence and trimmed token all match. |
| StoreRuns.InvariantHoldsThroughout | internal/agent/workflow_store.go:109-128 | The store invariant holds in every state of every run of arbitrary calls. |
| StoreRuns.NoReservedWriteIsLost | internal/agent/workflow_store.go:159-391 | In any run, an execution present at one time is still there later for the same business action, or some call in between released it under its token after its result was recorded. |
| StoreRuns.ResultsComeFromTheTokenHolder | internal/agent/workflow_store.go:296-330 | If an execution has another result later in a run, some call in between recorded it with the token then held and the reserved business key, and presented the very result found later. |
| StoreRuns.TakeoverFencesTheOldToken | internal/agent/workflow_store.go:410-440 | After a takeover no later call presenting the old token succeeds on any key, also after deletes and re-creations, given fresh tokens. |
| StoreRuns.ReleaseRetiresTheToken | internal/agent/workflow_store.go:365-391 | A released token never acts again, even when its key is recreated at version 1. |
| StoreRuns.RetiredTokenStaysRetired | internal/agent/workflow_store.go:470-485 | A token once held and then gone is never held again in the run. |
| StoreRuns.OneWinnerPerVersion | internal/agent/workflow_store.go:162-216 | Of two mutations, updates or deletes, that succeed for one expected version, the first ends the lifetime of the record or something between the two does. |
| StoreRuns.VersionsRepeatAcrossLifetimes | internal/agent/workflow_store.go:162-165 | Why versions alone do not fence: a caller holding version 1 of a deleted workflow overwrites the one created after it. |
| ReservationCodec.TypedValueRoundTrip | internal/agent/workflow_snapshot_codec.go:859-949 | A tagged value decodes to v exactly when v encodes to it. |
| ReservationCodec.DecodesExactlyWhenLeaseOutlivesTruncation | internal/agent/workflow_snapshot_codec.go:197-287 | A reservation encodes exactly when it is persistable, and then decodes exactly when its lease, cut to milliseconds, is still after its start; it decodes to its normal form. |
| ReservationCodec.CanonicalIsANormalizer | internal/agent/workflow_store.go:442-448 | Canonicalisation is idempotent, changes no identifier, and leaves whole milliseconds. |
| ReservationCodec.CanonicalKeepsParams | internal/agent/workflow_snapshot_codec.go:289-336 | It keeps every scalar parameter and turns the department list into the strictly increasing list of the same set. |
| ReservationCodec.SubMillisecondLeaseIsLost | internal/agent/workflow_snapshot_codec.go:1021-1023 | Some reservation encodes and does not decode. |
| ResultCodec.ResultRoundTrip | internal/agent/workflow_snapshot_codec.go:338-366 | A result decodes to r exactly when r encodes to it. |
| SortedIds.SortedUniqueInt64s | internal/agent/workflow_snapshot_codec.go:1001-1019 | Sorting and compacting in place yields the canonical list. |
| SortedIds.CanonicalFormIsTheSet | internal/agent/workflow_snapshot_codec.go:1001-1019 | Two lists have the same canonical form exactly when they have the same members. |
| SortedIds.NormalizeBusinessKeyDeptIDs | internal/agent/subscription_business_key.go:74-91 | The set-and-sort loop fails exactly on a non-positive id and otherwise returns the canonical list. |
| SnapshotCodec.SnapshotRoundTrip | internal/agent/workflow_snapshot_codec.go:438-523 | A snapshot that encodes decodes exactly when its trusted-parameter keys are trimmed, and then to itself without user message, raw sources and empty candidate lists and with its missing lists aligned; that encodes to the same form again. |
| SnapshotCodec.PaddedKeyIsLost | internal/agent/workflow_snapshot_codec.go:604-714 | The failing family: a padded key under a blank field name is stored and never read again. |
| SnapshotCodec.TrustedRoundTrip | internal/agent/workflow_snapshot_codec.go:604-714 | Trusted state comes back erased exactly when its keys are trimmed. |
| SnapshotCodec.CandidatesRoundTrip | internal/agent/workflow_snapshot_codec.go:776-857 | Candidate lists come back whole but for empty ones, under all three limits. |
| SnapshotCodec.EntitiesRoundTrip | internal/agent/workflow_snapshot_codec.go:716-774 | Trusted entities come back unchanged. |
| DatabaseRows.AcceptedExecutionsAreCoherent | internal/app/agent_workflow_store.go:450-510 | Whatever a row holds, an accepted execution has no result while executing, has one when recorded, and the result is of the reserved business key. |
| DatabaseRows.WrittenRowsRead | internal/app/agent_workflow_store.go:352-448 | A row is written exactly when the snapshot marshals with trimmed keys, and reads back as the erased snapshot at version 1. |
| DatabaseRows.BothStoresCreateTheSame | internal/app/agent_workflow_store.go:99-112 | A workflow created in the database and in memory, at different moments, agrees under the shadow comparison. |
| DatabaseRows.ReserveRefines | internal/repository/agent_workflow_repository.go:240-268 | Reserving an unexpired row succeeds exactly when the store operation does, with the same execution. |
| DatabaseRows.RecordRefines | internal/repository/agent_workflow_repository.go:270-310 | The database accepts exactly the results the store accepts onto an execution still executing, given with a trimmed token and business key, and with the same outcome. |
| DatabaseRows.OnlyTheStoreRecordsAgain | internal/repository/agent_workflow_repository.go:270-310 | The failing family: onto a recorded row, at its version and under its token, every valid result of its business key is refused by the database and accepted by the memory store. |
| DatabaseRows.TakeoverRefines | internal/repository/agent_workflow_repository.go:371-417 | Of the takeovers the database accepts, the store accepts exactly those under another token, and then with the same outcome; the conditional update does not compare the tokens. |
| DatabaseRows.ReusedTokenIsRefused | internal/agent/workflow_store.go:404-409 | The failing family: a successor under the old token that the database accepts, the store refuses for its token. |
| DatabaseStore.UpdateRefines | internal/repository/agent_workflow_repository.go:164-476 | Every conditional update that applies, of all eleven operations, is a store call that succeeds and leaves a record the new row reads back as. |
| DatabaseStore.StepRefines | internal/app/agent_workflow_store.go:84-350 | An update, or one that does not apply, keeps database and store in step on every key and the store invariant. |
| DatabaseStore.DatabaseRunsAreStoreRuns | internal/app/agent_workflow_store.go:84-350 | Every run of database updates is a store run with the same keys, versions, executions and contents at every moment. |
| DatabaseStore.DatabaseLosesNoWrite | internal/repository/agent_workflow_repository.go:240-417 | A row carries the write it holds, for the same business action, throughout the run or up to a step that released it under its token after its result was recorded. |
| LawfulCalls.ProtocolCallsAreLawful | internal/agent/workflow_recovery.go:74-162 | In every reachable state of the protocol every next call is lawful for the database: a takeover draws another token, and a deferral that still finds its token and version retries at exactly the lease its row carries. |
| DatabaseAnswers.AnswerFollows | internal/app/agent_workflow_store.go:84-350 | Whatever the database answers to a lawful call, there is a store call that leaves the store mirroring the database and is answered with the same version and execution, or the same kind of error. |
| DatabaseTheorems.EveryStepFollows | internal/app/agent_workflow_store.go:84-350 | Every step of a worker over the database is, from a state in step with it, an enabled action of the protocol that ends in step with it. |
| DatabaseTheorems.DatabaseRunsFollow | internal/agent/workflow_recovery.go:16-162 | Every run of the protocol over the database is a run of the protocol over the store, action for action, the store mirroring the database at every moment. |
| DatabaseTheorems.DatabaseProtocolRefinesProtocol | internal/agent/workflow_recovery.go:16-162 | From the empty database: every reachable state over the database has a reachable state of the protocol in step with it. |
| DatabaseTheorems.PromptExecutorsNeverOverlapOverTheDatabase | internal/agent/protocol_live_write_coordinator.go:13-17 | The exclusion of prompt executors, in every reachable state over the database. |
| DatabaseTheorems.OneExecutorCallOverTheDatabase | internal/agent/agent.go:254-322 | Over the database too a message or the recovery of a row calls the executor at most once, and completed means called, answered, recorded and released under one token. |
| DatabaseTheorems.EveryRowRebuilds | internal/agent/workflow_recovery.go:97-100 | Every execution a row holds in a reachable state rebuilds to the request its chat turn prepared. |
| DatabaseTheorems.NoWriteIsLostOverTheDatabase | internal/repository/agent_workflow_repository.go:240-417 | In every continuation over the database a row carries its write throughout, or up to a moment at which its result is recorded. |
| DatabaseRows.ReleaseRefines | internal/repository/agent_workflow_repository.go:346-369 | A row can be released exactly when the store would release the record and the token is given trimmed. |
| DatabaseRows.PaddedTokenReleasesNoRow | internal/repository/agent_workflow_repository.go:346-369 | The failing family: a recorded execution whose token is presented with a leading space. |
| DatabaseRows.MarkedRowIsReadable | internal/repository/agent_workflow_repository.go:449-476 | A deferred row decodes exactly when the retry time truncates to the lease its stored request carries. |
| DatabaseRows.DeferralRefines | internal/agent/workflow_recovery.go:139-162 | The deferral recovery makes under its own stamp stays readable and says what the store says. |
| BusinessKey.SameKeyExactlyWhenSameMeaning | internal/agent/subscription_business_key.go:24-72 | Under an injective digest two accepted requests share a key exactly when tenant, trimmed conversation, operation, scope and department set agree. |
| BusinessKey.LegacyKeyAgrees | internal/app/agent_wiring.go:745-789 | For every accepted request the legacy builder agrees exactly when the operation name is trimmed and, for a cancellation, no positive id is passed. |
| BusinessKey.LegacyDepartments | internal/app/agent_wiring.go:751-760 | The legacy loop yields the canonical list of the positive ids. |
| Recovery.PersistTrustedParams | internal/agent/protocol_live_write_coordinator.go:122-135 | The loop persists every value, or fails when one is unacceptable for its field. |
| Recovery.RebuildParams | internal/agent/workflow_recovery.go:168-181 | The loop rebuilds every parameter under the key's tenant, or fails on an unacceptable one. |
| Recovery.RebuildsExactlyWhenItBelongs | internal/agent/workflow_recovery.go:164-201 | A stored write rebuilds exactly under the tenant and conversation it was prepared for. |
| Recovery.RecoveredRequestIsFaithful | internal/agent/workflow_recovery.go:164-201 | For every request the coordinator reserved, rebuilding succeeds and gives the same tenant, actor, conversation, operation, scope, department set, business key and executor call, for any digest. |
| Recovery.TakeoverCarries | internal/agent/workflow_recovery.go:78-85 | Any number of takeovers keep the persisted authority of the request. |
| Recovery.RebuiltParamReads | internal/agent/execution_gate.go:415-428 | Every field of the rebuilt request reads as in the original, departments as a set. |
| ProtocolSafety.StepKeepsInv | internal/agent/agent.go:254-322 | One store call by one worker, at any moment, keeps what every other worker relies on. |
| ProtocolTheorems.EveryActionKeepsInv | internal/agent/protocol_live_write_coordinator.go:19-99 | Each of the fifteen actions keeps the protocol invariant, with refusals, lost replies, crashes, and a store whose clock is behind and which keeps its own form of a snapshot. |
| ProtocolTheorems.PromptExecutorsNeverOverlap | internal/agent/protocol_live_write_coordinator.go:13-17 | In every reachable state an executor whose timeout ends before its lease is beside another on its key only if that one has outlived its own lease; so two prompt ones never run together. |
| ProtocolTheorems.OverlapOnlyPastTheLease | internal/agent/workflow_store.go:417-428 | Two executors on one key overlap only if one has outlived its lease. |
| ProtocolTheorems.PromptStarts | internal/agent/workflow_recovery.go:24-85 | Starting at most thirty seconds less a millisecond after the reservation's, or the batch's, clock reading is early enough. |
| Overlap.LateExecutorCanBeOverlapped | internal/agent/workflow_recovery.go:74-111 | While its reservation stands unconcluded, an executor that is not prompt can be overlapped from every reachable state at least a millisecond after the zero instant, whatever other executors run, by a worker and a token that are new. |
| ProtocolTheorems.ExecutorsRunPreparedRequests | internal/agent/workflow_recovery.go:97-104 | Every executor call, after any number of takeovers, is the business call of a request the pipeline admitted for this key. |
| ProtocolTheorems.StoredExecutionsAlwaysRebuild | internal/agent/workflow_recovery.go:97-100 | In every reachable state every stored execution rebuilds to the request its chat turn prepared. |
| ProtocolSteps.TakenOverRequestRebuilds | internal/agent/workflow_recovery.go:87-100 | A takeover that succeeds always ends with the faithful request under the new token and a fresh lease. |
| ProtocolSteps.EveryActionIsOneStoreCall | internal/agent/agent.go:254-322 | Every action is at most one atomic store call. |
| ProtocolRuns.ProtocolRunsHaveFreshTokens | internal/agent/protocol_live_write_coordinator.go:137-143 | Every protocol run is a store run whose installed tokens are new, so all store theorems hold of the protocol. |
| ProtocolRuns.ProtocolFencesTakenOverTokens | internal/agent/workflow_recovery.go:87-96 | No worker ever succeeds with a token that was taken over. |
| ProtocolRuns.ProtocolLosesNoWrite | internal/agent/workflow_store.go:218-391 | A write reserved in a reachable state is in the store in every state of every continuation, or in every state up to a step that released it after its result was recorded. |
| ExecutorCalls.AtMostOneExecutorCall | internal/agent/agent.go:254-322 | One chat message with its retry, or one recovery of a candidate, calls the executor at most once; none before a retry, a conflict answer, an unavailable store or a reservation. |
| ExecutorCalls.CompletedMeansRecordedAndReleased | internal/agent/protocol_live_write_coordinator.go:68-98 | A completed answer means this worker called the executor, the effect it was answered was accepted as the result, and its reservation was released, in that order under its own token. |
| ExecutorCalls.AcceptedEffectIsStored | internal/agent/protocol_live_write_coordinator.go:76-90 | When a result is accepted the store holds it: the effect the executor answered and the business key of the request, under the worker's token. |
| Progress.ExpiredWriteRecovers | internal/agent/workflow_recovery.go:74-137 | From every reachable state one undisturbed pass over an expired execution frees the key, touches no other and calls the executor exactly once. |
| Progress.RecordedWriteIsOnlyReleased | internal/agent/workflow_recovery.go:57-68 | A recorded execution is freed without any executor call, by one release presenting the token and version the record holds, so the token of the worker that left it. |
| Progress.HeldWriteCompletes | internal/agent/protocol_live_write_coordinator.go:68-98 | A worker still holding its reservation concludes in two calls. |
| Workers.CoordinatePreparedWrite | internal/agent/protocol_live_write_coordinator.go:19-99 | For any store, and whatever others, the clock and faults do between its calls, the coordinator takes the worker's protocol steps from a decided turn to its answer or its one retry. |
| Workers.Chat | internal/agent/agent.go:254-322 | Under the same interference the two-attempt loop takes the worker's steps from loading to an end, retrying only after a conflict of the first attempt. |
| Workers.RecoverWorkflowExecution | internal/agent/workflow_recovery.go:47-137 | Under the same interference the recovery of a listed candidate takes the worker's steps to an end, completed exactly when recovered. |
| Workers.RecoverExpiredExecutions | internal/agent/workflow_recovery.go:16-45 | Each candidate is recovered in turn under one listing stamp, with others acting in between, and exactly the completed ones are counted. |
| WorkerRuns.CodeStepIsAnAction | internal/agent/protocol_live_write_coordinator.go:19-99 | Each step of the sequential code, at whatever store and clock it meets, leaves the store and the next state of one protocol action. |
| WorkerRuns.ExecutionsAreRuns | internal/agent/agent.go:254-322 | Whatever other workers and the clock do between its calls, an execution of the code is a run of the protocol ending in the state the code reports. |
| WorkerRuns.ChatAnswersAreTrue | internal/agent/agent.go:254-322 | In any such execution a message calls the executor at most once; an answer without a write means no call, and "completed" means called, recorded and released under one token in that order. |
| ShadowStore.WorkflowShadowStore.Load | internal/agent/workflow_shadow_store.go:37-51 | For any primary and any mirror: the primary receives exactly the caller's calls and its answer is the caller's; the mirror receives one call per success, carrying what the primary stored, and only the reports depend on it. |
| ShadowStore.WorkflowShadowStore.Create | internal/agent/workflow_shadow_store.go:53-63 | For any primary and any mirror: the primary receives exactly the caller's calls and its answer is the caller's; the mirror receives one call per success, carrying what the primary stored, and only the reports depend on it. |
| ShadowStore.WorkflowShadowStore.CompareAndSwap | internal/agent/workflow_shadow_store.go:65-75 | For any primary and any mirror: the primary receives exactly the caller's calls and its answer is the caller's; the mirror receives one call per success, carrying what the primary stored, and only the reports depend on it. |
| ShadowStore.WorkflowShadowStore.DeleteIfVersion | internal/agent/workflow_shadow_store.go:77-88 | For any primary and any mirror: the primary receives exactly the caller's calls and its answer is the caller's; the mirror receives one call per success, carrying what the primary stored, and only the reports depend on it. |
| ShadowStore.WorkflowShadowStore.CreateReservedExecution | internal/agent/workflow_shadow_store.go:90-110 | For any primary and any mirror: the primary receives exactly the caller's calls and its answer is the caller's; the mirror receives one call per success, carrying what the primary stored, and only the reports depend on it. |
| ShadowStore.WorkflowShadowStore.ReserveExecution | internal/agent/workflow_shadow_store.go:112-134 | For any primary and any mirror: the primary receives exactly the caller's calls and its answer is the caller's; the mirror receives one call per success, carrying what the primary stored, and only the reports depend on it. |
| ShadowStore.WorkflowShadowStore.RecordExecutionResult | internal/agent/workflow_shadow_store.go:136-158 | For any primary and any mirror: the primary receives exactly the caller's calls and its answer is the caller's; the mirror receives one call per success, carrying what the primary stored, and only the reports depend on it. |
| ShadowStore.WorkflowShadowStore.FinalizeExecution | internal/agent/workflow_shadow_store.go:160-176 | For any primary and any mirror: the primary receives exactly the caller's calls and its answer is the caller's; the mirror receives one call per success, carrying what the primary stored, and only the reports depend on it. |
| ShadowStore.WorkflowShadowStore.DeleteReservedExecution | internal/agent/workflow_shadow_store.go:178-195 | For any primary and any mirror: the primary receives exactly the caller's calls and its answer is the caller's; the mirror receives one call per success, carrying what the primary stored, and only the reports depend on it. |
| ShadowStore.WorkflowShadowStore.TakeoverExpiredExecution | internal/agent/workflow_shadow_store.go:197-219 | For any primary and any mirror: the primary receives exactly the caller's calls and its answer is the caller's; the mirror receives one call per success, carrying what the primary stored, and only the reports depend on it. |
| ShadowStore.MemoryAnswersAsSpecified | internal/agent/workflow_store.go:109-128 | The memory store is one such store: its answers to a history of calls are those of the store specification. |
| ShadowStore.TwinsStayInStep | internal/agent/workflow_shadow_store.go:221-290 | Two memory stores that agree on a key agree after a mutation whose mirrored call succeeds, at any two moments, exactly when the snapshot now held can be marshalled. |
| ShadowStore.LongScopeFallsOutOfStep | internal/agent/workflow_shadow_store.go:221-290 | The failing family: a workflow with a scope too long to marshal is created in both stores, which cannot be compared from then on. |
| ShadowStore.LoadingStaysInStep | internal/agent/workflow_shadow_store.go:37-51 | After a load they agree exactly when neither or both drop the record as expired. |
| WorkflowEngine.ContinueSubscriptionWorkflow | internal/agent/workflow_engine.go:75-150 | Field by field, the continuation yields the specified decision and snapshot. |
| WorkflowEngine.MergeTrustedParams | internal/agent/workflow_engine.go:207-217 | The merging loop overrides field by field. |
| WorkflowEngine.ConversationsStayConsistent | internal/agent/workflow_engine.go:75-150 | Every workflow a conversation reaches has state, missing fields and trusted data in agreement, across stores and codecs. |
| WorkflowEngine.AnswersMakeProgress | internal/agent/workflow_engine.go:84-149 | An accepted answer moves strictly towards ready; anything else leaves the workflow as it was. |
| WorkflowEngine.StoringKeepsTheWorkflow | internal/agent/workflow_store.go:487-512 | Storing, marshalling and showing candidates keep the workflow. |
| WorkflowEngine.SigningOnlyLearns | internal/agent/workflow_engine.go:153-205 | A manual sign-in forgets nothing, is ready exactly when nothing is missing, and asks for the first missing fact. |
| PreparedWrites.ResolversAnswer | internal/agent/protocol_live_subscription_workflow.go:164-198 | Whatever words and list of departments the resolvers report, every answer built from them is consistent. |
| PreparedWrites.ReadySubscriptionsHaveAKey | internal/agent/subscription_business_key.go:41-59 | A ready subscription has a business key exactly when tenant and conversation are given and its departments are positive. |
| PreparedWrites.PreparedWritesAreAdmissible | internal/agent/protocol_live_execution.go:9-76 | What the pipeline prepares meets what the write protocol assumes of a request, for the key of the same user. |
| PreparedWrites.TurnsLeaveWorkflowsConsistent | internal/agent/protocol_live_subscription_workflow.go:11-136 | Whatever the draft, a turn leaves a consistent subscription. |
| HandledTurns.HandledTurnsAreEnabled | internal/agent/protocol_live_execution.go:9-76 | When all workflows are ones their conversations reached, every turn the pipeline handles is an action of the protocol: nothing is assumed of what it prepared. |
| HandledTurns.HandledRunsAreProtocolRuns | internal/agent/agent.go:254-322 | A run in which every outcome is the pipeline's is a run of the protocol, every state is reachable, and every workflow in it is one its conversation reached. |
| HandledTurns.DatabaseKeepsWorkflows | internal/app/agent_workflow_store.go:352-448 | The form in which the database keeps a workflow is one its conversation could have reached. |
| PolicyGates.WritesReachHandlersAuthorised | internal/agent/policy_gate.go:61-249 | A write passes the pre-policy and role checks only for a sufficient role in a group, as a confident request or as the continuation of its own workflow. |
| Pipeline.Handle | internal/agent/protocol_live_pipeline.go:121-248 | The procedure with the early returns of the source ends in the outcome the authorisation results below speak of. |
| Pipeline.PreparedWritesAreAuthorised | internal/agent/protocol_live_pipeline.go:121-248 | For every draft and every active workflow: a prepared write is the drafted operation, asked in the current group conversation by a sufficient role with a valid scope, confident or continuing an unexpired workflow of that operation. |
| Pipeline.ListingPreparesNothing | internal/agent/protocol_live_subscription_workflow.go:14-27 | Listing departments never prepares a write, even when rewritten into a start. |
| Pipeline.PreparedIsChecked | internal/agent/protocol_live_execution.go:9-76 | Preparation implies the resource policy and carries the request's own business key. |
| TurnPersistence.NextTurnFindsThisOne | internal/agent/agent.go:1507-1533 | Without interference the next load returns nothing if the turn cleared, else the turn's workflow under the key's identity, else the old one. |
| TurnPersistence.PromptedWorkflowSurvives | internal/agent/protocol_live_pipeline.go:173-190 | The workflow a reply prompts for is found by the next turn exactly when the turn neither expired nor interrupted another and it has not expired itself. |
| TurnPersistence.RestartingForgetsTheNewWorkflow | internal/agent/protocol_live_subscription_workflow.go:35-57 | The failing family: asking to subscribe during a subscription prompts for a scope and forgets the workflow it prompts for. |
| CandidateSelection.CollectLabels | internal/agent/response_renderer.go:112-130 | The labelling loop keeps exactly the options that can be shown. |
| CandidateSelection.RememberCandidates | internal/agent/protocol_live_subscription_workflow.go:200-225 | The remembering loop keeps the same options. |
| CandidateSelection.DisplayedIsRemembered | internal/agent/protocol_live_subscription_workflow.go:200-225 | The i-th displayed label is the i-th remembered candidate's. |
| CandidateSelection.NumeralIsOrdinal | internal/agent/protocol_live_subscription_workflow.go:300-318 | A numeral is read as the number it writes. |
| CandidateSelection.LineIsRendered | internal/agent/candidate_resolver.go:79-92 | A displayed line is read back as its number and label. |
| CandidateSelection.EchoedLineSelects | internal/agent/candidate_resolver.go:19-77 | Echoing the i-th line selects the i-th candidate exactly when it names no other in full and its label does not normalise to nothing. |
| CandidateSelection.EchoingSelectsTheDisplayedOption | internal/agent/response_renderer.go:195-201 | Displayed line and bare number both select the i-th option, for every list that meets the stated condition and every normaliser. |
| CandidateSelection.SelectionsAreMembers | internal/agent/candidate_resolver.go:102-107 | Any selection is a member of the list and of the caller's tenant. |
| CandidateSelection.FindFullLabel | internal/agent/candidate_resolver.go:20-31 | The nested search finds the first candidate named by the first matching variant. |
| RateLimiter.Limiter.Allow | internal/agent/ratelimit.go:30-44 | The mutable limiter decides and updates as specified. |
| RateLimiter.Limiter.PurgeExpired | internal/agent/ratelimit.go:47-56 | The purge removes exactly the stale counters. |
| RateLimiter.AtMostTheLimitPerWindow | internal/agent/ratelimit.go:34-43 | Within one window at most ten are admitted. |
| RateLimiter.NoBurstExceedsNineteen | internal/agent/ratelimit.go:30-44 | In any sixty seconds of any run at most nineteen requests of a key are admitted, one fewer than twice the limit. |
| RateLimiter.NineteenGetThrough | internal/agent/ratelimit.go:35-38 | The bound is reached. |
| RateLimiter.PurgingIsInvisible | internal/agent/ratelimit.go:47-56 | Purging at any moment changes no later decision. |
| OperationArbiter.AmbiguousOperationCandidates | internal/agent/operation_arbiter.go:190-208 | The one-pass loop says ambiguous exactly when two known candidates of maximal rank differ in act or operation. |
| OperationArbiter.AmbiguityIgnoresOrder | internal/agent/operation_arbiter.go:190-208 | The verdict depends on the set of candidates only. |
| OperationArbiter.BestCandidate | internal/agent/operation_arbiter.go:145-159 | The loop keeps the first of the best. |
| OperationArbiter.BestIsMaximal | internal/agent/operation_arbiter.go:145-159 | It exists exactly when the class is inhabited, and none of the class beats it in rank and confidence. |
| OperationArbiter.BestIgnoresOrderExactly | internal/agent/operation_arbiter.go:145-188 | For every list and class: what the choice means is the same for all orders of the candidates exactly when all candidates of the class that none of it beats mean the same. |
| OperationArbiter.BestTopMeaningIgnoresOrder | internal/agent/operation_arbiter.go:145-188 | So a choice of the highest known rank does not depend on the order when the candidates are not ambiguous. |
| OperationArbiter.Decide | internal/agent/operation_arbiter.go:65-143 | The decision procedure yields the specified decision. |
| OperationArbiter.DecisionsChooseTheBestOfAClass | internal/agent/operation_arbiter.go:65-143 | Ambiguous exactly when the candidates are; otherwise the choice is maximal in its act class and explicit requests come first. |
| OperationArbiter.DecisionIgnoresOrderExactly | internal/agent/operation_arbiter.go:65-143 | The whole decision is the same for all orders exactly when the candidates are ambiguous or all unbeaten candidates of the deciding class, or all candidates when none is known, mean the same. |
| OperationArbiter.ChoiceCanDependOnOrder | internal/agent/operation_arbiter.go:82-102 | The condition can fail: below the highest rank, equally good explicit requests are told apart by position alone. |

## Left out

- Integer widths: ids, versions and counts are unbounded integers; 64-bit wrap-around and the overflow errors of number parsing are not modelled.
- JSON text, SHA-256, UTF-8 validity and the 64 KiB payload limit: codecs are modelled at the level of their data-transfer objects, lengths in characters.
- Times before the zero instant, years beyond 9999 and clock skew between workers: all workers read one clock, the store's may be behind it, and one store operation reads it once.
- Deep copies and aliasing: snapshots and parameter maps are values; that `continueWorkflow` writes into the parameter map of the workflow it was given is not visible.
- The executor's own timeout: an executor is assumed to end within its ninety seconds, and a crashed worker's executor with the worker.
- ProtocolTheorems.PromptExecutorsNeverOverlap: speaks of executors, not of the business service behind them; a late executor and its successor can both reach that service with the same business key.
- Progress.ExpiredWriteRecovers: holds for a pass no other worker disturbs; fairness under contention is not treated.
- RateLimiter.NoBurstExceedsNineteen: assumes a monotone clock, as the limiter's does.
- CandidateSelection.EchoedLineSelects: lower-casing covers Latin letters only; name normalisation is a parameter and the result holds for every one.
- DatabaseRows: automatic update times and the rounding of time columns are not modelled.
- DatabaseStore: a step is one atomic conditional update, with the row read back after it; SQL text, transactions, and the read before the conditional delete of an expired row are not modelled.
- DatabaseStore.DatabaseRunsAreStoreRuns: takes from its callers that a takeover draws a new token and that a deferral under the current token retries at the lease its request was stored with; the updates check neither, and `LawfulCalls` proves it of the protocol's callers.
- The limit and order of a recovery scan, its poll interval and the joining of its error messages.
- Attendance, schedule, rule and capability operations: in the pipeline they are reads that prepare nothing.
- Idempotency keys of the write guard: only whether every field is at hand is modelled, because the business key replaces them.
- Natural-language compilation, keyword lists, reply texts, metrics, call logs, HTTP and the admin interface.
