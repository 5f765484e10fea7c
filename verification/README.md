# Verification of anvil-events

A Dafny model of the state machines and algorithms that `anvil-events` relies on, with proofs of the
guarantees its documentation makes. Every SQLite transaction is one atomic step; tables are maps, and
unique indexes, foreign keys and checks appear as invariants that are proved to hold. Code that changes
objects in place is modelled by classes whose methods follow the original statements; each method is proved
equal to a specification function, and the properties are proved of these functions over whole runs.

| area | modules |
|---|---|
| reconciliation under crashes and concurrency | `ReconcileTables`, `ReconcileEngine`, `ReconcileSystem`, `ReconcileSafety`, `ReconcileGate`, `ReconcileConvergence` |
| outcomes of delivered desired states | `Processor`, `OutcomeEvents`, `OutcomeRuns` |
| event store, ledger, retention, repair | `Identity`, `StoreTables`, `StoreJoin`, `StoreRuns`, `OperationRuns`, `AckRuns`, `ChangeRuns`, `EventStore` |
| delivery pump | `Delivery`, `PendingDelivery`, `Pump`, `PumpRuns`, `PumpBackoff`, `PumpTurns`, `PumpProgress`, `PumpFront`, `PumpRecovery`, `PumpStarvation`, `DeliveryPump` |
| dependency graph checker | `Graphs`, `DependencyGraph`, `DependencyTies` |
| adapters | `JsonMerge`, `ManagedFile`, `JsonMergeAdapter`, `CommandConfig` |
| NATS wire | `WireFormat`, `Routing`, `Wire` |

`dafny verify dfyconfig.toml` checks the whole project.

Conventions. `...After` functions give the tables after a transaction. SHA-256 is taken to be injective, so a
digest is a value that names its preimage; where the text of a hash matters it is a parameter that has no
collision among the finitely many values that occur (`Apart`; `ApartExists` shows that such texts exist).
Clock readings, broker answers, adapter answers, chunks received from a socket and commands that fail are
parameters. A process that dies, or that an unexpected exception throws out of a pass, is the `Crash` step of
`ReconcileSystem`: it leaves the tables as they are and drops the lock.

Places where the behaviour of the code is worth knowing:

- Undoing a command configuration writes back what was read, and reading strips trailing line ends. The undo
  restores the configuration if and only if no value it writes back ended in a line end (`UndoRestores`).
- Events of one producer with one sequence number are ordered by first occurrence, and this can decide the
  verdict of the dependency check: it is the same in every order if and only if the dependencies without ties
  have a cycle, or those between merged groups have none (`OrderMattersExactly`).
- Repeating a recorded request parses the stored text without an integrity check. It returns the stored event
  if and only if the text is intact or still parses to it (`RecordIsIdempotent`).
- A pass that failed at its work reports another error text when its event is delivered again, and the ledger
  refuses that outcome (`SecondFailureCollides`).
- A selection that raises after its scan leaves the picked events marked as seen. If all other pending events
  are backed off, the pump then sleeps over work it could deliver until the earliest retry is due
  (`InterruptedSelectHidesWork`). With a selection as one step there is no lost wakeup (`NoLostWakeup`);
  `SleepMissesExactly` says what a sleep can miss in general.
- The pump conserves work (`DueWorkIsAttempted`), and once the broker answers it delivers everything that is due
  (`HealthyBrokerDelivers`). But it always begins with the oldest rows, and failing events come due again. An
  intact pending event is sure of an attempt, whatever the broker answers and however the clock runs, if and
  only if fewer than 16 intact pending events have a lower row id; then two turns of a pump just started are
  enough (`AttemptedExactly`). With 16 or more in front, a broker that answers nothing and a minute between the
  turns starve it for ever (`CrowdStarves`).
- A `receive` that times out between a control line and its body loses the message, and the next call takes
  what is left of it for a control line (`TornBodyReadsAsCommand`).

## Model

| member | source | states |
|---|---|---|
| `ReconcileTables.ReconcileState.Claim` | anvil_events/reconciliation/state.py:20-114 | a claim does exactly `ClaimAfter`: it sweeps an abandoned application to INDETERMINATE, then answers superseded, the state of the owning attempt, or inserts a PREPARED one; a claim that raises changes nothing |
| `ReconcileTables.ReconcileState.AdmitClaim` | anvil_events/reconciliation/state.py:49-112 | the part of a claim after the sweep, with the conflict errors for an applied and for a reused generation |
| `ReconcileTables.ReconcileState.ReopenApplied` | anvil_events/reconciliation/state.py:116-145 | reopening checks all of generation, revision, digest and adapter and resets one attempt |
| `ReconcileTables.ReconcileState.SetPreview` | anvil_events/reconciliation/state.py:181-196 | only PREPARED and AWAITING_APPROVAL attempts take a preview, and their next state |
| `ReconcileTables.ReconcileState.BeginApply` | anvil_events/reconciliation/state.py:158-179 | only a PREPARED attempt begins, and the unique (node, resource) index of applications refuses a second one |
| `ReconcileTables.ReconcileState.Complete` | anvil_events/reconciliation/state.py:198-253 | completing writes the resource row, the APPLIED state and deletes the application, or raises and changes nothing |
| `ReconcileTables.ReconcileState.Fail` | anvil_events/reconciliation/state.py:255-271 | failing writes FAILED or INDETERMINATE, the error cut to 300 characters, and deletes the application |
| `ReconcileTables.OneApplication` | anvil_events/storage/database.py:207-248 | deleting an application by its operation removes exactly the row of its place |
| `ReconcileTables.NewestExists` | anvil_events/reconciliation/state.py:84-92 | the newest attempt that the ORDER BY query picks is well defined |
| `ReconcileTables.ClaimKeepsSchema` | anvil_events/storage/database.py:207-248 | a claim meets every unique index and foreign key of the three tables |
| `ReconcileEngine.ReconcileEngine.ProcessLocked` | anvil_events/reconciliation/engine.py:44-170 | the straight-line pass under the lock is the run of the step function from claim to result, for every answer of adapter, resolver and policy |
| `ReconcileEngine.ReconcileEngine.ApplyAndVerify` | anvil_events/reconciliation/engine.py:130-170 | likewise from the policy gate on, with rollback after a failed verification |
| `ReconcileSystem.StepKeeps` | anvil_events/reconciliation/resource_lock.py:36-69 | the inductive invariant over tables, lock holders, program counters and history is kept by journalling, acquiring, every transaction, releasing and crashing |
| `ReconcileSystem.DistinctPlaces` | anvil_events/reconciliation/resource_lock.py:42-69 | two live passes never work on the same (node, resource) |
| `ReconcileSystem.MoveKeeps` | anvil_events/reconciliation/engine.py:44-170 | a transaction of one pass keeps the invariant and what every other live pass relies on |
| `ReconcileSafety.RunKeepsInv` | anvil_events/reconciliation/state.py:20-271 | the invariant holds in every state of every run |
| `ReconcileSafety.AppliesBounded` | anvil_events/reconciliation/engine.py:136-170 | in every run, applies begun for a (node, resource, generation) never exceed its verified completions plus one |
| `ReconcileSafety.NoReplay` | anvil_events/reconciliation/state.py:25-48 | once an apply of a generation crashed, raised or failed verification, no later step of any run begins another apply of it |
| `ReconcileSafety.SweptOnlyIfDead` | anvil_events/reconciliation/state.py:25-48 | a claim makes an attempt INDETERMINATE only if no live process is between begin_apply and complete or fail for it |
| `ReconcileSafety.LiveApplyKept` | anvil_events/reconciliation/resource_lock.py:58-69 | while a process is inside its apply, no transaction of another one touches its attempt or its application row |
| `ReconcileSafety.FinalIsForever` | anvil_events/reconciliation/state.py:25-48 | FAILED and INDETERMINATE attempts never change again in any run |
| `ReconcileSafety.AttemptsStay` | anvil_events/storage/database.py:207-222 | no step removes an attempt or moves it to another place or generation |
| `ReconcileSafety.GenerationsNeverGoBack` | anvil_events/reconciliation/state.py:208-239 | over every run a resource row stays, its generation never decreases, and within a generation revision, digest and adapter never change although `complete` re-checks only two of them |
| `ReconcileSafety.AttemptsIncrease` | anvil_events/reconciliation/state.py:78-112 | attempts of a place are inserted in strictly increasing generation, so no insert meets the unique index |
| `ReconcileSafety.RowHasOneAttempt` | anvil_events/reconciliation/state.py:66-77 | each resource row has exactly one attempt at its generation |
| `ReconcileSafety.RowComesFromJournal` | anvil_events/reconciliation/state.py:219-239 | each resource row has the content of a journaled desired event for its place |
| `ReconcileSafety.OnlyConflictsRaise` | anvil_events/reconciliation/state.py:116-271 | in every run the only errors a pass can end with are the two conflicts of `claim`: reopening, previewing, beginning and completing always find what they need and no unique index is hit |
| `ReconcileSafety.EnginePassIsARun` | anvil_events/reconciliation/engine.py:44-170 | the executed pass is one of the interleavings of the concurrent system |
| `ReconcileSafety.PathIsSteps` | anvil_events/reconciliation/engine.py:44-170 | the states of a pass that runs alone are joined by steps of the concurrent system |
| `ReconcileSafety.FreshEventConverges` | anvil_events/reconciliation/state.py:78-112 | from every reachable state in which the lock is free, crashes included, a process that acquires it for a fresh event above all attempted generations comes without fault, by steps of the system, to APPLIED with the event's content in the resource row |
| `ReconcileGate.AppliesAreCleared` | anvil_events/reconciliation/engine.py:94-131 | in every run, a step that begins an apply belongs to a pass whose policy had said yes to the preview of an artifact with the revision and the SHA-256 that its event names |
| `ReconcileGate.RowsAreVerified` | anvil_events/reconciliation/engine.py:141-170 | in every run, a step that writes a resource row belongs to such a pass, after its apply was verified, and writes the row of its event |
| `ReconcileGate.DenialBeginsNothing` | anvil_events/reconciliation/contracts.py:41-43 | under a policy that always says no, no run begins an apply or writes a row |
| `ReconcileGate.ResolvingIsReady` | anvil_events/reconciliation/engine.py:88-94 | in every reachable state a pass at the gate holds its attempt, and nothing is being applied at its place |
| `ReconcileGate.EndIsEngine` | anvil_events/reconciliation/engine.py:44-170 | the end of a pass, of which the next rows speak, is what the engine leaves behind and answers |
| `ReconcileGate.WrongArtifactFails` | anvil_events/reconciliation/engine.py:88-113 | from every reachable state, a pass whose artifact does not resolve or has another revision or digest ends failed, its attempt FAILED with the reason, and nothing is begun |
| `ReconcileGate.PreviewRaises` | anvil_events/reconciliation/engine.py:114-122 | likewise if the preview raises |
| `ReconcileGate.DeniedAwaitsApproval` | anvil_events/reconciliation/engine.py:123-129 | a denied pass ends awaiting approval, its attempt AWAITING_APPROVAL with the preview; applications, rows and everything begun stay as they are |
| `ReconcileGate.ApplyRaises` | anvil_events/reconciliation/engine.py:130-140 | an allowed pass whose apply raises ends indeterminate, its attempt INDETERMINATE with the error, and one apply was begun and broken off |
| `ReconcileGate.VerificationFails` | anvil_events/reconciliation/engine.py:141-165 | one whose verification fails or raises ends failed, its attempt FAILED with the error of the verification or of the rollback |
| `ReconcileGate.AllGoesWell` | anvil_events/reconciliation/engine.py:166-170 | and otherwise it ends applied, its attempt APPLIED, the row that of its event, and one apply was begun and completed |
| `ReconcileGate.AppliedIsRechecked` | anvil_events/reconciliation/engine.py:48-86 | an applied generation delivered again fails on a wrong artifact, stays applied if verified, and is prepared anew after a drift |
| `ReconcileGate.AbandonedIsIndeterminate` | anvil_events/reconciliation/state.py:25-48 | the claim after a process died inside its apply makes the abandoned attempt INDETERMINATE, and ends so if it is the claimed one |
| `ReconcileGate.ClaimExactly` | anvil_events/reconciliation/state.py:49-112 | in every reachable state, when a claim is superseded, conflicts, inserts an attempt or tells the state of one, in terms of what was applied and attempted at the place |
| `ReconcileGate.ClaimLeads` | anvil_events/reconciliation/engine.py:45-92 | what the pass ends with or where it goes on for each answer of the claim |
| `ReconcileGate.FreshIsReady` | anvil_events/reconciliation/engine.py:44-47 | from every reachable state with the lock free a fresh event above all attempted generations is claimed and comes to the gate |
| `ReconcileGate.FreshEventWaits` | anvil_events/reconciliation/engine.py:123-129 | so under a policy that says no it waits for approval, and nothing is begun |
| `ReconcileConvergence.Converges` | anvil_events/reconciliation/state.py:49-112 | any finite sequence of desired events of a resource, in any order, with repeats and drift in between, ends with the row at the maximum delivered generation, and without drift with that content deployed |
| `ReconcileConvergence.DriftIsRepaired` | anvil_events/reconciliation/engine.py:49-81 | after any history, one more delivery of a maximal event brings row and adapter back to its content |
| `ReconcileConvergence.DeliverSettles` | anvil_events/reconciliation/engine.py:44-170 | one delivery leaves lower generations alone, verifies an equal one and applies a higher one |
| `Processor.DesiredStateProcessor.Process` | anvil_events/reconciliation/processor.py:16-56 | other kinds are ignored; a conflict becomes a rejection; an outcome is recorded under the key of delivered event and kind; nothing is recorded without an outcome; what the database enforces is kept |
| `Processor.DesiredStateProcessor.RecordOutcome` | anvil_events/reconciliation/processor.py:40-55 | recording is the idempotent ledger step, and an error leaves the store unchanged |
| `Processor.OutcomeKeyInjective` | anvil_events/reconciliation/processor.py:40-45 | among operations whose hash texts do not collide the key text names one delivered event on one node and one outcome kind |
| `Processor.ApartExists` | anvil_events/reconciliation/state.py:14-18 | for every finite set of operations and digests there are texts without collision |
| `Processor.EncodeInjective` | anvil_events/reconciliation/engine.py:172-181 | unless hash texts collide no two outcome payloads are encoded alike, so the ledger's comparison of intents compares payloads |
| `Processor.EncodesError` | anvil_events/reconciliation/engine.py:82-87 | payloads with different error texts are encoded differently, whatever the hash texts |
| `Processor.RecordOfIsAStep` | anvil_events/reconciliation/processor.py:46-55 | what the processor does to the store is one step of the ledger |
| `OutcomeEvents.ResultFits` | anvil_events/reconciliation/processor.py:16-41 | whatever the host answers, applied passes have the outcome `reconcile.applied`, waiting ones `reconcile.awaiting_approval`, failed, indeterminate and rejected ones `reconcile.failed`, and superseded ones none; the payload speaks of the job; exactly the nodes that are not targets do nothing |
| `OutcomeEvents.RaisedIsRejected` | anvil_events/reconciliation/processor.py:19-36 | a pass that raises is reported as rejected, and only an error of the database escapes |
| `OutcomeEvents.OutcomeIsStored` | anvil_events/reconciliation/processor.py:42-56 | an outcome is recorded the first time exactly if names are short enough and the event is sound; the stored event then has that text as its kind, the members of the payload, and the delivered event as its cause |
| `OutcomeEvents.NothingIsStored` | anvil_events/reconciliation/processor.py:37-38 | a result without an outcome records nothing |
| `OutcomeRuns.RunKeepsInv` | anvil_events/reconciliation/processor.py:16-56 | over every run of reconciling processes, outcome recording and other uses of the store, a recorded settled outcome is the one that the owner of the generation determines |
| `OutcomeRuns.NextSettles` | anvil_events/reconciliation/engine.py:68-81 | a pass that ends as applied or awaiting approval reports the attempt that owns the generation and no error |
| `OutcomeRuns.OneOutcomeEach` | anvil_events/reconciliation/processor.py:38-56 | each delivered event and outcome kind yields at most one outcome event, and no event serves two of them |
| `OutcomeRuns.ReplayReturnsStored` | anvil_events/reconciliation/processor.py:38-56 | replaying a delivery that ends as applied or awaiting approval changes nothing and never collides: while its operation is RECORDED what the stored text parses to comes back, which is the stored event if and only if the text is intact or still parses to it; a text that does not parse is an error; after a quarantine it is refused |
| `OutcomeRuns.FailureReplaysOnSameText` | anvil_events/storage/operations.py:83-101 | with an outcome recorded, a payload with another error text is refused as a key collision, and the same payload is replayed |
| `OutcomeRuns.WorkFails` | anvil_events/reconciliation/engine.py:88-166 | a pass that fails at its work leaves the attempt of its generation FAILED or INDETERMINATE, with one of the texts of that work |
| `OutcomeRuns.ClaimFinal` | anvil_events/reconciliation/state.py:49-99 | a pass for a generation whose attempt is FAILED or INDETERMINATE is superseded or fails with a text of its claim, whatever the host answers |
| `OutcomeRuns.SecondFailureCollides` | anvil_events/reconciliation/processor.py:16-56 | in every run, once a pass failed at its work and its outcome was accepted, each later pass for the same delivery is superseded, or ends with a `reconcile.failed` outcome of another text, which the ledger refuses as a key collision |
| `Identity.SplitInvertsPrint` | anvil_events/storage/migration.py:154-171 | splitting an event id at its last colon gives back producer and sequence, whatever colons and digits the producer contains |
| `Identity.EventIdInjective` | anvil_events/domain_v2.py:194 | one event id names one producer and one sequence |
| `EventStore.EventStore.Put` | anvil_events/storage/events.py:55-143 | `put` does exactly the specified insert or merge, quarantines a healed text, and changes nothing when it raises |
| `EventStore.EventStore.EmitEvent` | anvil_events/storage/events.py:145-185 | emitting takes the next sequence number, puts the event as pending and bumps the change counter |
| `EventStore.EventStore.AppendEvent` | anvil_events/storage/events.py:201-205 | appending puts the event as pending and bumps the change counter exactly if its role changed |
| `EventStore.EventStore.AppendToJournal` | anvil_events/storage/events.py:207-214 | journalling answers whether the event was not journaled before |
| `EventStore.EventStore.RecordAck` | anvil_events/storage/events.py:216-274 | a PubAck is checked, compared with earlier evidence, recorded and moves the cursor only forward |
| `EventStore.EventStore.RepairPending` | anvil_events/storage/delivery.py:18-67 | all spoiled pending rows and no others leave delivery, their text is put aside, RECORDED operations on them become INDETERMINATE, with one change and one audit event |
| `EventStore.EventStore.CollectExpired` | anvil_events/storage/retention.py:14-34 | exactly the acknowledged rows older than the cutoff leave their role, with one audit event if there were any |
| `EventStore.EventStore.ImportAll` | anvil_events/storage/migration.py:211-217 | the put loop of an import is all or nothing |
| `EventStore.EventStore.PrepareOperation` | anvil_events/storage/operations.py:19-61 | preparing is idempotent per key and refuses a key or operation id used for something else |
| `EventStore.EventStore.RecordEvent` | anvil_events/storage/operations.py:63-125 | recording stores an event and its operation together, or returns what the stored text of the event parses to |
| `EventStore.EventStore.ResolveOperation` | anvil_events/storage/operations.py:127-180 | a PREPARED operation is resolved once with one event; a repeat must agree in state, error and payload with the operation, and in node and payload with what the stored text parses to |
| `EventStore.EventStore.MarkOperation` | anvil_events/storage/operations.py:182-192 | only a PREPARED operation can be marked INDETERMINATE |
| `StoreJoin.NoSequenceCollision` | anvil_events/storage/events.py:117-124 | the sequence-collision branch of `put` is unreachable |
| `StoreJoin.EmitIsFresh` | anvil_events/storage/events.py:35-53 | the next sequence number never yields a known event id |
| `StoreJoin.EmitSucceeds` | anvil_events/storage/events.py:174-185 | emitting succeeds for exactly the sound drafts and always inserts a new pending row |
| `StoreJoin.PutFits` | anvil_events/storage/events.py:55-73 | a put succeeds exactly for a valid envelope that does not contradict a stored one |
| `StoreJoin.NewRoleIsJoin` | anvil_events/storage/events.py:94-99 | the cascade on roles is the maximum on none, pending, acked |
| `StoreJoin.PutAllJoins` | anvil_events/storage/migration.py:211-217 | a sequence of puts succeeds exactly if its envelopes agree with each other and the store, and then every row and sequence is the least upper bound |
| `StoreJoin.PutsAreOrderFree` | anvil_events/storage/events.py:55-143 | order and repetition of puts change neither acceptance nor the resulting store, up to row ids, times, evidence and quarantine |
| `StoreRuns.EveryStepConserves` | anvil_events/storage/events.py:216-274 | in every step rows stay; a row leaves pending only by its PubAck or by quarantine of a damaged text; evidence of an acked row is fixed until retention; the counter moves whenever the pending set does |
| `StoreRuns.RowsAreForever` | anvil_events/storage/retention.py:21-34 | over every run no event row is removed or becomes another event |
| `StoreRuns.CursorsAreHighest` | anvil_events/storage/events.py:259-272 | over every run each cursor is the acknowledged event of its subject and producer with the highest sequence |
| `StoreRuns.EqualSignatureEqualPending` | anvil_events/storage/queries.py:47-55 | the change counter never goes back, and equal counters at two moments of a run mean equal pending sets |
| `StoreRuns.OneEventPerKey` | anvil_events/storage/operations.py:63-125 | over every run one idempotency key yields at most one event, no event belongs to two keys, and the event is stored |
| `StoreRuns.IndeterminateIsForever` | anvil_events/storage/operations.py:182-192 | an INDETERMINATE operation never changes again |
| `StoreRuns.RecordIsIdempotent` | anvil_events/storage/operations.py:83-104 | repeating a request whose operation is RECORDED changes nothing; it returns the stored event if and only if the stored text is intact or still parses to it, otherwise what the text parses to, or an error; after a quarantine it is refused |
| `StoreRuns.StepKeepsLedger` | anvil_events/storage/operations.py:19-192 | RECORDED, APPLIED and FAILED operations own distinct stored events and PREPARED ones own none |
| `OperationRuns.ResolutionsAreTold` | anvil_events/storage/operations.py:127-180 | in every run an operation is APPLIED only through a resolution that said it succeeded and FAILED only through one that said it did not, and that resolution emitted its event |
| `OperationRuns.FirstResolution` | anvil_events/storage/operations.py:156-180 | in every reachable store a PREPARED operation can be resolved with its intent: it becomes APPLIED or FAILED as told, with the error cut to 300 characters, and its event is stored with its intent, kind, producer and the node given |
| `OperationRuns.ResolvesAgain` | anvil_events/storage/operations.py:144-155 | a second resolution is accepted exactly if it says the same, and changes nothing |
| `OperationRuns.OthersAreRefused` | anvil_events/storage/operations.py:136-161 | unknown, INDETERMINATE and RECORDED operations are not resolved, nor PREPARED ones with another intent; exactly PREPARED ones can be marked |
| `OperationRuns.PrepareExactly` | anvil_events/storage/operations.py:19-61 | when preparing is accepted, as new or as a repetition, member by member |
| `OperationRuns.RecordsNew` | anvil_events/storage/operations.py:63-125 | when recording under a new key is accepted, and the event and the operation that it then stores |
| `OperationRuns.RecordsAgain` | anvil_events/storage/operations.py:82-104 | when recording under a taken key is accepted, member by member |
| `OperationRuns.RepairReleases` | anvil_events/storage/delivery.py:52-60 | after a repair the RECORDED operation of each event taken out is INDETERMINATE and says why, and all others are as before |
| `OperationRuns.RepairKeepsTexts` | anvil_events/storage/delivery.py:39-51 | a repair puts the text of each row taken out aside once, and nothing else |
| `OperationRuns.HealingKeepsText` | anvil_events/storage/events.py:73-92 | a redelivery over a damaged text puts that text aside once and stores the event again |
| `OperationRuns.RepairIsAudited` | anvil_events/storage/delivery.py:61-67 | a repair that took rows out adds one audit event with their number, journaled and never delivered |
| `OperationRuns.CollectionIsAudited` | anvil_events/storage/retention.py:23-37 | so does a collection |
| `OperationRuns.EmitStores` | anvil_events/storage/events.py:174-199 | an emitted event is the next of its producer, has the members of its draft, and is stored pending in a row of its own |
| `AckRuns.AckAcceptedExactly` | anvil_events/storage/events.py:216-249 | evidence is accepted exactly for a stored event, with a positive number of a stream over letters, digits, `_` and `-`, unless the event is acknowledged with another stream or number |
| `AckRuns.AckStores` | anvil_events/storage/events.py:249-258 | an acknowledgement stores the evidence, the time unless there is one, and an intact text |
| `AckRuns.RowsKnowTheirTimes` | anvil_events/storage/events.py:249-258 | in every run each row has the time at which its event was first acknowledged, and none if it never was |
| `AckRuns.RetentionTakesOld` | anvil_events/storage/retention.py:20-30 | in every run a collection takes out of their role exactly the acknowledged rows whose event was first acknowledged before the cutoff, and leaves all others as they are |
| `AckRuns.JournalTellsFirst` | anvil_events/storage/events.py:207-214 | in every run only the first acceptance of an event by the journal is told as new |
| `ChangeRuns.CounterIsExact` | anvil_events/storage/events.py:26-34 | the change counter moves by one exactly with the steps that change the role of a row, retention excepted |
| `PendingDelivery.PendingDelivery.Select` | anvil_events/storage/delivery.py:69-121 | one bounded selection as specified: eligible unseen intact events in row order, end-of-file flag, repair of damaged rows met, position and signature; and what is marked and stored when reading, repairing or the signature raises |
| `PendingDelivery.Walk` | anvil_events/storage/delivery.py:91-114 | the loop over the fetched rows is the recursive scan |
| `PendingDelivery.PendingDelivery.QueryPending` | anvil_events/storage/delivery.py:75-83 | the query returns the first pending rows after the position in row order |
| `Delivery.ScanSelects` | anvil_events/storage/delivery.py:91-114 | a scan selects exactly the intact, eligible, unseen events of the rows it looked at, in order |
| `Delivery.ScanFinds` | anvil_events/storage/delivery.py:93-104 | it reports corruption exactly if it looked at a damaged row |
| `Delivery.SelectFacts` | anvil_events/storage/delivery.py:69-121 | what a selection returns, moves and repairs, in terms of the pending rows behind its start |
| `Delivery.SelectSigns` | anvil_events/storage/delivery.py:117 | a selection reports the change signature exactly if it reached the end, and then that of the store it leaves behind |
| `Delivery.RepairedPending` | anvil_events/storage/delivery.py:18-67 | a repair always succeeds, leaves the intact pending rows in their order and no spoiled ones |
| `Delivery.SelectProgresses` | anvil_events/storage/delivery.py:106-121 | a selection that does not reach the end moves its position on or removes corrupt rows, so a sweep ends |
| `Delivery.SweepIsComplete` | anvil_events/runtime/delivery.py:33-46 | selecting until end-of-file returns exactly the intact eligible pending events behind the position, for every batch size and scan limit, also when rows are quarantined and the position is reset |
| `Delivery.SweepFindsAllWork` | anvil_events/storage/delivery.py:69-121 | from the beginning a sweep returns every intact eligible pending event exactly once and in row order |
| `Pump.EarliestExists` | anvil_events/runtime/delivery.py:47-49 | a non-empty backoff table has an earliest next attempt |
| `Pump.DelayDoubles` | anvil_events/runtime/delivery.py:80-81 | the delay doubles with each failure up to sixty |
| `PumpBackoff.BackoffCountsFailures` | anvil_events/runtime/delivery.py:64-90 | in every run, after k failed attempts since an event was last acknowledged or the pump was started, the k-th at time t, its entry is k failures and t plus the delay of k, and without such an attempt it has none |
| `PumpBackoff.SecondsGrow` | anvil_events/runtime/delivery.py:80-81 | these delays are 2, 4, 8, 16, 32 and then always 60 seconds |
| `PumpBackoff.TallyIsExact` | anvil_events/runtime/delivery.py:52-97 | a delivery tells how many events it tried, and as failed just those that it leaves backed off |
| `PumpBackoff.DeliverySettles` | anvil_events/runtime/delivery.py:91-97 | after a delivery the pump knows the earliest next attempt of what is backed off, and begins at the oldest rows if it tried something |
| `DeliveryPump.DeliveryPump.PendingBatch` | anvil_events/runtime/delivery.py:26-50 | the selection with the backoff table as eligibility, what it does to position, seen set and sleep, and what is left when it raises |
| `DeliveryPump.DeliveryPump.DeliverBatch` | anvil_events/runtime/delivery.py:52-97 | each due event is published and acknowledged or backed off by min(60, 2^min(failures, 6)); position and sleep afterwards |
| `DeliveryPump.DeliveryPump.PublishOne` | anvil_events/storage/sqlite.py:61-68 | an answer from another stream is refused before the store is touched |
| `DeliveryPump.DeliveryPump.WaitForRetryOrNewWork` | anvil_events/runtime/delivery.py:128-143 | when the pump keeps waiting and when it forgets its sleep |
| `DeliveryPump.DeliveryPump.Forget` | anvil_events/runtime/delivery.py:113-116 | after a failed connection the batch is no longer marked as seen and the position is reset |
| `DeliveryPump.DeliveryPump.TakeTurn` | anvil_events/runtime/delivery.py:99-126 | one turn of the loop in `run`, composed of the calls above, also when the selection, connecting or delivering raises |
| `DeliveryPump.DeliveryPump.Run` | anvil_events/runtime/delivery.py:99-126 | the loop is the composition of its turns, and keeps the pump invariant if the clock does not go back and no selection raises after it marked events |
| `PumpRuns.StepArrives` | anvil_events/storage/events.py:126-143 | every step of the store that does not revive an event leaves row ids alone and adds pending rows only behind the old ones |
| `PumpRuns.SelectKeeps` | anvil_events/runtime/delivery.py:26-50 | a selection keeps the pump invariant: nothing pending is seen unless in hand, every pending row up to the position is backed off, and the sleep signature covers everything pending |
| `PumpRuns.MoveKeepsInv` | anvil_events/runtime/delivery.py:26-143 | so does every move of the pump and every step of the rest of the program |
| `PumpRuns.NoLostWakeup` | anvil_events/runtime/delivery.py:128-143 | over every interleaving, whenever the pump decides to keep waiting, every pending event is backed off with its next attempt in the future |
| `PumpTurns.TurnIsMoves` | anvil_events/runtime/delivery.py:99-126 | a turn of the executed loop is a sequence of such moves, also when it is broken off |
| `PumpTurns.TryFirstKeeps` | anvil_events/runtime/delivery.py:52-90 | while a batch is worked off, the rest of it is in hand and due, and what was tried is acknowledged or backed off |
| `PumpTurns.OrderlyRunKeeps` | anvil_events/runtime/delivery.py:99-126 | any number of turns keep the tables in order and the pump invariant |
| `PumpProgress.IdleTurn` | anvil_events/runtime/delivery.py:33-50 | a turn that attempts nothing while an event is due does not wait, leaves it due and comes nearer to it in a bounded measure |
| `PumpProgress.DueWorkIsAttempted` | anvil_events/runtime/delivery.py:99-126 | as long as an intact event is due, some event is attempted within 3n + 2 turns, where n is the next row id |
| `PumpProgress.BusyTurn` | anvil_events/runtime/delivery.py:52-97 | a turn that attempts something acknowledges each event of its batch or backs it off into the future, changes no other row or backoff, and leaves every other due event due |
| `PumpFront.FrontIsPicked` | anvil_events/storage/delivery.py:69-121 | a selection from the beginning that repairs nothing picks every due event with fewer than 16 intact pending events in lower rows, however many of these are backed off |
| `PumpFront.FrontIsAttempted` | anvil_events/runtime/delivery.py:99-126 | whatever the broker answers and however the clock runs, such an event is attempted within n + 1 turns, where n is the next row id, and within two if the pump is at the beginning |
| `PumpStarvation.AttemptedExactly` | anvil_events/runtime/delivery.py:99-126 | a started pump attempts an intact pending event in every run of two turns if and only if fewer than 16 intact pending events have a lower row id, and otherwise no number of turns is enough |
| `PumpRecovery.HealthyBrokerDelivers` | anvil_events/runtime/delivery.py:52-126 | once the broker answers every publish with good evidence, a due event is acknowledged within 3(n + 1)(w + 1) turns for w intact pending events, however many are in front of it and whatever was or comes to be backed off |
| `PumpStarvation.CrowdStarves` | anvil_events/runtime/delivery.py:26-97 | with 16 or more intact pending events in lower rows, a broker that answers nothing and a minute between the turns, an event is not attempted in any number of turns, though it stays due, damaged rows and repairs on the way included |
| `PumpRuns.SleepMissesExactly` | anvil_events/runtime/delivery.py:43-50 | whatever led to it, a sleep covers everything pending if and only if that is so for the events at or below the position and those marked as seen |
| `PumpRuns.InterruptedSelectHidesWork` | anvil_events/runtime/delivery.py:113-116 | a selection that raises after its scan can make the pump sleep over deliverable work |
| `PumpStarvation.CrowdedStore` | anvil_events/runtime/delivery.py:26-97 | there are tables with such an event |
| `PumpStarvation.RevivalMissedExactly` | anvil_events/storage/events.py:95-100 | when an event that had left delivery is appended again in mid-sweep and the next selection reaches the end with nothing, the sleep covers all other pending events, and the revived one if and only if its old row lies behind the position and it is not marked as seen, or it is in the backoff table |
| `PumpStarvation.InterruptionHappens` | anvil_events/runtime/delivery.py:113-116 | a store of two events and a pump for which a selection that raises after its scan hides a due event |
| `DependencyGraph.Check` | anvil_events/dependency_graph.py:13-72 | the verdict is sound exactly if no id has two envelopes and causes with the full producer order are acyclic; a conflict names such an id; a cycle verdict names an event with a cycle among its ancestors |
| `DependencyGraph.Deduplicate` | anvil_events/dependency_graph.py:15-32 | it finds a conflict exactly if there is one, and otherwise keeps first occurrences and their index |
| `DependencyGraph.CollectEdges` | anvil_events/dependency_graph.py:33-44 | cause edges in both directions, indegrees that count them, and the events of each producer |
| `DependencyGraph.AddChains` | anvil_events/dependency_graph.py:45-51 | with the chains added, reachability is that of causes with the full producer order |
| `DependencyGraph.Kahn` | anvil_events/dependency_graph.py:52-62 | the order respects all edges and is maximal: whatever is left out waits for something left out |
| `DependencyGraph.Blame` | anvil_events/dependency_graph.py:63-72 | a complete order means acyclic; otherwise the first missing index lies behind a cycle |
| `DependencyGraph.CompleteIsAcyclic` | anvil_events/dependency_graph.py:52-63 | a complete order excludes cycles |
| `DependencyGraph.StuckIsBehindCycle` | anvil_events/dependency_graph.py:63-71 | every index left out has a cycle among its ancestors |
| `DependencyGraph.VerdictIsOrderFree` | anvil_events/dependency_graph.py:13-72 | for distinct (producer, sequence) pairs the verdict is that of the set of events, whatever order and repetition |
| `DependencyGraph.TiesAreOrderSensitive` | anvil_events/dependency_graph.py:45-51 | two events with one (producer, sequence) pair that get different verdicts in their two orders |
| `DependencyTies.SomeOrderIsSound` | anvil_events/dependency_graph.py:45-51 | some order of a consistent set is judged sound if and only if causes with the strict sequence order are acyclic |
| `DependencyTies.EveryOrderIsSound` | anvil_events/dependency_graph.py:45-51 | every order and repetition is judged sound if and only if the same is acyclic with the events of one (producer, sequence) pair merged |
| `DependencyTies.OrderMattersExactly` | anvil_events/dependency_graph.py:13-72 | the verdict on a consistent set is the same in every order if and only if the former has a cycle or the latter has none |
| `Graphs.StuckHasCycle` | anvil_events/dependency_graph.py:63-71 | in a finite set whose members all have a predecessor in it, each has a cycle among its ancestors |
| `JsonMerge.Merge` | anvil_events/reconciliation/json_merge_adapter.py:36-46 | for any iteration order of the patch the loop computes MergePatch of section 2 of RFC 7396 |
| `JsonMerge.MergeIdempotent` | anvil_events/reconciliation/json_merge_adapter.py:142-145 | merging the same patch again changes nothing |
| `JsonMerge.VerifyMeansMet` | anvil_events/reconciliation/json_merge_adapter.py:142-145 | the fixed-point test holds exactly if every null path is absent, every leaf path equal and every object path an object |
| `JsonMerge.TouchesPath` | anvil_events/reconciliation/json_merge_adapter.py:49-57 | the walk decides `Touches` |
| `JsonMerge.UntouchedIsKept` | anvil_events/reconciliation/json_merge_adapter.py:36-57 | an untouched path keeps its value or absence in every document, scalars at ancestors included |
| `JsonMerge.TouchesIsExact` | anvil_events/reconciliation/json_merge_adapter.py:49-57 | a patch touches a path if and only if some document would notice the merge there |
| `JsonMergeAdapter.ApplyThenVerify` | anvil_events/reconciliation/json_merge_adapter.py:134-145 | verification succeeds right after every successful apply, and the patch is met in full |
| `JsonMergeAdapter.ApplySucceedsExactly` | anvil_events/reconciliation/json_merge_adapter.py:105-140 | an apply whose write does not fail succeeds if and only if the artifact is an object, not credential-shaped and noticed by no document at a protected path, the destination is missing or an object, and it is as previewed; what is written and remembered then, and that nothing changes otherwise |
| `JsonMergeAdapter.PreviewSucceedsExactly` | anvil_events/reconciliation/json_merge_adapter.py:105-132 | a preview succeeds if and only if that holds but for the earlier preview, and remembers what it read |
| `JsonMergeAdapter.VerifySucceedsExactly` | anvil_events/reconciliation/json_merge_adapter.py:105-145 | so does a verification; it says yes if and only if every path of the patch is met |
| `JsonMergeAdapter.ApplyKeepsProtected` | anvil_events/reconciliation/json_merge_adapter.py:105-114 | no apply changes what a protected path holds |
| `JsonMergeAdapter.ApplyRefusesStalePreview` | anvil_events/reconciliation/json_merge_adapter.py:124-140 | after a preview an apply goes ahead exactly if the same bytes are read again |
| `JsonMergeAdapter.RollbackRestores` | anvil_events/reconciliation/json_merge_adapter.py:147-148 | rolling back a successful apply restores the file exactly, a missing one included |
| `JsonMergeAdapter.JSONMergeAdapter.Apply` | anvil_events/reconciliation/json_merge_adapter.py:134-140 | the executed apply is the specified one, failing writes included |
| `JsonMergeAdapter.JSONMergeAdapter.Preview` | anvil_events/reconciliation/json_merge_adapter.py:124-132 | a preview remembers the bytes it read and changes nothing else |
| `JsonMergeAdapter.JSONMergeAdapter.Verify` | anvil_events/reconciliation/json_merge_adapter.py:142-145 | verification is the fixed-point test on the current file |
| `ManagedFile.ManagedFileAdapter.Apply` | anvil_events/reconciliation/file_adapter.py:44-73 | the previous content is remembered before the write; a failed write leaves the destination alone |
| `ManagedFile.ManagedFileAdapter.Rollback` | anvil_events/reconciliation/file_adapter.py:83-105 | the remembered content, or its absence, is put back |
| `ManagedFile.RollbackUndoesApply` | anvil_events/reconciliation/file_adapter.py:44-105 | a rollback after an apply restores the destination, whether or not the write succeeded |
| `ManagedFile.RollbackExactly` | anvil_events/reconciliation/file_adapter.py:83-105 | what a rollback puts back, and that only writing can fail |
| `CommandConfig.CommandConfigAdapter.Preview` | anvil_events/reconciliation/command_config_adapter.py:141-155 | a preview remembers what it reads, or raises and keeps the earlier memory |
| `CommandConfig.CommandConfigAdapter.Apply` | anvil_events/reconciliation/command_config_adapter.py:157-170 | with nothing remembered a failing read raises before any write and remembers nothing; otherwise, for every failing position and every memory, either all keys are set, or the successful writes are undone in reverse order up to a failing undo or a key that the memory lacks; other keys never change |
| `CommandConfig.CommandConfigAdapter.Verify` | anvil_events/reconciliation/command_config_adapter.py:172-181 | verification holds exactly if every key reads as planned |
| `CommandConfig.CommandConfigAdapter.Rollback` | anvil_events/reconciliation/command_config_adapter.py:183-187 | everything remembered is written back, last key first, up to a failing write, and other keys never change |
| `CommandConfig.HoldsIsUnique` | anvil_events/reconciliation/command_config_adapter.py:157-170 | what a full apply or rollback promises determines the configuration |
| `CommandConfig.AppliedVerifies` | anvil_events/reconciliation/command_config_adapter.py:157-181 | a plan applied in full verifies |
| `CommandConfig.StripExactly` | anvil_events/reconciliation/command_config_adapter.py:123-126 | reading cuts exactly the line ends off the end of a value |
| `CommandConfig.UndoRestoresExactly` | anvil_events/reconciliation/command_config_adapter.py:166-170 | whatever the memory and however far the undo got, the configuration is as before if and only if each write that stands and each undo wrote what was there |
| `CommandConfig.UndoRestores` | anvil_events/reconciliation/command_config_adapter.py:166-170 | a complete undo after a preview restores the configuration if and only if no value written back ended in a line end |
| `CommandConfig.RollbackRestores` | anvil_events/reconciliation/command_config_adapter.py:183-187 | likewise for a rollback after a full apply |
| `Wire.NATSWire.ReadLine` | anvil_events/transport/protocol.py:99-110 | for every chunking the line is the part of the stream in front of its first CRLF; closing, overflow and `-ERR` only when the stream says so; late only by using up a timeout before which no CRLF had arrived |
| `Wire.NATSWire.ReadBody` | anvil_events/transport/protocol.py:112-124 | the body and its terminator are the next bytes of the stream, each error names a defect of the stream, and late is only by using up a timeout before which the body had not arrived |
| `Wire.NATSWire.DecodeMessage` | anvil_events/transport/protocol.py:170-199 | decoding is parsing the control line and the body that the stream holds; late as `ReadBody` |
| `Wire.NATSWire.TakePending` | anvil_events/transport/protocol.py:143-150 | of the pending messages the first matching ones are taken and the others keep their order |
| `Wire.NATSWire.ReceiveOne` | anvil_events/transport/protocol.py:153-165 | one turn of the loop consumes one frame of a well-formed stream and routes it, unless the stream is at its end or a timeout came before the frame was complete |
| `Wire.NATSWire.Receive` | anvil_events/transport/protocol.py:137-168 | for every split of a well-formed stream a call consumes as many frames as it needs and no more, returns and keeps exactly their messages and answers each PING; it stops short only at the deadline, by a timeout, or, as an error, at the end of the stream; with time, no timeout and enough matching messages it yields as many as asked for |
| `Wire.NATSWire.ReceiveAll` | anvil_events/transport/protocol.py:137-168 | over any sequence of calls of which none is torn or fails, what was read are the messages of the frames consumed, and for each subscription the answers followed by what is pending are its messages in order |
| `Wire.StreamDeterminesMessages` | anvil_events/transport/protocol.py:170-199 | parsing a whole well-formed stream has one result |
| `Wire.NATSWire.Subscribe` | anvil_events/transport/protocol.py:126-135 | a subject gets one fresh subscription id, announced once |
| `WireFormat.DecodesMessage` | anvil_events/transport/protocol.py:170-199 | parsing inverts printing for MSG and HMSG frames with and without reply and header |
| `WireFormat.ValidSubjectOfTokens` | anvil_events/transport/protocol.py:56-69 | tokens without dots, joined by dots, are accepted as a subject if and only if each is non-empty and free of white space, `*` and `>` |
| `WireFormat.ValidSubjectExactly` | anvil_events/transport/protocol.py:56-69 | what is accepted as a subject are exactly such lists of tokens joined by dots; the theorems on streams are stated over this grammar |
| `WireFormat.DecodedIsGrammatical` | anvil_events/transport/protocol.py:170-199 | what decodes is a MSG or HMSG line with nothing missing and nothing more, subjects of the grammar, numerals for id and sizes, a positive id, and the payload without its header |
| `WireFormat.LineIsPlain` | anvil_events/transport/protocol.py:107-109 | a well-formed control line contains no CRLF and is not taken for an error line |
| `WireFormat.ParseDecimal` | anvil_events/transport/protocol.py:72-78 | parsing a printed number gives the number back |
| `Routing.CallKeepsOrder` | anvil_events/transport/protocol.py:142-168 | one call keeps each subscription's messages in order, none lost or repeated |
| `Routing.CallsKeepOrder` | anvil_events/transport/protocol.py:137-168 | over any sequence of calls the returned messages of a subscription followed by the pending ones are exactly those read, in order |
| `Wire.TornBodyReadsAsCommand` | anvil_events/transport/protocol.py:166-176 | what a torn call leaves behind a message with the body PING is the stream of a peer that sent a PING instead, so by its contract the next call answers it, and the message is lost |

## Left out

- Sockets, TLS, HTTP servers, CLI, daemon, configuration files, facts, status reports: input, output and plumbing.
- SQLite itself: transactions are atomic, isolated and durable; connections, WAL mode and schema versions do not appear.
- Locks as files: descriptors, symbolic links, permission bits, the Windows variant. The hash that picks one of 64 shards is an arbitrary function; a busy lock is a step that does not happen.
- Times of rows (`started_at`, `completed_at`, `updated_at`, `prepared_at`, `resolved_at`) and the delivery-failure columns that `note_delivery_failure` writes: nothing reads them back in the modelled code. If `note_delivery_failure` itself raises, the batch is given up: a `GivesUp` move.
- Validation of envelopes and payloads other than sequence number and event id, the size limit at acceptance, credential shapes, URL and endpoint policy: one flag (`sound`, `sensitive`, `valid`) per event, patch or file.
- Acceptance sizes compact JSON while publishing encodes with other separators; whether an accepted event fits at publish time is not modelled.
- A damaged text that parses to JSON without the members of an envelope counts as one that does not parse; `record` would return it and `resolve` fail on a missing member.
- The stored digest column: a row is damaged when its text no longer fits its digest; a damaged digest with an intact text is not modelled.
- A row whose intact text fails validation at delivery: `put` only stores valid envelopes, so damage is the only reason for quarantine here. Quarantine texts are kept; their order and time are not.
- The file-size part of retention, and the checkpoint after it.
- Legacy import beyond its put loop: source locks, snapshots, its cursors and its use of the change counter, and the `ack` compatibility call without broker evidence. They are not steps of `StoreRuns`.
- v1 envelopes differ from v2 ones in fields the model does not look at; one `Event` stands for both.
- Reviving an event, that is appending one whose row had left delivery, is a step of `StoreRuns` but not of `PumpRuns`: its old row can lie at or below the pump's position, or the event still be marked as seen. `RevivalMissedExactly` says what the sleep after it misses.
- The `stop` event of the pump and of the subscriber: stopping ends a run.
- Concurrent writes between a selection's scan and its signature, which use two connections: a selection is one step.
- A negative `max_scan`, which SQLite takes as no limit, and `eligible` callbacks other than the pump's.
- `reconcile_stored`: it processes the journaled event of each resource row and raises unless all end as applied. Its passes are passes of `ReconcileSystem`; the loop and the reading of the journal are not modelled.
- Policies and resolvers that raise unexpected exceptions: they end a pass like a crash outside an apply.
- The adapter `ManagedFileAdapter` as a verifier by digest appears as the host of `ReconcileConvergence`; modes, temporary files and directory syncs do not appear.
- JSON texts: documents are values with structural equality and real numbers, so Python's equality of 1, 1.0 and true and its float rounding are not modelled. Whether a text parses is part of `Content`.
- Texts are sequences of characters and wire data sequences of bytes; UTF-8 decoding of subjects and white space beyond ASCII in them are not modelled.
- Streams that are not well formed: the reader's errors are specified call by call (`ReadLine`, `ReadBody`, `DecodeMessage`), but no claim is made about a connection after one of them.
- Real subprocesses, their output limits and the texts that tell a missing key from a failed read: a configuration is a map and failing commands are parameters.
- DependencyGraph.Check: events whose `causes` or `producer_seq` are missing are taken with their defaults, an empty list and 0.
- OutcomeRuns.ReplayReturnsStored: assumes that no other user of the ledger takes idempotency keys that begin with `outcome:`, and that the hash texts of the operations handled do not collide.
- PumpTurns.OrderlyRunKeeps: turns follow each other without other uses of the store; these are interleaved at every transaction in `PumpRuns`.
- Wire.NATSWire.ReceiveAll: says nothing after a torn call, whose message is lost (`TornBodyReadsAsCommand`).
