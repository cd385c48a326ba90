# Verified model of the noddde engine

noddde is a CQRS and event-sourcing runtime: commands are decided against state folded from
events, the events are saved under a version check, and projections, sagas, an outbox and
message brokers carry them on. Its worth is in what it guarantees while many executions
interleave, retry and crash. This project models that behaviour in Dafny and proves the
guarantees for every schedule.

The command path is a transition system (`engine.dfy`): any number of command executions,
explicit units of work and outbox relays take one step per `await` over a database whose
commits are atomic, and any of them may vanish at any step. Command handlers, `evolve`,
snapshot decisions, reducers, id extractors and payloads are uninterpreted.
`engine_invariant.dfy`, `engine_commit.dfy` and `engine_steps.dfy` hold one invariant and the
proof that every step keeps it; `engine_theorems.dfy` reads the guarantees off it,
`engine_progress.dfy` says what does, and what can never, succeed, `engine_publishing.dfy` that a
unit saves and publishes all it enlisted, and `engine_history.dfy` what a step leaves of everyone else. `lifecycle.dfy` is the executor's sequential code, loops
included, proved to enlist what the steps of the machine enlist.

Sagas (`saga.dfy`, `saga_invariant.dfy`, `saga_theorems.dfy`) are a second machine over the
first: a saga execution's unit of work is an engine thread, its reaction commands run the
engine's own steps, and its commit is one transaction over the saga store and the engine's
database. Whatever sagas do, the engine beneath them has run a schedule of its own
(`SagaTransactions.EngineBeneath`), so every theorem about schedules holds with sagas running.

Two more machines run the engine beside something else in the same way. `engine_rebuild.dfy`
interleaves it with a projection rebuild that detaches, empties, reads and re-attaches step by
step; `pessimistic_engine.dfy` guards its loads and commits by the locks of the pessimistic
strategy.

Around it, one file per component:

- `types.dfy`: events, keys, metadata, handler results, and sequence facts
- `upcaster.dfy`: schema evolution
- `projection.dfy`: projections, and rebuilding them
- `event_store.dfy`: the length-check store, the unique-index store, compare-and-set documents
- `unit_of_work.dfy`: the in-memory and the transactional unit of work, and the engine run on each
- `outbox.dfy`: the outbox store and the relay
- `idempotency.dfy`: the in-memory idempotency store with its expiry
- `strategies.dfy`: the optimistic retry loop, and the completion hooks
- `locker.dfy`, `pessimistic.dfy`, `keyed_mutex.dfy`: the FIFO locker, the pessimistic strategy over it, the per-key mutex
- `kafka.dfy`, `rabbitmq.dfy`: redelivery and per-aggregate ordering in the consumers
- `hash.dfy`: string keys and their 64-bit hash

Concurrent protocols are state machines, because their guarantees are about steps of
different executions; objects used by one caller at a time (stores, units of work, locker,
relay, registry, consumers) are classes whose methods are proved against the functions the
machines use. `dafny verify dfyconfig.toml` checks everything.

Where code and documentation part, the model follows the code:

- The in-memory unit of work can commit a prefix of its operations (documented in
  `packages/core/src/persistence/unit-of-work.ts:65-67`), so the all-or-nothing guarantees are
  stated for transactional units; `EngineUnits.InMemoryFailureKeepsEventsIff` says exactly when
  a failed command leaves its events behind without one.
- `upcastEvent` does not advance `metadata.version`, so it is not idempotent on its own output.
- The locker's `release` does not check who calls it; exclusion needs callers that release only
  what they hold.
- `drain` is documented to run "until the outbox is empty"; it stops at the first round that
  dispatches nothing, and entries can be left behind a full batch of failing ones.
- `InMemoryIdempotencyStore` treats a record whose age equals its lifetime as live in `exists`
  and `save`, and as expired in `removeExpired`.
- An id extractor of a strong projection runs while a command is being enlisted, after its
  events and its claim. If it throws inside an explicit unit of work whose code catches the
  failure, the unit commits the events without their outbox entries and without the later view
  updates. The outbox and strong-view theorems say exactly when that matters.
- The event reader's name filter compares `name:` with the beginning of the string key, so it also
  selects an aggregate whose name goes on past a colon after the name read, and one of a shorter
  name whose id begins with the rest of the name read. `EventStore.FilterSelectsByNameIff` says
  that it fails for exactly those two families.
- `packages/engine/src/domain.ts:1585-1586` asks callers to halt writes during a rebuild. That is not
  quite enough: an event committed before and dispatched after it, by a relay say, is applied
  twice. `RacingRebuild.HaltedRebuildEqualsLiveIff` has the exact condition.
- A null view id stops a rebuild, while the live and the strong path store a view under it.
- Both consumers look for the first rejection by its reason, so a handler that rejects with
  `undefined` counts as one that succeeded (`KafkaConsumer.UndefinedRejectionLosesEvent`).
- Kafka parks a message after `maxRetries + 1` failed handler runs; RabbitMQ dead-letters it
  after `maxRetries`, without running the handlers again.

## Model

| member | source | states |
|---|---|---|
| EngineTheorems.SerialEquivalence | packages/engine/src/executors/command-lifecycle-executor.ts:121-150 | In every interleaving each stream is the concatenation of the batches saved for it, and every non-empty batch is the handler's answer on the state folded from exactly the events before it, which is the state any record of the handled events gives for them |
| EngineTheorems.SequenceNumbers | packages/engine/src/executors/metadata-enricher.ts:56-70 | Event `i` of a stream belongs to it and carries sequence number `i + 1` in every reachable state |
| EngineTheorems.ExecuteSavesAtMostOnce | packages/engine/src/concurrency-strategy.ts:73-96 | An execution owning its unit of work saves at most one batch, however often it is retried |
| EngineTheorems.AtMostOncePerCommandId | packages/engine/src/executors/command-lifecycle-executor.ts:380-391 | With the idempotency claim in the same transaction, at most one save is executed per command id, even for duplicates that all pass the fast path; an id is claimed iff its command was executed |
| EngineTheorems.SnapshotsAreTransparent | packages/engine/src/executors/command-lifecycle-executor.ts:240-309 | Every stored snapshot is the fold of a prefix of its stream, stale overwrites included, and loading through it gives the state and version of full replay |
| EngineTheorems.StrongViewsTrackTheLog | packages/engine/src/domain.ts:868-914 | In every reachable state a strong projection's store is the pure projection of what its batches enlisted for it; that is every event it handles iff no id extractor threw before one of them, and then the store is the projection of the whole committed log and each view the fold of its own events |
| EngineTheorems.NoEventLostOrInvented | packages/engine/src/domain.ts:915-944 | Whatever crashed, a committed event is dispatched or waits unpublished in the outbox iff it is dispatched or no id extractor threw while its batch was enlisted; and only committed events are dispatched or wait |
| EnginePublishing.UnitSavesAndPublishesAllItEnlisted | packages/engine/src/executors/command-lifecycle-executor.ts:121-221 | In every reachable state a thread has saved nothing or every batch its unit enlisted, in order; once committed it publishes exactly their events in order, and one that completed has dispatched them all; a command skipped or refused has saved nothing |
| EnginePublishing.SnapshotsHandedOver | packages/engine/src/executors/command-lifecycle-executor.ts:150-165 | What a commit leaves to be saved as snapshots is exactly what its commands left |
| EngineTheorems.StoredUnderItsDeployment | packages/engine/src/executors/metadata-enricher.ts:56-70 | In every reachable state every stored event carries the version tag of the definition that wrote it |
| EngineTheorems.LoadedByALaterDefinition | packages/engine/src/executors/command-lifecycle-executor.ts:240-338 | What any schedule stored under one definition, a later one that only adds upcaster steps loads with exactly the added steps applied, once each and in order, and its state is the record of just those events |
| EngineTheorems.RebuiltByLaterDefinitions | packages/engine/src/projection-rebuild.ts:218-232 | A rebuild under later definitions replays every stored event with exactly the upcaster steps its aggregate has added since |
| EngineTheorems.FailedAttemptsArePaidFor | packages/engine/src/implementations/in-memory-aggregate-persistence.ts:82-90 | A command that ends in a ConcurrencyError was overtaken by more than `maxRetries` distinct other executions that saved on its aggregate |
| EngineTheorems.EnoughRetriesNeverConflict | packages/engine/src/concurrency-strategy.ts:73-96 | If at most `maxRetries + 1` executions contend on an aggregate, none of them ends in a ConcurrencyError in any schedule |
| EngineTheorems.RebuildEqualsLive | packages/engine/src/projection-rebuild.ts:218-265 | In every reachable state, for views fed by one aggregate each, replaying the stored streams in any order of streams gives the view store of live delivery in commit order |
| EngineSteps.Invariant | packages/engine/src/executors/command-lifecycle-executor.ts:121-221 | The joint invariant of streams, claims, views, outbox, snapshots and every execution's locals holds after every schedule |
| EngineSteps.SnapshotTransparent | packages/engine/src/executors/command-lifecycle-executor.ts:260-283 | A valid snapshot plus the events after it is the whole stream: same state, same version |
| EngineCommit.RunWork | packages/engine/src/executors/command-lifecycle-executor.ts:353-399 | The operations one command enlists succeed exactly when its batch is empty or its version current, and its id unclaimed; which failure is reported otherwise; and their joint effect |
| EngineCommit.CommitGood | packages/adapters/prisma/src/unit-of-work.ts:57-78 | A committed unit of any number of commands leaves a good database with all its events saved, all its pending snapshots valid, and its batches appended to the history in order |
| EngineCommit.ConflictMeansMoved | packages/engine/src/implementations/in-memory-aggregate-persistence.ts:82-90 | A lone command fails its version check only if its stream has moved past the version it loaded |
| EngineProgress.UndisturbedCommandCommits | packages/engine/src/executors/command-lifecycle-executor.ts:82-150 | From every reachable state an undisturbed command with a fresh id is executed: its enriched events are appended, no other stream changes, its id is claimed; only if an id extractor throws on them is it rolled back with nothing changed |
| EngineProgress.CaughtFailureLosesEventsIff | packages/engine/src/domain.ts:882-930 | From every reachable state, a unit whose code catches a failed command and commits, and whose process then dies, has committed events that wait in the outbox iff no id extractor threw; each strong view has seen just what was enlisted before the throw |
| EngineProgress.ClaimedCommandIsSkipped | packages/engine/src/executors/command-lifecycle-executor.ts:82-94 | From every reachable state a command whose id is already claimed when checked is skipped with the database untouched, and however the schedule goes on it stays skipped and saves nothing |
| EngineProgress.SavedSnapshotIsLoaded | packages/engine/src/executors/command-lifecycle-executor.ts:150-165 | From every reachable state a snapshot that is saved is the one the next command on its aggregate starts from, and gives it the state of the whole stream |
| EngineProgress.MarkedNoLongerWait | packages/engine/src/executors/command-lifecycle-executor.ts:166-177 | Once a committed command has published its events and marked the outbox, all of them are dispatched and none waits |
| EngineProgress.AttemptsBounded | packages/engine/src/concurrency-strategy.ts:73-96 | In every schedule an execution makes at most `maxRetries + 1` attempts |
| EngineProgress.SameAggregateTwiceNeverCommits | packages/engine/src/executors/command-lifecycle-executor.ts:186-202 | A unit of work with two non-empty batches on one aggregate never commits, and its attempt leaves the database alone |
| Engine.StateFollowsRecord | packages/engine/src/executors/command-lifecycle-executor.ts:331-338 | The state of a stream, told without the fold: for any record of states that starts at the initial one and that each `evolve` entry moves on by one event, it is the recorded state of the handled events the load yields |
| Engine.ViewOpsIff | packages/engine/src/domain.ts:882-914 | A view update is enlisted exactly for each event a strong projection handles unless an id extractor has thrown by then, projections taken one after the other |
| CommandLifecycle.LoadAggregate | packages/engine/src/executors/command-lifecycle-executor.ts:240-309 | The load code, through a snapshot or not, gives the state and version the machine's load step gives, and the state any record of events gives for the loaded stream |
| CommandLifecycle.ApplyEvents | packages/engine/src/executors/command-lifecycle-executor.ts:331-338 | The evolve loop is the fold, events without a handler leaving the state alone: from the state of any recorded history it reaches the state of that history with the handled events added |
| CommandLifecycle.OnEventsProduced | packages/engine/src/domain.ts:868-930 | The nested loops enlist each strong projection's handled events in order, projection by projection, then the outbox entries if there are events; a throwing id extractor ends them with what came before enlisted, event by event and projection by projection |
| CommandLifecycle.ExecuteLifecycle | packages/engine/src/executors/command-lifecycle-executor.ts:229-428 | Load, decide, evolve, enrich, enlist and the snapshot decision together produce exactly the work and the operations the machine's steps enlist, whether or not an id extractor throws; each event with its name, payload, id, version tag and number, and a snapshot that is the record of the state and its new events |
| Upcaster.UpcastEvent | packages/core/src/edd/upcaster.ts:129-151 | The loop applies exactly the steps past the stored version and keeps name and metadata |
| Upcaster.LoadAppliesAddedSteps | packages/core/src/edd/upcaster.ts:129-151 | Over any history of deployments that only extend chains, those before the first upcaster included, an event written under one and loaded under a later one goes through exactly the steps added between them, once each, in order |
| Upcaster.UpcastComposes | packages/core/src/edd/upcaster.ts:129-151 | Stopping at an intermediate version and recording it gives the same payload as upcasting all the way |
| Upcaster.CurrentEventsAreFixedPoints | packages/core/src/edd/upcaster.ts:160-162 | Events written under the current definition, or tagged beyond it, are left alone |
| Upcaster.SecondPassReappliesSteps | packages/core/src/edd/upcaster.ts:137-150 | Upcasting an event twice applies the steps it was missing twice, because the version tag is not advanced; the second pass changes nothing iff the event was up to date or those steps fix the first result |
| Upcaster.UpcastIsNotIdempotent | packages/core/src/edd/upcaster.ts:137-150 | A one-step chain on which a second pass changes the event, for any two distinct payloads |
| Projections.ViewIsFoldOfItsEvents | packages/engine/src/domain.ts:1113-1124 | Each stored view is the fold of the events routed to it, deletions and re-creations included, and absent without events; for a reducer that records events and deletes on some, it is absent exactly if its last event deletes and otherwise has recorded its events since the last deletion |
| Projections.DeliverySavesOrDeletes | packages/engine/src/domain.ts:1113-1124 | One delivery, by its handler: the delete sentinel leaves no view under the id, any other answer is stored there, and no other view changes |
| Projections.DeliveryOrderIrrelevant | packages/core/src/persistence/event-reader.ts:41-53 | When each view is fed by one stream, two deliveries that agree on every stream's order leave the same view store |
| Projections.SharedViewDependsOnOrder | packages/core/src/persistence/event-reader.ts:41-53 | With two streams feeding one view the delivery order can show, so the feed condition is needed |
| ProjectionRebuild.Runtime.Replay | packages/engine/src/projection-rebuild.ts:218-265 | Replay succeeds iff no handled event has a null view id; then the store is the projection of the upcast log and the counters are exact, with deleted <= applied <= read and deleted the number of deliveries answered with the delete sentinel; else it stops at the first such event keeping what came before |
| ProjectionRebuild.Runtime.Rebuild | packages/engine/src/projection-rebuild.ts:204-293 | Listeners are as before on every path, a bus that cannot detach stops the rebuild before anything changes, and success leaves the projection of the upcast log, every view showing what a recording reducer would |
| ProjectionRebuild.Runtime.Detach | packages/engine/src/projection-rebuild.ts:207-217 | Every subscription of the projection is taken off the bus once, by event name and listener, and nothing else is |
| ProjectionRebuild.Runtime.Attach | packages/engine/src/projection-rebuild.ts:287-291 | Every subscription of the projection is put on the bus once, and nothing else changes |
| ProjectionRebuild.DeletionsRecorded | packages/engine/src/projection-rebuild.ts:251-258 | For a reducer that deletes on chosen events, the deletions counted are the handled ones among them |
| RacingRebuild.WorldInvariant | packages/engine/src/projection-rebuild.ts:168-293 | In every interleaving of a rebuild with commands, relays and crashes: the bus carries exactly the dispatched events, each stream is read in order from its beginning, and the view store is the projection of what was read and then of what was dispatched since the listeners are back |
| RacingRebuild.RebuiltEqualsLiveIff | packages/engine/src/projection-rebuild.ts:204-293 | After a rebuild, whatever raced with it, the store is that of a listener never detached if view by view the events read are those dispatched by the time the listeners came back; for a projection that forgets nothing, only then |
| RacingRebuild.RebuiltEqualsLivePositions | packages/engine/src/projection-rebuild.ts:204-293 | For views of one stream each and dispatches in commit order, the condition is that in every stream the rebuild and the bus had got equally far when the listeners came back, up to unhandled events |
| RacingRebuild.HaltedRebuildEqualsLiveIff | packages/engine/src/domain.ts:1580-1586 | With writes halted while the rebuild reads, the store equals the live one in every later state iff every handled event of the log had been dispatched when the listeners came back (the converse for a projection that forgets nothing) |
| RacingRebuild.EventLostToRebuild | packages/engine/src/projection-rebuild.ts:204-293 | From every reachable state of a rebuild that has read what it must, a command can commit and publish before the listeners are back: its event is stored and dispatched and never read, and a projection that handles it and forgets nothing differs from the live one |
| RacingRebuild.EventAppliedTwice | packages/engine/src/projection-rebuild.ts:204-293 | From every reachable state of such a rebuild at the end of a stream, a command's event can be committed, read, and published once the listeners are back, and is applied twice |
| EventStore.InMemoryEventStore.Save | packages/engine/src/implementations/in-memory-aggregate-persistence.ts:72-96 | Appends iff the batch is empty or the expected version is the stream length; otherwise nothing changes |
| EventStore.InMemoryEventStore.LoadAfterVersion | packages/engine/src/implementations/in-memory-aggregate-persistence.ts:62-70 | Returns the events past a position, none if it is beyond the stream |
| EventStore.InMemoryEventStore.Read | packages/engine/src/implementations/in-memory-aggregate-persistence.ts:108-129 | Yields the selected streams one after another in map order, each in stored order; a cursor is an error |
| EventStore.FilterSelectsByNameIff | packages/engine/src/implementations/in-memory-aggregate-persistence.ts:118-121 | For every name and key the reader's filter selects the key exactly when it has that name, unless the key's name goes on past a colon after the name read, or the name read goes on past a colon after the key's name with what begins the id; those keys it selects wrongly |
| EventStore.ColonFreeNamesAreNotMisread | packages/engine/src/implementations/in-memory-aggregate-persistence.ts:118-121 | Names free of colons are never selected wrongly, whatever the ids |
| EventStore.ShorterNameMisreads | packages/engine/src/implementations/in-memory-aggregate-persistence.ts:118-121 | Reading "a" selects every aggregate named "a:b" |
| EventStore.LongerNameMisreads | packages/engine/src/implementations/in-memory-aggregate-persistence.ts:118-121 | Reading "a:b" selects the aggregates named "a" whose ids begin with "b:" |
| EventStore.SelectIsDrop | packages/adapters/prisma/src/persistence.ts:91-112 | Rows with a sequence number above `v`, in ascending order, are the stream without its first `v` events |
| EventStore.VerdictsAgreeIff | packages/adapters/prisma/src/persistence.ts:35-74 | For a non-empty batch the unique index and the length check give the same verdict exactly when the expected version is not beyond the stream |
| EventStore.UniqueIndexRefinesLengthCheck | packages/adapters/prisma/src/persistence.ts:35-112 | Over every interleaving of clients that load and save, both stores give the same replies, rows are numbered 1 to n, and no client expects more than n |
| VersionedStore.InMemoryVersionedStore.Save | packages/engine/src/implementations/in-memory-saga-persistence.ts:47-65 | A compare-and-set on the version, 0 for an absent document |
| VersionedStore.SqlVersionedStore.Save | packages/adapters/prisma/src/persistence.ts:208-242 | The insert-or-conditional-update save is the same compare-and-set |
| UnitsOfWork.InMemoryUnitOfWork.Commit | packages/engine/src/implementations/in-memory-unit-of-work.ts:39-48 | Runs the longest succeeding prefix of the operations on the live data, one after the other up to one that throws, and returns the deferred events iff all succeed; a second commit fails |
| UnitsOfWork.InMemoryUnitOfWork.Rollback | packages/engine/src/implementations/in-memory-unit-of-work.ts:51-56 | Discards operations and events once; refused after completion |
| UnitsOfWork.TransactionalUnitOfWork.Commit | packages/adapters/prisma/src/unit-of-work.ts:57-78 | All operations or none, for any list of operations |
| EngineUnits.RunIsTransaction | packages/adapters/prisma/src/unit-of-work.ts:64-77 | The machine's commit is what a transactional unit does with the engine's operations: same verdict, same data |
| EngineUnits.InMemoryFailureKeepsEventsIff | packages/engine/src/implementations/in-memory-unit-of-work.ts:39-48 | Without a transaction a failing command leaves its events exactly when its batch is non-empty, its version current and its id already claimed |
| EngineUnits.InMemoryDuplicateSavesTwice | packages/engine/src/implementations/in-memory-unit-of-work.ts:43-45 | So a duplicate past the fast path saves its events a second time although it reports a conflict |
| Idempotency.InMemoryIdempotencyStore.GetLiveRecord | packages/engine/src/implementations/in-memory-idempotency-store.ts:60-76 | Lazy expiry drops an expired record when looked at, and no later look can tell |
| Idempotency.InMemoryIdempotencyStore.Save | packages/engine/src/implementations/in-memory-idempotency-store.ts:52-58 | Claims iff no live record exists; otherwise nothing changes |
| Idempotency.InMemoryIdempotencyStore.RemoveExpired | packages/engine/src/implementations/in-memory-idempotency-store.ts:94-101 | Keeps exactly the records younger than the given age |
| Idempotency.OneGrantPerWindow | packages/engine/src/implementations/in-memory-idempotency-store.ts:38-76 | Over every timed run, if lazy expiry and all sweeps keep records for a window, two grants of one id are at least that window apart |
| Idempotency.NoExpiryGrantsOnce | packages/engine/src/implementations/in-memory-idempotency-store.ts:52-58 | Without a lifetime and without sweeps each id is granted at most once, ever |
| Idempotency.SweepForgetsLiveIff | packages/engine/src/implementations/in-memory-idempotency-store.ts:66-101 | A sweep with the store's own lifetime forgets a record that still counts exactly when a record's age equals the lifetime |
| Outbox.InMemoryOutboxStore.Save | packages/engine/src/implementations/in-memory-outbox-store.ts:14-18 | New entries with ids of their own go to the end in order; an entry whose id is there replaces it where it stands |
| Outbox.TiesKeepStoredOrder | packages/engine/src/implementations/in-memory-outbox-store.ts:22-29 | The batch order is stable: entries of one creation time wait in the order in which they are stored |
| Outbox.StoredFirstWaitsFirst | packages/engine/src/implementations/in-memory-outbox-store.ts:22-29 | Of two unpublished entries of one creation time the one stored first waits before the other |
| Outbox.ByCreationSorts | packages/engine/src/implementations/in-memory-outbox-store.ts:28-29 | The batch order is ascending creation time and a permutation of what is unpublished |
| Outbox.InMemoryOutboxStore.LoadUnpublished | packages/engine/src/implementations/in-memory-outbox-store.ts:21-30 | Returns the first entries of the unpublished ones up to the batch size, oldest first, and of each creation time the first stored, in that order |
| Outbox.InMemoryOutboxStore.MarkPublishedByEventIds | packages/engine/src/implementations/in-memory-outbox-store.ts:44-56 | Marks exactly the entries whose event id is listed |
| Outbox.InMemoryOutboxStore.DeletePublished | packages/engine/src/implementations/in-memory-outbox-store.ts:59-67 | Removes exactly the published entries older than the bound, or all published ones without a bound; the rest stand in order with distinct ids, and what waits is unchanged |
| Outbox.MarkingWaiting | packages/engine/src/implementations/in-memory-outbox-store.ts:33-41 | Marking removes exactly the marked entries from the waiting list and keeps the order of the rest |
| OutboxRelaying.OutboxRelay.ProcessOnce | packages/engine/src/outbox-relay.ts:93-129 | A poll dispatches the dispatchable entries of the oldest batch in order, ties as stored, marks just those, and counts them; with a poll in flight it does nothing |
| OutboxRelaying.OutboxRelay.Drain | packages/engine/src/outbox-relay.ts:76-86 | Terminates for every outbox and batch size, leaves unpublished exactly the failing entries and those behind a whole batch of failing ones, and has delivered exactly the entries that no longer wait, each once; a second drain does nothing |
| OutboxRelaying.LeavesExactlyFailingIff | packages/engine/src/outbox-relay.ts:76-129 | Draining leaves exactly the failing entries iff no other entry has a batch or more of failing ones before it |
| OutboxRelaying.FewFailuresDrainTheRest | packages/engine/src/outbox-relay.ts:76-129 | Fewer failing entries than the batch size is enough |
| Strategies.Execute | packages/engine/src/concurrency-strategy.ts:73-96 | Returns the first attempt that is not a conflict, or the conflict of attempt `maxRetries + 1`; conflicts iff all `maxRetries + 1` attempts do |
| CompletionHooks.Registry.RunCompletionHooks | packages/engine/src/uow-completion-hooks.ts:40-56 | Runs the committed hooks only on commit and then the settled ones, exactly up to the first that throws, and clears the registration first so nothing runs twice |
| CompletionHooks.SettledHookRunsIff | packages/engine/src/uow-completion-hooks.ts:48-55 | A settled hook, such as a lock's release, runs exactly when no hook due before it throws |
| Locker.InMemoryAggregateLocker.Acquire | packages/engine/src/implementations/in-memory-aggregate-locker.ts:42-77 | Grants a free lock at once, queues otherwise |
| Locker.InMemoryAggregateLocker.Expire | packages/engine/src/implementations/in-memory-aggregate-locker.ts:60-67 | A fired timer takes its waiter, and nobody else, out of the queue and times it out; too late, it does nothing |
| Locker.InMemoryAggregateLocker.Release | packages/engine/src/implementations/in-memory-aggregate-locker.ts:87-99 | Passes the lock to the first waiter, or frees it; other keys are untouched |
| Locker.LockerCorrect | packages/engine/src/implementations/in-memory-aggregate-locker.ts:42-99 | For every schedule in which only holders release: at most one holder, grants in arrival order among those who did not time out, each call settled at most once and never both ways, nobody waiting on a free lock |
| Locker.StrayReleaseBreaksExclusion | packages/engine/src/implementations/in-memory-aggregate-locker.ts:87-99 | From any good state a release of a held lock by a stranger lets a second holder in, at once or on the next arrival |
| Pessimistic.NoConflictUnderLocks | packages/engine/src/concurrency-strategy.ts:116-167 | When every writer uses the strategy and no unit targets an aggregate twice, no ConcurrencyError is reachable |
| Pessimistic.LockHeldUntilSettled | packages/engine/src/domain.ts:1335-1416 | An open unit alone holds every lock it acquired; once it publishes or is done each was released exactly once; and it waits in no queue it has left |
| Pessimistic.SecondAcquireBlocksOnItself | packages/engine/src/concurrency-strategy.ts:144-166 | A second acquisition of a lock its own unit holds is never granted while the unit is open, whatever else happens at the lock; only its timer ends it |
| PessimisticEngine.NoConcurrencyErrorUnderLocks | packages/engine/src/concurrency-strategy.ts:98-167 | In every run of the engine whose loads and commits are guarded by the locks, with no retries, no command ends in a ConcurrencyError; a unit ready to commit is refused for a duplicate at most, and otherwise makes each stream longer by exactly its batch |
| PessimisticEngine.LoadedUnderTheLock | packages/engine/src/executors/command-lifecycle-executor.ts:186-202 | From its load until its unit commits or fails, a command's thread is the only holder of its aggregate's lock |
| PessimisticEngine.RunsBeneath | packages/engine/src/concurrency-strategy.ts:98-167 | Beneath every such run lie a schedule of the engine and a run of the locks, so every guarantee over either holds |
| KeyedMutex.ExclusiveWithoutLostWakeups | packages/adapters/prisma/src/keyed-mutex.ts:17-39 | In every schedule in which only holders unlock, at most one call holds the key, and when none does every waiting call can wake |
| KeyedMutex.LateArrivalOvertakes | packages/adapters/prisma/src/keyed-mutex.ts:17-30 | Whenever the key is free a new call takes it before one that waits, and the waiter wakes only to wait again |
| SagaTransactions.SagaTransaction | packages/engine/src/executors/saga-executor.ts:270-294 | The saga's transaction commits exactly when its expected version is current and the engine's commit of everything its reaction commands enlisted succeeds; then it is both |
| SagaTransactions.EngineBeneath | packages/engine/src/executors/saga-executor.ts:223-304 | Whatever sagas do, the engine beneath them has run some schedule of its own, so every guarantee over its schedules holds with sagas running |
| SagaInvariant.Invariant | packages/engine/src/executors/saga-executor.ts:60-304 | The joint invariant of the engine, the saga store, committed transitions, reaction commands and every saga execution's locals holds after every run |
| SagaTheorems.SagaIsFoldOfCommittedEvents | packages/engine/src/executors/saga-executor.ts:75-102 | Over every run a saga instance is the fold of `handle` over exactly the events whose executions committed, in commit order, one version step each, beginning with a starting event; its state is the one any record of handled events gives for them |
| SagaTheorems.TransitionsAreHandled | packages/engine/src/executors/saga-executor.ts:75-134 | Over every run each committed transition belongs to the instance its event's handler names, and its reaction commands are exactly those the handler returned on the state the instance's earlier committed events leave |
| SagaTheorems.AtomicCoupling | packages/engine/src/executors/saga-executor.ts:270-296 | Atomic mode: with an execution's transition, what it saved is exactly one batch for each of its reaction commands in order, but for those whose ids were claimed already; an execution that saved anything has its transition |
| SagaTheorems.SameAggregateReactionsNeverCommit | packages/engine/src/executors/saga-executor.ts:270-296 | A saga whose reaction commands enlisted two non-empty batches on one aggregate never commits, and its attempt changes nothing |
| SagaTheorems.NoEffectWithoutTransition | packages/engine/src/executors/saga-executor.ts:236-269 | Best-effort mode: the saga's own unit saves only the transition; a reaction is started only once the transition is committed and every earlier reaction was carried out, and saves at most its own command's batch |
| SagaTheorems.HooksRunOnceBeforePublishing | packages/engine/src/executors/saga-executor.ts:217-303 | Hooks run at most once, exactly once for an execution that opened a unit and did not crash, and before any of its events is published or any reaction dispatched |
| SagaTheorems.NonStartingEventIgnored | packages/engine/src/executors/saga-executor.ts:60-98 | Over every run, an execution that ended without failing, conflicting or crashing made no transition iff its event was dropped, for want of a handler or because its instance was absent when loaded and the event does not start one; then it opened no unit, ran no hooks and saved nothing |
| KafkaConsumer.Consumer.HandleMessage | packages/adapters/kafka/src/kafka-event-bus.ts:683-795 | The handler loop, the retry cap and parking, as one transition: it throws exactly if some handler rejected with a reason and the cap is not passed or parking failed |
| KafkaConsumer.Consumer.EachMessage | packages/adapters/kafka/src/kafka-event-bus.ts:372-402 | One delivery: skip, handle, commit past it and forget its count, or throw and refetch from the last committed offset if a handler rejected within the cap |
| KafkaConsumer.AtLeastOnce | packages/adapters/kafka/src/kafka-event-bus.ts:372-402 | With any failures, lost commits and restarts, an offset is committed past an event only if it is in the dead-letter topic or the run has a delivery of it in which no handler rejected with a reason; past an unparseable value only if that is parked or parking it failed |
| KafkaConsumer.ReasonedAtLeastOnce | packages/adapters/kafka/src/kafka-event-bus.ts:718-763 | If no handler ever rejects without a reason, an event passed and not parked had a delivery every handler of which succeeded |
| KafkaConsumer.UndefinedRejectionLosesEvent | packages/adapters/kafka/src/kafka-event-bus.ts:725-763 | A handler that rejects with `undefined` has its event committed past with no retry and no dead letter |
| KafkaConsumer.ParkedAfterExactlyTheCap | packages/adapters/kafka/src/kafka-event-bus.ts:770-794 | If parking and commits succeed and the process stays up, an event is parked iff the run has `maxRetries + 1` deliveries of it in which a handler rejected, and then once; none has more |
| KafkaConsumer.CleanRunsFinish | packages/adapters/kafka/src/kafka-event-bus.ts:372-402 | In such a run, whatever the handlers do, `(maxRetries + 1) * n * (n + 1) + n` deliveries and one more get through a log of `n` messages and commit past every one with a value |
| KafkaConsumer.PoisonIsPassed | packages/adapters/kafka/src/kafka-event-bus.ts:770-794 | A first uncommitted event whose handlers always fail is parked and committed past after finitely many deliveries |
| RabbitConsumer.SerialisedPerAggregate | packages/adapters/rabbitmq/src/rabbitmq-event-bus.ts:637-656 | For every interleaving two deliveries of one aggregate are never processed at once, and the later starts only after the earlier finished |
| RabbitConsumer.OtherAggregatesIndependent | packages/adapters/rabbitmq/src/rabbitmq-event-bus.ts:644-652 | A delivery can start exactly when every earlier one of its own aggregate is done |
| RabbitConsumer.NoDeadlock | packages/adapters/rabbitmq/src/rabbitmq-event-bus.ts:649-652 | A waiting delivery never waits on nothing: one of its aggregate, itself or earlier, is running or can start |
| RabbitConsumer.ChainsDrain | packages/adapters/rabbitmq/src/rabbitmq-event-bus.ts:651-655 | Once every delivery has cleaned up the chain map is empty, and while one is unprocessed its aggregate has an entry |
| RabbitConsumer.Deliveries.HandleMessage | packages/adapters/rabbitmq/src/rabbitmq-event-bus.ts:539-604 | It throws exactly if the message parses and some handler rejected with a reason |
| RabbitConsumer.Deliveries.Process | packages/adapters/rabbitmq/src/rabbitmq-event-bus.ts:684-742 | Dead-lettered past the cap, otherwise requeued exactly if a handler rejected and acked if none did or the message does not parse; and the delivery count each leaves |
| RabbitConsumer.Deliveries.DeliverUntilSettled | packages/adapters/rabbitmq/src/rabbitmq-event-bus.ts:691-722 | A message a handler of which always rejects is requeued exactly `maxRetries` times and then dead-lettered |
| Hashing.Fnv1a64 | packages/core/src/persistence/hash.ts:21-37 | Returns the 64-bit two's-complement reading of the unsigned fold over the code units |
| Hashing.KnownHashes | packages/core/src/persistence/hash.ts:21-30 | The published FNV-1a values of the empty key, "a" and "b" |
| Hashing.Signed | packages/core/src/persistence/hash.ts:32-35 | The reading lies in the signed 64-bit range and is congruent to the word modulo 2^64 |
| Hashing.XorBitByBit | packages/core/src/persistence/hash.ts:28 | Exclusive or of unbounded integers, bit by bit |
| Hashing.AbsorbUndone | packages/core/src/persistence/hash.ts:28-29 | Each round is undone by multiplying with the prime's inverse modulo 2^64, so it is a bijection on words |
| Hashing.SharedEndingCollidesIff | packages/core/src/persistence/hash.ts:27-30 | Keys that share an ending collide exactly when what comes before it does |
| Hashing.OneUnitApartNeverCollide | packages/core/src/persistence/hash.ts:21-37 | Keys of one length that differ in exactly one code unit have different hashes |
| Hashing.KeysCollideIff | packages/engine/src/implementations/in-memory-aggregate-persistence.ts:81 | Two instances share a `name:id` key exactly when they are the same or one name goes on, past a colon, with what the other's id begins with |
| Hashing.ColonFreeNamesNeverCollide | packages/engine/src/implementations/in-memory-aggregate-locker.ts:47 | With names free of colons the string key is as good as the pair, whatever the ids |
| Hashing.ColonInNameCollides | packages/engine/src/implementations/in-memory-aggregate-persistence.ts:81 | A pair of distinct instances, one name containing a colon, with the same key |

## Left out

- EngineTheorems.AtMostOncePerCommandId: claims never expire in the transition system; expiry is modelled in the idempotency store alone, where a second grant after the lifetime is possible.
- EngineTheorems.LoadedByALaterDefinition: the schedule that stored the events ran under one definition; runs that go on writing under several are not one machine.
- EngineTheorems.SnapshotsAreTransparent: for runs under one aggregate definition; a snapshot taken before a deployment that adds upcasters is not covered.
- EngineTheorems.RebuildEqualsLive: view ids are total functions of the event and null ids are treated alike live and in replay; that a null id stops a rebuild is in `ProjectionRebuild.Runtime.Replay`, and what a rebuild racing with commands leaves in `RacingRebuild.RebuiltEqualsLiveIff`.
- RacingRebuild.WorldInvariant: a listener's delivery and one replayed event are atomic steps, handlers do not throw, and one rebuild of the projection runs at a time; two deliveries whose loads and saves overlap are not modelled.
- RacingRebuild.RebuiltEqualsLiveIff: under the aggregate definitions that wrote the events; live delivery never upcasts, so after a schema change the two sides differ by design.
- PessimisticEngine.NoConcurrencyErrorUnderLocks: every writer uses the strategy, and a second command of one unit on the same aggregate never gets its lock; `Pessimistic.SecondAcquireBlocksOnItself` says why.
- EngineTheorems.NoEventLostOrInvented: the dispatched events are a set, so their order and how often a relay repeats one are not stated there; the order of one relay's dispatches is in `OutboxRelaying.OutboxRelay.ProcessOnce`.
- UnitsOfWork.TransactionalUnitOfWork.Commit: the database transaction is one atomic step; isolation levels and the driver's error codes are not modelled.
- SagaTheorems.AtomicCoupling: reaction commands are aggregate commands; a reaction handled by a standalone handler, and commands a handler dispatches itself, are not modelled.
- Pessimistic.LockHeldUntilSettled: hooks that throw are excluded; `CompletionHooks.SettledHookRunsIff` says which releases such a hook costs.
- KafkaConsumer.PoisonIsPassed: one partition, with refetch from the last committed offset taken as the client's behaviour.
- Hashing.Fnv1a64: JavaScript strings are sequences of 16-bit code units.
- Commands of one explicit unit of work run one after another; a `Promise.all` inside the callback is not modelled.
- A command handler that throws appears as a failing command, before anything of it is enlisted; a reducer that throws, which happens inside the commit, as an aborted unit of work. A handler that itself throws a ConcurrencyError is not modelled.
- Id extractors throw as a function of the projection and the event; a snapshot strategy that throws is a command whose operations are all enlisted and whose snapshot is dropped.
- State-stored aggregates appear only as compare-and-set documents; their state version tag is carried along by the source and is dropped here.
- The array a load returns is the store's own in the in-memory event store; the model copies it.
- Event ids and outbox entry ids are fresh names; timestamps, correlation and causation ids, user ids and trace context are dropped from metadata.
- JSON encoding is the identity, and stored schema versions are at least 1.
- The relay's timer, rebuild progress callbacks, and failures of the outbox store inside a drain.
- Concurrent polls during a drain: a poll in flight makes the next a no-op, which is proved, but a drain racing one is not.
- Liveness of the engine beyond an undisturbed command, and fairness of schedules and of the per-key mutex.
- SQL advisory lockers, broker and database clients, topic provisioning and reconnection; the TypeORM saga store, which reads before it writes.
- Operation counting and shutdown, domain wiring, the CLI, the NestJS module, logging and telemetry.
