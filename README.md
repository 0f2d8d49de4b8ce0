# Smart home telemetry and commerce services, modelled in Dafny

This project models the core of a smart-home platform made of several
services.

- **Collector.** It turns a hub's "scenario added" protobuf event into its
  Avro form.
- **Aggregator.** It folds sensor events into one snapshot per hub. It emits
  a new snapshot only when a reading is new.
- **Analyzer.** It keeps a rule store of registered sensors and named
  scenarios. Hub events (device added or removed, scenario added or removed)
  update that store. Each incoming snapshot is checked against the hub's
  scenarios, and a device-action request goes over gRPC to the hub router for
  every action of a triggered scenario. The analyzer has two generations of
  each piece: ScenarioService and ScenarioHandler, the `service` and
  `processor` consumers, and HubRouterClient and HubEventClient. Both
  generations are modelled side by side.
- **Kafka consumer loops.** They poll records, process them, keep an offset
  table per topic partition, and commit every 100 records within a poll and
  once per poll.
- **Commerce services.** The shopping cart merges quantities and rejects
  changes to a deactivated cart. The warehouse registers stock and validates a
  cart against it. The shopping store keeps a catalogue whose products are
  deactivated rather than deleted.

Repositories (JPA) become maps. A service that changes a repository is a
class with a `map` field, or a method that `modifies` a store object. Each
such method is proved against a pure function of the old state, and the
properties are lemmas about those functions. Kafka commits are recorded as a
trace of calls on a `Consumer` object. Requests to the hub router are
recorded as a trace on a `HubRouterStub` object. `Instant.now()` is a
`Clock` object whose readings are a parameter. HashMap iteration order is a
parameter (`ActionOrder`, or a sequence of entries). A lemma that needs a
faithful enumeration requires `IsEntrySet(entries, map)`.

Java `long` quantities are the `Long` subset type. `Long::sum` wraps in two's
complement (`Common.LongSum`).

## Model

| member | source | states |
|---|---|---|
| Common.LongSum | commerce/shopping-cart/src/main/java/ru/yandex/practicum/model/ShoppingCart.java:37 | `Long::sum`: the exact sum when it fits in 64 bits; otherwise congruent to it modulo 2^64 (two's-complement wrap) |
| Common.Clock.Now | telemetry/analyzer/src/main/java/ru/yandex/practicum/telemetry/analyzer/service/HubRouterClient.java:31 | each `Instant.now()` consumes one reading of the clock and returns it |
| Aggregator.Updated | telemetry/aggregator/src/main/java/yandex/practicum/telemetry/aggregator/service/SnapshotService.java:35-44 | the new snapshot carries the event's hub and timestamp; it stores the event's state under the sensor id and keeps every other sensor of the hub |
| Aggregator.SnapshotService.UpdateState | telemetry/aggregator/src/main/java/yandex/practicum/telemetry/aggregator/service/SnapshotService.java:17-49 | returns the updated snapshot and stores it under the hub, or returns empty and leaves the table unchanged, as the hub-id-keyed check decides |
| Aggregator.EmptyOnlyOnHubKeyedState | telemetry/aggregator/src/main/java/yandex/practicum/telemetry/aggregator/service/SnapshotService.java:27-33 | an empty result happens only when the hub's state map has an entry keyed by the HUB id that is strictly later or carries the same data; the table is then unchanged |
| Aggregator.NonEmptyStoresReading | telemetry/aggregator/src/main/java/yandex/practicum/telemetry/aggregator/service/SnapshotService.java:35-48 | a non-empty result is what gets stored for the hub, with the event's reading under its sensor id |
| Aggregator.NoHubNamedSensorNeverSuppressed | telemetry/aggregator/src/main/java/yandex/practicum/telemetry/aggregator/service/SnapshotService.java:27-33 | when no sensor of the hub is named like the hub, every event produces a snapshot |
| Aggregator.EqualTimestampNotStale | telemetry/aggregator/src/main/java/yandex/practicum/telemetry/aggregator/service/SnapshotService.java:30-31 | `isAfter` is strict: an equal timestamp with new data is not stale |
| Aggregator.FirstEventOfUnseenHub | telemetry/aggregator/src/main/java/yandex/practicum/telemetry/aggregator/service/SnapshotService.java:18-23 | the first event of a hub yields a snapshot holding only that sensor's state |
| Aggregator.UpdateFrame | telemetry/aggregator/src/main/java/yandex/practicum/telemetry/aggregator/service/SnapshotService.java:40-46 | the other hubs and the other sensors of the hub keep their states; the hub is added to the table unless the event was suppressed |
| Aggregator.DuplicateReemitted | telemetry/aggregator/src/main/java/yandex/practicum/telemetry/aggregator/service/SnapshotService.java:27-33 | as written, the very same event delivered twice produces a second snapshot (finding) |
| Aggregator.DuplicateExample | telemetry/aggregator/src/main/java/yandex/practicum/telemetry/aggregator/service/SnapshotService.java:27-33 | concrete instance: a switch event delivered twice to an empty store yields two snapshots |
| Aggregator.IntendedStoreAfter | telemetry/aggregator/src/main/java/yandex/practicum/telemetry/aggregator/service/SnapshotService.java:17-49 | the corrected update keeps the table keyed by hub id |
| Aggregator.IntendedSuppressesDuplicates | telemetry/aggregator/src/main/java/yandex/practicum/telemetry/aggregator/service/SnapshotService.java:27-33 | with the sensor-id lookup, a re-delivered event yields nothing |
| Aggregator.IntendedRejectsOutOfOrder | telemetry/aggregator/src/main/java/yandex/practicum/telemetry/aggregator/service/SnapshotService.java:27-33 | with the sensor-id lookup, an event older than the stored state yields nothing and changes nothing |
| SnapshotAnalyzer.SensorValue | telemetry/analyzer/src/main/java/ru/yandex/practicum/telemetry/analyzer/service/SnapshotAnalyzer.java:74-112 | which payload kind provides which condition type (temperature from climate or temperature sensors), and the value read, booleans as 1/0 |
| SnapshotAnalyzer.OperatorsPartition | telemetry/analyzer/src/main/java/ru/yandex/practicum/telemetry/analyzer/service/SnapshotAnalyzer.java:114-127 | EQUALS, GREATER_THAN and LOWER_THAN mean =, > and <; exactly one of them holds for any two values |
| SnapshotAnalyzer.SensorStateOf | telemetry/analyzer/src/main/java/ru/yandex/practicum/telemetry/analyzer/service/SnapshotAnalyzer.java:66-72 | the sensor's state is found exactly when the snapshot holds the sensor id |
| SnapshotAnalyzer.ConditionHolds | telemetry/analyzer/src/main/java/ru/yandex/practicum/telemetry/analyzer/service/SnapshotAnalyzer.java:52-64 | a condition holds iff its sensor is in the snapshot, the payload provides the condition type, and the comparison with the threshold is true |
| SnapshotAnalyzer.CheckScenarioConditions | telemetry/analyzer/src/main/java/ru/yandex/practicum/telemetry/analyzer/service/SnapshotAnalyzer.java:37-50 | the loop returns true iff every condition of the scenario holds |
| SnapshotAnalyzer.Analyze | telemetry/analyzer/src/main/java/ru/yandex/practicum/telemetry/analyzer/service/SnapshotAnalyzer.java:24-35 | returns exactly the hub's scenarios whose conditions all hold, in repository order |
| SnapshotAnalyzer.TriggeredMembers | telemetry/analyzer/src/main/java/ru/yandex/practicum/telemetry/analyzer/service/SnapshotAnalyzer.java:24-35 | a scenario is triggered iff it is one of the hub's scenarios and all its conditions hold |
| SnapshotAnalyzer.TriggeredConcat | telemetry/analyzer/src/main/java/ru/yandex/practicum/telemetry/analyzer/service/SnapshotAnalyzer.java:24-35 | filtering distributes over concatenation, so triggering is decided per scenario |
| SnapshotAnalyzer.EmptyConditionsAlwaysTrigger | telemetry/analyzer/src/main/java/ru/yandex/practicum/telemetry/analyzer/service/SnapshotAnalyzer.java:39-41 | a scenario without conditions always triggers |
| SnapshotAnalyzer.FailingConditionUntriggers | telemetry/analyzer/src/main/java/ru/yandex/practicum/telemetry/analyzer/service/SnapshotAnalyzer.java:42-48 | one failing condition keeps the scenario from triggering |
| SnapshotAnalyzer.MissingDataFails | telemetry/analyzer/src/main/java/ru/yandex/practicum/telemetry/analyzer/service/SnapshotAnalyzer.java:52-64 | a condition on a sensor missing from the snapshot does not hold |
| Rules.PutScenario | telemetry/analyzer/src/main/java/ru/yandex/practicum/telemetry/analyzer/service/ScenarioService.java:87 | `save` stores the scenario under (hub, name), replacing any previous one; everything else is kept and the store stays well keyed |
| Rules.RemoveScenario | telemetry/analyzer/src/main/java/ru/yandex/practicum/telemetry/analyzer/service/ScenarioService.java:90-102 | removes exactly the (hub, name) scenario; everything else is kept |
| Rules.MapOfKeys | telemetry/analyzer/src/main/java/ru/yandex/practicum/telemetry/analyzer/service/ScenarioService.java:64-72 | the map built by a `put` loop has exactly the keys of the entries |
| Rules.MapOfLastWins | telemetry/analyzer/src/main/java/ru/yandex/practicum/telemetry/analyzer/service/ScenarioService.java:64-72 | the value kept for a key is that of its last entry |
| Rules.MapOfValues | telemetry/analyzer/src/main/java/ru/yandex/practicum/telemetry/analyzer/service/ScenarioService.java:75-85 | every stored value comes from one of the entries |
| Rules.MapOfSnoc | telemetry/analyzer/src/main/java/ru/yandex/practicum/telemetry/analyzer/service/ScenarioService.java:64-72 | one more `put` at the end of the loop |
| ScenarioService.ExtractValue | telemetry/analyzer/src/main/java/ru/yandex/practicum/telemetry/analyzer/service/ScenarioService.java:104-116 | an Integer is kept, a Boolean becomes 1/0, anything else is null |
| ScenarioService.CollectSensorIds | telemetry/analyzer/src/main/java/ru/yandex/practicum/telemetry/analyzer/service/ScenarioService.java:28-35 | the loops collect every sensor id named by a condition or an action |
| ScenarioService.BuildConditions | telemetry/analyzer/src/main/java/ru/yandex/practicum/telemetry/analyzer/service/ScenarioService.java:64-72 | the condition loop builds the map of `put`s in list order |
| ScenarioService.BuildActions | telemetry/analyzer/src/main/java/ru/yandex/practicum/telemetry/analyzer/service/ScenarioService.java:75-85 | the action loop builds the map of `put`s; the value is copied only for SET_VALUE |
| ScenarioService.Save | telemetry/analyzer/src/main/java/ru/yandex/practicum/telemetry/analyzer/service/ScenarioService.java:26-88 | fails and changes nothing when the sensor check fails; otherwise stores the new scenario, replacing any earlier one under (hub, name) |
| ScenarioService.Delete | telemetry/analyzer/src/main/java/ru/yandex/practicum/telemetry/analyzer/service/ScenarioService.java:90-102 | removes the (hub, name) scenario if present |
| ScenarioService.DeleteMissingIsNoOp | telemetry/analyzer/src/main/java/ru/yandex/practicum/telemetry/analyzer/service/ScenarioService.java:90-102 | deleting an absent scenario changes nothing |
| ScenarioService.SaveRejectsUnchanged | telemetry/analyzer/src/main/java/ru/yandex/practicum/telemetry/analyzer/service/ScenarioService.java:37-40 | a failing sensor check raises the error and leaves the store as it was |
| ScenarioService.SaveReplacesWholesale | telemetry/analyzer/src/main/java/ru/yandex/practicum/telemetry/analyzer/service/ScenarioService.java:42-87 | after a passing check, the stored scenario is exactly the event's conditions and actions; nothing of the old one survives |
| ScenarioService.NewScenarioLastWins | telemetry/analyzer/src/main/java/ru/yandex/practicum/telemetry/analyzer/service/ScenarioService.java:64-72 | when two conditions name the same sensor, the later one is stored |
| ScenarioService.ActionValueOnlyForSetValue | telemetry/analyzer/src/main/java/ru/yandex/practicum/telemetry/analyzer/service/ScenarioService.java:78-80 | an action keeps a value only if its type is SET_VALUE |
| ScenarioService.AnyRegisteredAdmitsUnregistered | telemetry/analyzer/src/main/java/ru/yandex/practicum/telemetry/analyzer/service/ScenarioService.java:37-40 | with the check read as "some id is registered", a scenario naming an unregistered sensor is stored |
| ScenarioService.AllRegisteredSaveValidates | telemetry/analyzer/src/main/java/ru/yandex/practicum/telemetry/analyzer/service/ScenarioService.java:37-40 | with the check read as "every id is registered", every sensor of a stored scenario is registered to its hub |
| ScenarioService.AllRegisteredRejectsUnregistered | telemetry/analyzer/src/main/java/ru/yandex/practicum/telemetry/analyzer/service/ScenarioService.java:37-40 | with that reading, one unregistered sensor rejects the scenario and changes nothing |
| ScenarioHandler.ExtractValueAgrees | telemetry/analyzer/src/main/java/ru/yandex/practicum/telemetry/analyzer/service/ScenarioHandler.java:147-153 | the pattern-switch `extractValue` agrees with the first generation's if-chain |
| ScenarioHandler.ConvertToConditions | telemetry/analyzer/src/main/java/ru/yandex/practicum/telemetry/analyzer/service/ScenarioHandler.java:125-145 | the loop puts the conditions of registered sensors, in list order |
| ScenarioHandler.ConvertToActions | telemetry/analyzer/src/main/java/ru/yandex/practicum/telemetry/analyzer/service/ScenarioHandler.java:103-123 | the loop puts the actions of registered sensors, in list order |
| ScenarioHandler.HandleScenarioAdded | telemetry/analyzer/src/main/java/ru/yandex/practicum/telemetry/analyzer/service/ScenarioHandler.java:33-52 | the store after delete-then-save of the converted scenario |
| ScenarioHandler.HandleScenarioRemoved | telemetry/analyzer/src/main/java/ru/yandex/practicum/telemetry/analyzer/service/ScenarioHandler.java:55-65 | removes the (hub, name) scenario if present |
| ScenarioHandler.HandleDeviceAdded | telemetry/analyzer/src/main/java/ru/yandex/practicum/telemetry/analyzer/service/ScenarioHandler.java:68-84 | registers the sensor unless it is already registered; scenarios are untouched |
| ScenarioHandler.HandleDeviceRemoved | telemetry/analyzer/src/main/java/ru/yandex/practicum/telemetry/analyzer/service/ScenarioHandler.java:87-101 | removes the sensor only when it belongs to the hub; scenarios are untouched |
| ScenarioHandler.ScenarioAddedOverwrites | telemetry/analyzer/src/main/java/ru/yandex/practicum/telemetry/analyzer/service/ScenarioHandler.java:33-52 | delete-then-save equals a plain overwrite: exactly one scenario for (hub, name), the rest kept |
| ScenarioHandler.ConditionKeys | telemetry/analyzer/src/main/java/ru/yandex/practicum/telemetry/analyzer/service/ScenarioHandler.java:125-145 | the stored condition keys are exactly the listed sensors registered to the hub |
| ScenarioHandler.ActionKeys | telemetry/analyzer/src/main/java/ru/yandex/practicum/telemetry/analyzer/service/ScenarioHandler.java:103-123 | the stored action keys are exactly the listed sensors registered to the hub |
| ScenarioHandler.ActionValueAlwaysExtracted | telemetry/analyzer/src/main/java/ru/yandex/practicum/telemetry/analyzer/service/ScenarioHandler.java:116-120 | each kept action comes from a listed action, with its value extracted whatever the type |
| ScenarioHandler.SkipsUnregistered | telemetry/analyzer/src/main/java/ru/yandex/practicum/telemetry/analyzer/service/ScenarioHandler.java:107-111 | concrete instance: an action on an unregistered sensor silently disappears and the scenario is still stored |
| ScenarioHandler.RegisteredExample | telemetry/analyzer/src/main/java/ru/yandex/practicum/telemetry/analyzer/service/ScenarioHandler.java:125-145 | the registered entries of that instance |
| SensorService.Created | telemetry/analyzer/src/main/java/ru/yandex/practicum/telemetry/analyzer/service/SensorService.java:20-32 | creating adds the sensor for the hub if its id is new; an existing registration is kept |
| SensorService.Removed | telemetry/analyzer/src/main/java/ru/yandex/practicum/telemetry/analyzer/service/SensorService.java:35-47 | removing deletes the sensor only if it is registered to this hub |
| SensorService.FindByIdAndHubId | telemetry/analyzer/src/main/java/ru/yandex/practicum/telemetry/analyzer/service/SensorService.java:50-52 | found iff the id is registered to that hub |
| SensorService.CreateSensor | telemetry/analyzer/src/main/java/ru/yandex/practicum/telemetry/analyzer/service/SensorService.java:20-32 | the store's sensors become `Created(...)`; scenarios are untouched |
| SensorService.RemoveSensor | telemetry/analyzer/src/main/java/ru/yandex/practicum/telemetry/analyzer/service/SensorService.java:35-47 | the store's sensors become `Removed(...)`; scenarios are untouched |
| SensorService.CreateIdempotent | telemetry/analyzer/src/main/java/ru/yandex/practicum/telemetry/analyzer/service/SensorService.java:20-32 | a second creation, for any hub, changes nothing |
| SensorService.CreateKeepsOwner | telemetry/analyzer/src/main/java/ru/yandex/practicum/telemetry/analyzer/service/SensorService.java:22-25 | a sensor registered to another hub keeps its owner |
| SensorService.CreateThenRemove | telemetry/analyzer/src/main/java/ru/yandex/practicum/telemetry/analyzer/service/SensorService.java:20-47 | a new sensor is found after creation, and removing it restores the old registrations |
| SensorService.RemoveForeignOrAbsentIsNoOp | telemetry/analyzer/src/main/java/ru/yandex/practicum/telemetry/analyzer/service/SensorService.java:35-47 | removal for an absent sensor, or one owned by another hub, changes nothing |
| SensorService.RemoveIdempotent | telemetry/analyzer/src/main/java/ru/yandex/practicum/telemetry/analyzer/service/SensorService.java:35-47 | removing twice is removing once |
| SensorService.RemovedNotFound | telemetry/analyzer/src/main/java/ru/yandex/practicum/telemetry/analyzer/service/SensorService.java:35-52 | after removal the sensor is not found for that hub |
| ServiceHubEventProcessor.AfterDeviceAdded | telemetry/analyzer/src/main/java/ru/yandex/practicum/telemetry/analyzer/service/HubEventProcessor.java:89-102 | device added saves the sensor under its id for the hub, overwriting another hub's registration; nothing else changes |
| ServiceHubEventProcessor.Step | telemetry/analyzer/src/main/java/ru/yandex/practicum/telemetry/analyzer/service/HubEventProcessor.java:68-87 | one record keeps the rule store well keyed |
| ServiceHubEventProcessor.Fold | telemetry/analyzer/src/main/java/ru/yandex/practicum/telemetry/analyzer/service/HubEventProcessor.java:68-87 | processing a batch keeps the rule store well keyed |
| ServiceHubEventProcessor.HandleDeviceAdded | telemetry/analyzer/src/main/java/ru/yandex/practicum/telemetry/analyzer/service/HubEventProcessor.java:89-102 | the store's sensors become `AfterDeviceAdded(...)`; scenarios are untouched |
| ServiceHubEventProcessor.HandleDeviceRemoved | telemetry/analyzer/src/main/java/ru/yandex/practicum/telemetry/analyzer/service/HubEventProcessor.java:104-113 | the store's sensors become `Removed(...)`; scenarios are untouched |
| ServiceHubEventProcessor.HandleRecord | telemetry/analyzer/src/main/java/ru/yandex/practicum/telemetry/analyzer/service/HubEventProcessor.java:72-85 | the store after dispatching one event by payload kind |
| ServiceHubEventProcessor.ProcessRecords | telemetry/analyzer/src/main/java/ru/yandex/practicum/telemetry/analyzer/service/HubEventProcessor.java:68-87 | the store after the records in order |
| ServiceHubEventProcessor.PollCycle | telemetry/analyzer/src/main/java/ru/yandex/practicum/telemetry/analyzer/service/HubEventProcessor.java:49-55 | processes the polled records, then one synchronous commit |
| ServiceHubEventProcessor.Run | telemetry/analyzer/src/main/java/ru/yandex/practicum/telemetry/analyzer/service/HubEventProcessor.java:42-66 | the store after all polls; one commitSync per poll, then close |
| ServiceHubEventProcessor.FoldConcat | telemetry/analyzer/src/main/java/ru/yandex/practicum/telemetry/analyzer/service/HubEventProcessor.java:68-87 | processing two batches is processing their concatenation |
| ServiceHubEventProcessor.RejectedScenarioSkipped | telemetry/analyzer/src/main/java/ru/yandex/practicum/telemetry/analyzer/service/HubEventProcessor.java:83-85 | a scenario the sensor check rejects is logged and skipped; later records still run |
| ServiceHubEventProcessor.StepFrame | telemetry/analyzer/src/main/java/ru/yandex/practicum/telemetry/analyzer/service/HubEventProcessor.java:73-82 | device events leave scenarios alone; scenario events leave sensors alone; unknown payloads change nothing |
| ServiceHubEventProcessor.DeviceAddedTransfersOwnership | telemetry/analyzer/src/main/java/ru/yandex/practicum/telemetry/analyzer/service/HubEventProcessor.java:99 | unlike `createSensor`, a device already registered to another hub moves to the new hub |
| ServiceHubEventProcessor.DeviceAddedIdempotent | telemetry/analyzer/src/main/java/ru/yandex/practicum/telemetry/analyzer/service/HubEventProcessor.java:89-102 | adding the same device twice is adding it once |
| ProcessorHubEventProcessor.HandlerStep | telemetry/analyzer/src/main/java/ru/yandex/practicum/telemetry/analyzer/processor/HubEventProcessor.java:89-106 | one event keeps the rule store well keyed |
| ProcessorHubEventProcessor.HandlerFold | telemetry/analyzer/src/main/java/ru/yandex/practicum/telemetry/analyzer/processor/HubEventProcessor.java:51-57 | a batch keeps the rule store well keyed |
| ProcessorHubEventProcessor.HandlerFoldConcat | telemetry/analyzer/src/main/java/ru/yandex/practicum/telemetry/analyzer/processor/HubEventProcessor.java:51-57 | handling two batches is handling their concatenation |
| ProcessorHubEventProcessor.ScenarioAddedIdempotent | telemetry/analyzer/src/main/java/ru/yandex/practicum/telemetry/analyzer/processor/HubEventProcessor.java:97-98 | re-announcing the same scenario leaves the store as after the first announcement |
| ProcessorHubEventProcessor.HubEventProcessor.ManageOffsets | telemetry/analyzer/src/main/java/ru/yandex/practicum/telemetry/analyzer/processor/HubEventProcessor.java:74-87 | records the next offset of the record's partition |
| ProcessorHubEventProcessor.HubEventProcessor.HandleRecord | telemetry/analyzer/src/main/java/ru/yandex/practicum/telemetry/analyzer/processor/HubEventProcessor.java:89-106 | the store after routing the event to the scenario handler |
| ProcessorHubEventProcessor.HubEventProcessor.PollBatch | telemetry/analyzer/src/main/java/ru/yandex/practicum/telemetry/analyzer/processor/HubEventProcessor.java:49-58 | the store, the offset table and the commit trace after one poll: an async commit of the offsets at counts 0, 100, 200, ..., then a plain commitAsync |
| ProcessorHubEventProcessor.HubEventProcessor.Run | telemetry/analyzer/src/main/java/ru/yandex/practicum/telemetry/analyzer/processor/HubEventProcessor.java:43-72 | the store and offsets after all polls; the commit trace of every poll, then commitSync of the offsets and close |
| Offsets.Consumer.CommitSync | telemetry/analyzer/src/main/java/ru/yandex/practicum/telemetry/analyzer/service/HubEventProcessor.java:55 | appends one commitSync to the trace |
| Offsets.Consumer.CommitSyncOffsets | telemetry/analyzer/src/main/java/ru/yandex/practicum/telemetry/analyzer/processor/HubEventProcessor.java:66 | appends one commitSync of the given offsets |
| Offsets.Consumer.CommitAsync | telemetry/analyzer/src/main/java/ru/yandex/practicum/telemetry/analyzer/processor/HubEventProcessor.java:58 | appends one commitAsync |
| Offsets.Consumer.CommitAsyncOffsets | telemetry/analyzer/src/main/java/ru/yandex/practicum/telemetry/analyzer/processor/HubEventProcessor.java:80-86 | appends one commitAsync of the given offsets |
| Offsets.Consumer.Close | telemetry/analyzer/src/main/java/ru/yandex/practicum/telemetry/analyzer/processor/HubEventProcessor.java:69 | appends close |
| Offsets.Advance | telemetry/analyzer/src/main/java/ru/yandex/practicum/telemetry/analyzer/processor/HubEventProcessor.java:76-79 | the record's partition maps to its offset + 1; other partitions keep theirs |
| Offsets.OffsetsAfterLast | telemetry/analyzer/src/main/java/ru/yandex/practicum/telemetry/analyzer/processor/HubEventProcessor.java:76-79 | after a batch, each partition holds the offset after its last record in the batch |
| Offsets.OffsetsAfterUntouched | telemetry/analyzer/src/main/java/ru/yandex/practicum/telemetry/analyzer/processor/HubEventProcessor.java:76-79 | partitions without records in the batch keep their offsets |
| Offsets.BatchCommitCount | telemetry/analyzer/src/main/java/ru/yandex/practicum/telemetry/analyzer/processor/HubEventProcessor.java:80 | a poll of n records makes ceil(n/100) offset commits, the j-th carrying the offsets after record 100*j |
| Offsets.Cadence250 | telemetry/analyzer/src/main/java/ru/yandex/practicum/telemetry/analyzer/processor/HubEventProcessor.java:80 | 250 records give 3 offset commits, after records 1, 101 and 201 |
| Offsets.OffsetsAfterConcat | telemetry/analyzer/src/main/java/ru/yandex/practicum/telemetry/analyzer/processor/HubEventProcessor.java:51-57 | the offsets after two batches are the offsets after their concatenation |
| Offsets.RunStep | telemetry/analyzer/src/main/java/ru/yandex/practicum/telemetry/analyzer/processor/HubEventProcessor.java:48-59 | one more poll extends the flattened records, the offsets and the commit trace |
| Offsets.RunCommitCount | telemetry/analyzer/src/main/java/ru/yandex/practicum/telemetry/analyzer/processor/HubEventProcessor.java:48-71 | the commits of a run add up poll by poll |
| Offsets.CounterRestartsEachPoll | telemetry/analyzer/src/main/java/ru/yandex/practicum/telemetry/analyzer/processor/HubEventProcessor.java:50 | the counter restarts at every poll: two polls of one record commit twice as often as one poll of two |
| Grpc.ValueOf | telemetry/analyzer/src/main/java/ru/yandex/practicum/telemetry/analyzer/service/HubRouterClient.java:40 | `ActionTypeProto.valueOf` succeeds exactly on the proto constant names and returns the constant of that name |
| Grpc.ConvertActionType | telemetry/analyzer/src/main/java/ru/yandex/practicum/telemetry/analyzer/service/HubEventClient.java:72-74 | an Avro action type maps to the proto constant of the same name, never UNRECOGNIZED |
| Grpc.ConvertActionTypeInjective | telemetry/analyzer/src/main/java/ru/yandex/practicum/telemetry/analyzer/service/HubEventClient.java:72-74 | distinct action types map to distinct proto constants |
| Grpc.HubRouterStub.HandleDeviceAction | telemetry/analyzer/src/main/java/ru/yandex/practicum/telemetry/analyzer/service/HubRouterClient.java:46-51 | every call appends its request to the hub router's trace |
| HubRouterClient.BuiltPrefix | telemetry/analyzer/src/main/java/ru/yandex/practicum/telemetry/analyzer/service/HubRouterClient.java:36-43 | the entries before the first one whose request cannot be built (SET_VALUE without a value) |
| HubRouterClient.HandleScenario | telemetry/analyzer/src/main/java/ru/yandex/practicum/telemetry/analyzer/service/HubRouterClient.java:29-57 | one clock reading; the requests of the built prefix are sent; it throws iff some action cannot be built |
| HubRouterClient.RouterRequestFields | telemetry/analyzer/src/main/java/ru/yandex/practicum/telemetry/analyzer/service/HubRouterClient.java:38-51 | each request carries the hub, scenario name, sensor id, proto type, the value only for SET_VALUE, and the one timestamp |
| HubRouterClient.OneRequestPerEntry | telemetry/analyzer/src/main/java/ru/yandex/practicum/telemetry/analyzer/service/HubRouterClient.java:36-56 | when all actions can be built: one request per action, covering every sensor of the scenario |
| HubRouterClient.NullValueFirstSendsNothing | telemetry/analyzer/src/main/java/ru/yandex/practicum/telemetry/analyzer/service/HubRouterClient.java:41-43 | a SET_VALUE without a value first in iteration order sends nothing |
| HubEventClient.RequiresValueSetting | telemetry/analyzer/src/main/java/ru/yandex/practicum/telemetry/analyzer/service/HubEventClient.java:76-78 | true exactly for SET_VALUE |
| HubEventClient.ExecuteDeviceCommand | telemetry/analyzer/src/main/java/ru/yandex/practicum/telemetry/analyzer/service/HubEventClient.java:45-70 | sends the envelope when it can be built; otherwise the error is caught and nothing is sent |
| HubEventClient.SendScenarioCommands | telemetry/analyzer/src/main/java/ru/yandex/practicum/telemetry/analyzer/service/HubEventClient.java:29-43 | one clock reading; the buildable commands are sent in iteration order |
| HubEventClient.CommandRequestsMembers | telemetry/analyzer/src/main/java/ru/yandex/practicum/telemetry/analyzer/service/HubEventClient.java:39-42 | a request is sent iff it is the envelope of a buildable entry |
| HubEventClient.EveryBuildableActionSent | telemetry/analyzer/src/main/java/ru/yandex/practicum/telemetry/analyzer/service/HubEventClient.java:39-70 | every buildable action of the scenario is sent, and only the scenario's actions are sent |
| HubEventClient.AgreesWithRouterWhenBuildable | telemetry/analyzer/src/main/java/ru/yandex/practicum/telemetry/analyzer/service/HubEventClient.java:29-70 | when every action can be built, the second client sends what the first one sends |
| HubEventClient.SkipsOnlyTheUnbuildable | telemetry/analyzer/src/main/java/ru/yandex/practicum/telemetry/analyzer/service/HubEventClient.java:66-69 | concrete instance: a valueless SET_VALUE is skipped and the next action is still sent |
| ScenarioAddedEventHandler.ConditionTypeValueOf | telemetry/collector/src/main/java/ru/yandex/practicum/telemetry/collector/service/handler/hub/ScenarioAddedEventHandler.java:39 | `ConditionTypeAvro.valueOf`: the constant of that name, or the IllegalArgumentException |
| ScenarioAddedEventHandler.OperationValueOf | telemetry/collector/src/main/java/ru/yandex/practicum/telemetry/collector/service/handler/hub/ScenarioAddedEventHandler.java:40 | `ConditionOperationAvro.valueOf`: the constant of that name, or the exception |
| ScenarioAddedEventHandler.ActionTypeValueOf | telemetry/collector/src/main/java/ru/yandex/practicum/telemetry/collector/service/handler/hub/ScenarioAddedEventHandler.java:51 | `ActionTypeAvro.valueOf`: the constant of that name, or the exception |
| ScenarioAddedEventHandler.GetValue | telemetry/collector/src/main/java/ru/yandex/practicum/telemetry/collector/service/handler/hub/ScenarioAddedEventHandler.java:60-66 | int kept, bool as 1/0, unset as null |
| ScenarioAddedEventHandler.ConditionMapping | telemetry/collector/src/main/java/ru/yandex/practicum/telemetry/collector/service/handler/hub/ScenarioAddedEventHandler.java:38-48 | a condition maps iff its type and operation are recognised; its fields carry over |
| ScenarioAddedEventHandler.ActionMapping | telemetry/collector/src/main/java/ru/yandex/practicum/telemetry/collector/service/handler/hub/ScenarioAddedEventHandler.java:50-58 | an action maps iff its type is recognised; its sensor id and value carry over |
| ScenarioAddedEventHandler.ConditionsKeepOrder | telemetry/collector/src/main/java/ru/yandex/practicum/telemetry/collector/service/handler/hub/ScenarioAddedEventHandler.java:28 | the condition list maps element by element, in order, or fails |
| ScenarioAddedEventHandler.ActionsKeepOrder | telemetry/collector/src/main/java/ru/yandex/practicum/telemetry/collector/service/handler/hub/ScenarioAddedEventHandler.java:29 | the action list maps element by element, in order, or fails |
| ScenarioAddedEventHandler.MapToAvroShape | telemetry/collector/src/main/java/ru/yandex/practicum/telemetry/collector/service/handler/hub/ScenarioAddedEventHandler.java:25-36 | the event maps iff every element maps; the name and both lists carry over |
| ScenarioAddedEventHandler.ValueRoundTrip | telemetry/collector/src/main/java/ru/yandex/practicum/telemetry/collector/service/handler/hub/ScenarioAddedEventHandler.java:60-66 | the analyzer's `extractValue` recovers the value the collector wrote |
| ProcessorSnapshotProcessor.Dispatched | telemetry/analyzer/src/main/java/ru/yandex/practicum/telemetry/analyzer/processor/SnapshotProcessor.java:95-97 | the number of triggered scenarios handed to the router never exceeds their count |
| ProcessorSnapshotProcessor.DispatchedFrom | telemetry/analyzer/src/main/java/ru/yandex/practicum/telemetry/analyzer/processor/SnapshotProcessor.java:95-97 | one more scenario is handed over; the dispatch ends exactly when it throws |
| ProcessorSnapshotProcessor.DispatchedIsFirstAbort | telemetry/analyzer/src/main/java/ru/yandex/practicum/telemetry/analyzer/processor/SnapshotProcessor.java:92-100 | the dispatched prefix ends at the first scenario that throws |
| ProcessorSnapshotProcessor.HandleAllTicks | telemetry/analyzer/src/main/java/ru/yandex/practicum/telemetry/analyzer/processor/SnapshotProcessor.java:95-97 | each handled scenario takes one clock reading; earlier requests are kept |
| ProcessorSnapshotProcessor.HandleAllSends | telemetry/analyzer/src/main/java/ru/yandex/practicum/telemetry/analyzer/processor/SnapshotProcessor.java:95-97 | every request a handled scenario attempts, at its own reading, is sent |
| ProcessorSnapshotProcessor.HandleAllOnlySends | telemetry/analyzer/src/main/java/ru/yandex/practicum/telemetry/analyzer/processor/SnapshotProcessor.java:95-97 | every new request was attempted by one handled scenario |
| ProcessorSnapshotProcessor.HandleAllLast | telemetry/analyzer/src/main/java/ru/yandex/practicum/telemetry/analyzer/processor/SnapshotProcessor.java:95-97 | the requests after the last scenario are those before it plus its own |
| ProcessorSnapshotProcessor.AbortHidesLater | telemetry/analyzer/src/main/java/ru/yandex/practicum/telemetry/analyzer/processor/SnapshotProcessor.java:92-100 | a throwing scenario hides every scenario after it |
| ProcessorSnapshotProcessor.DispatchedAll | telemetry/analyzer/src/main/java/ru/yandex/practicum/telemetry/analyzer/processor/SnapshotProcessor.java:95-97 | all triggered scenarios are handled iff none but the last throws |
| ProcessorSnapshotProcessor.NullValueSilencesFollowers | telemetry/analyzer/src/main/java/ru/yandex/practicum/telemetry/analyzer/processor/SnapshotProcessor.java:92-100 | a valueless SET_VALUE first in a scenario sends nothing and stops the next triggered scenario |
| ProcessorSnapshotProcessor.DispatchedActionReachesHub | telemetry/analyzer/src/main/java/ru/yandex/practicum/telemetry/analyzer/processor/SnapshotProcessor.java:91-101 | a reached scenario whose actions can all be built has every action's envelope sent at its reading |
| ProcessorSnapshotProcessor.SnapshotProcessor.ManageOffsets | telemetry/analyzer/src/main/java/ru/yandex/practicum/telemetry/analyzer/processor/SnapshotProcessor.java:76-89 | records the next offset of the record's partition |
| ProcessorSnapshotProcessor.SnapshotProcessor.HandleRecord | telemetry/analyzer/src/main/java/ru/yandex/practicum/telemetry/analyzer/processor/SnapshotProcessor.java:91-101 | clock and requests after analysing one snapshot and handling its triggered scenarios until one throws |
| ProcessorSnapshotProcessor.SnapshotProcessor.Step | telemetry/analyzer/src/main/java/ru/yandex/practicum/telemetry/analyzer/processor/SnapshotProcessor.java:56-58 | one record: handled, then its offset recorded |
| ProcessorSnapshotProcessor.SnapshotProcessor.PollBatch | telemetry/analyzer/src/main/java/ru/yandex/practicum/telemetry/analyzer/processor/SnapshotProcessor.java:51-60 | requests, offsets and commit trace after one poll, ending with commitAsync |
| ProcessorSnapshotProcessor.SnapshotProcessor.Run | telemetry/analyzer/src/main/java/ru/yandex/practicum/telemetry/analyzer/processor/SnapshotProcessor.java:46-74 | requests, offsets and commit trace after all polls, then commitSync of the offsets and close |
| ServiceSnapshotProcessor.UpdateOffsets | telemetry/analyzer/src/main/java/ru/yandex/practicum/telemetry/analyzer/service/SnapshotProcessor.java:80-94 | records the next offset in the shared offset table; commits at counts 0, 100, ... |
| ServiceSnapshotProcessor.SendAllTicks | telemetry/analyzer/src/main/java/ru/yandex/practicum/telemetry/analyzer/service/SnapshotProcessor.java:100-102 | each triggered scenario takes one clock reading; earlier requests are kept |
| ServiceSnapshotProcessor.SendAllSends | telemetry/analyzer/src/main/java/ru/yandex/practicum/telemetry/analyzer/service/SnapshotProcessor.java:100-102 | every command a triggered scenario builds, at its reading, is sent |
| ServiceSnapshotProcessor.SendAllOnlySends | telemetry/analyzer/src/main/java/ru/yandex/practicum/telemetry/analyzer/service/SnapshotProcessor.java:100-102 | every new request was built by one triggered scenario |
| ServiceSnapshotProcessor.TriggeredActionReachesHub | telemetry/analyzer/src/main/java/ru/yandex/practicum/telemetry/analyzer/service/SnapshotProcessor.java:96-106 | every buildable action of every triggered scenario is sent; no scenario hides another |
| ServiceSnapshotProcessor.SnapshotProcessor.ProcessSnapshotRecord | telemetry/analyzer/src/main/java/ru/yandex/practicum/telemetry/analyzer/service/SnapshotProcessor.java:96-106 | clock and requests after sending the commands of every triggered scenario |
| ServiceSnapshotProcessor.SnapshotProcessor.Step | telemetry/analyzer/src/main/java/ru/yandex/practicum/telemetry/analyzer/service/SnapshotProcessor.java:63-65 | one record: processed, then its offset recorded |
| ServiceSnapshotProcessor.SnapshotProcessor.PollBatch | telemetry/analyzer/src/main/java/ru/yandex/practicum/telemetry/analyzer/service/SnapshotProcessor.java:59-67 | requests, offsets and commit trace after one poll, ending with commitSync |
| ServiceSnapshotProcessor.SnapshotProcessor.Run | telemetry/analyzer/src/main/java/ru/yandex/practicum/telemetry/analyzer/service/SnapshotProcessor.java:53-78 | requests, offsets and commit trace after all polls; no final offset commit |
| Cart.Merged | commerce/shopping-cart/src/main/java/ru/yandex/practicum/model/ShoppingCart.java:36-38 | `merge` with `Long::sum`: a new product gets the quantity, an existing one the sum; the others are kept |
| Cart.Without | commerce/shopping-cart/src/main/java/ru/yandex/practicum/model/ShoppingCart.java:40-42 | the products not listed remain, with their quantities |
| Cart.MergeAllStep | commerce/shopping-cart/src/main/java/ru/yandex/practicum/service/ShoppingCartServiceImpl.java:42-47 | the request loop merges one entry at a time |
| Cart.MergeAllSummed | commerce/shopping-cart/src/main/java/ru/yandex/practicum/service/ShoppingCartServiceImpl.java:42-47 | merging a request's entries in any iteration order gives the order-independent sum `Summed` |
| Cart.RemoveUndoesAdd | commerce/shopping-cart/src/main/java/ru/yandex/practicum/model/ShoppingCart.java:36-42 | removing a newly added product restores the cart |
| Cart.WithoutIdempotent | commerce/shopping-cart/src/main/java/ru/yandex/practicum/model/ShoppingCart.java:40-42 | removing the same ids twice is removing them once |
| Cart.ShoppingCart.AddProduct | commerce/shopping-cart/src/main/java/ru/yandex/practicum/model/ShoppingCart.java:36-38 | the products become `Merged(old, id, q)`; user and state are kept |
| Cart.ShoppingCart.RemoveProducts | commerce/shopping-cart/src/main/java/ru/yandex/practicum/model/ShoppingCart.java:40-42 | the products become `Without(old, ids)`; user and state are kept |
| CartService.GetOrCreate | commerce/shopping-cart/src/main/java/ru/yandex/practicum/service/ShoppingCartServiceImpl.java:119-134 | the existing cart, or a new active empty one |
| CartService.FirstNonPositive | commerce/shopping-cart/src/main/java/ru/yandex/practicum/service/ShoppingCartServiceImpl.java:42-47 | the first entry whose quantity is not positive, or none iff all are positive |
| CartService.Missing | commerce/shopping-cart/src/main/java/ru/yandex/practicum/service/ShoppingCartServiceImpl.java:87-93 | exactly the listed ids absent from the cart |
| CartService.MissingConcat | commerce/shopping-cart/src/main/java/ru/yandex/practicum/service/ShoppingCartServiceImpl.java:87-93 | the filter keeps list order and repeats: the missing ids of a concatenation are those of each part, in order |
| CartService.MissingSingle | commerce/shopping-cart/src/main/java/ru/yandex/practicum/service/ShoppingCartServiceImpl.java:87-93 | a single id is kept exactly when the cart lacks it |
| CartService.AddToCart | commerce/shopping-cart/src/main/java/ru/yandex/practicum/service/ShoppingCartServiceImpl.java:32-53 | unauthorised users fail; success needs an active cart, positive quantities and a warehouse that accepts the merged cart; only the user's cart changes |
| CartService.GetCart | commerce/shopping-cart/src/main/java/ru/yandex/practicum/service/ShoppingCartServiceImpl.java:55-62 | succeeds iff authorised; it may only add a cart for a new user |
| CartService.Deactivate | commerce/shopping-cart/src/main/java/ru/yandex/practicum/service/ShoppingCartServiceImpl.java:67-75 | succeeds iff the user has a cart; then only that cart's state becomes DEACTIVATE |
| CartService.RemoveFromCart | commerce/shopping-cart/src/main/java/ru/yandex/practicum/service/ShoppingCartServiceImpl.java:80-98 | success needs an active existing cart; only that cart changes |
| CartService.ChangeQuantity | commerce/shopping-cart/src/main/java/ru/yandex/practicum/service/ShoppingCartServiceImpl.java:103-117 | succeeds iff the user has an active cart; only that cart changes |
| CartService.BlankUserRejected | commerce/shopping-cart/src/main/java/ru/yandex/practicum/service/ShoppingCartServiceImpl.java:146-150 | a null or blank username fails every operation with NotAuthorizedUser |
| CartService.NewUserGetsActiveEmptyCart | commerce/shopping-cart/src/main/java/ru/yandex/practicum/service/ShoppingCartServiceImpl.java:119-134 | a new user's first read creates an active empty cart |
| CartService.AddToDeactivatedFails | commerce/shopping-cart/src/main/java/ru/yandex/practicum/service/ShoppingCartServiceImpl.java:38-40 | nothing can be added to a deactivated cart |
| CartService.NonPositiveRejects | commerce/shopping-cart/src/main/java/ru/yandex/practicum/service/ShoppingCartServiceImpl.java:42-45 | a non-positive quantity rejects the whole request, naming an offending product |
| CartService.AddSumsQuantities | commerce/shopping-cart/src/main/java/ru/yandex/practicum/service/ShoppingCartServiceImpl.java:42-50 | adding succeeds iff all quantities are positive and the warehouse accepts; then the cart is the old one plus the request, summed |
| CartService.DeactivateIdempotent | commerce/shopping-cart/src/main/java/ru/yandex/practicum/service/ShoppingCartServiceImpl.java:67-75 | deactivating twice is deactivating once |
| CartService.DeactivateMissingThrows | commerce/shopping-cart/src/main/java/ru/yandex/practicum/service/ShoppingCartServiceImpl.java:136-144 | deactivation without a cart fails with ShoppingCartNotFound |
| CartService.RemoveAllOrNothing | commerce/shopping-cart/src/main/java/ru/yandex/practicum/service/ShoppingCartServiceImpl.java:87-96 | removal succeeds iff every id is in the cart; it then drops exactly those ids, or else fails listing the missing ones |
| CartService.RemoveFromDeactivatedFails | commerce/shopping-cart/src/main/java/ru/yandex/practicum/service/ShoppingCartServiceImpl.java:83-85 | nothing can be removed from a deactivated cart |
| CartService.ChangeQuantitySetOrRemove | commerce/shopping-cart/src/main/java/ru/yandex/practicum/service/ShoppingCartServiceImpl.java:105-113 | a positive quantity is set (adding the product), any other removes it; the rest is kept |
| CartService.ShoppingCartService.GetOrCreateShoppingCartByUser | commerce/shopping-cart/src/main/java/ru/yandex/practicum/service/ShoppingCartServiceImpl.java:119-134 | the user's cart, saving a new active empty one if there was none |
| CartService.ShoppingCartService.GetExistingShoppingCartByUser | commerce/shopping-cart/src/main/java/ru/yandex/practicum/service/ShoppingCartServiceImpl.java:136-144 | the user's cart, or NotAuthorizedUser / ShoppingCartNotFound; nothing changes |
| CartService.ShoppingCartService.AddProductToCart | commerce/shopping-cart/src/main/java/ru/yandex/practicum/service/ShoppingCartServiceImpl.java:32-53 | the carts become `AddToCart`'s result, or are rolled back on error |
| CartService.ShoppingCartService.MergeRequest | commerce/shopping-cart/src/main/java/ru/yandex/practicum/service/ShoppingCartServiceImpl.java:42-47 | stops at the first non-positive quantity; otherwise the cart is the request merged in order |
| CartService.ShoppingCartService.GetShoppingCart | commerce/shopping-cart/src/main/java/ru/yandex/practicum/service/ShoppingCartServiceImpl.java:55-62 | the carts become `GetCart`'s result, and the user's cart is returned |
| CartService.ShoppingCartService.DeactivatingUserCart | commerce/shopping-cart/src/main/java/ru/yandex/practicum/service/ShoppingCartServiceImpl.java:67-75 | the carts become `Deactivate`'s result, or are unchanged on error |
| CartService.ShoppingCartService.RemoveProductFromCart | commerce/shopping-cart/src/main/java/ru/yandex/practicum/service/ShoppingCartServiceImpl.java:80-98 | the carts become `RemoveFromCart`'s result, or are unchanged on error |
| CartService.ShoppingCartService.ChangeProductQuantity | commerce/shopping-cart/src/main/java/ru/yandex/practicum/service/ShoppingCartServiceImpl.java:103-117 | the carts become `ChangeQuantity`'s result, or are unchanged on error |
| Warehouse.Register | commerce/warehouse/src/main/java/ru/yandex/practicum/service/WarehouseServiceImpl.java:37-45 | fails iff the product is already stocked; otherwise adds it and keeps the rest |
| Warehouse.Restock | commerce/warehouse/src/main/java/ru/yandex/practicum/service/WarehouseServiceImpl.java:57-65 | fails iff the product is unknown; otherwise adds the quantity (Long sum) and keeps the rest |
| Warehouse.FirstProblem | commerce/warehouse/src/main/java/ru/yandex/practicum/service/WarehouseServiceImpl.java:80-96 | no problem iff every cart entry is stocked in sufficient quantity; otherwise the error names the first failing entry in iteration order (every earlier entry is served) and the kind of failure: not found, or low quantity |
| Warehouse.AvailableIff | commerce/warehouse/src/main/java/ru/yandex/practicum/service/WarehouseServiceImpl.java:80-96 | validation passes iff every product of the cart is stocked in at least the requested quantity |
| Warehouse.FailureKinds | commerce/warehouse/src/main/java/ru/yandex/practicum/service/WarehouseServiceImpl.java:86-94 | an unknown product is always a failure; with all products known, any failure is low quantity |
| Warehouse.RestockKeepsAvailable | commerce/warehouse/src/main/java/ru/yandex/practicum/service/WarehouseServiceImpl.java:57-65 | adding stock never makes a valid cart invalid |
| Warehouse.FragileOverEntries | commerce/warehouse/src/main/java/ru/yandex/practicum/service/WarehouseServiceImpl.java:115-117 | "some entry is fragile" does not depend on iteration order |
| Warehouse.GetWarehouseAddress | commerce/warehouse/src/main/java/ru/yandex/practicum/service/WarehouseServiceImpl.java:69-78 | all five address fields are the current address string |
| Warehouse.NextInt | commerce/warehouse/src/main/java/ru/yandex/practicum/model/Address.java:26 | `nextInt(origin, bound)` lies in [origin, bound) |
| Warehouse.CurrentAddress | commerce/warehouse/src/main/java/ru/yandex/practicum/model/Address.java:25-26 | the address is one of the listed addresses |
| Warehouse.CurrentAddressIsAlwaysFirst | commerce/warehouse/src/main/java/ru/yandex/practicum/model/Address.java:25-26 | as written, `nextInt(0, 1)` always yields the first address, never the second (finding) |
| Warehouse.IntendedAddress | commerce/warehouse/src/main/java/ru/yandex/practicum/model/Address.java:22-26 | the corrected draw yields one of the listed addresses |
| Warehouse.IntendedAddressReachesEvery | commerce/warehouse/src/main/java/ru/yandex/practicum/model/Address.java:22-26 | the corrected draw can yield every listed address |
| Warehouse.WarehouseService.AddNewProductToWarehouse | commerce/warehouse/src/main/java/ru/yandex/practicum/service/WarehouseServiceImpl.java:37-45 | stock becomes `Register`'s result, or is unchanged on error |
| Warehouse.WarehouseService.TakeProductToWarehouse | commerce/warehouse/src/main/java/ru/yandex/practicum/service/WarehouseServiceImpl.java:57-65 | stock becomes `Restock`'s result, or is unchanged on error |
| Warehouse.WarehouseService.ValidateProductQuantities | commerce/warehouse/src/main/java/ru/yandex/practicum/service/WarehouseServiceImpl.java:80-96 | the loop returns `FirstProblem` of the cart |
| Warehouse.WarehouseService.CalculateOrderDetails | commerce/warehouse/src/main/java/ru/yandex/practicum/service/WarehouseServiceImpl.java:98-125 | fragile iff some cart product is fragile |
| Warehouse.WarehouseService.CheckProductAvailability | commerce/warehouse/src/main/java/ru/yandex/practicum/service/WarehouseServiceImpl.java:49-52 | fails with the validation error, or books the cart with the fragile flag |
| Warehouse.WarehouseService.GetWarehouseAddressDto | commerce/warehouse/src/main/java/ru/yandex/practicum/service/WarehouseServiceImpl.java:69-78 | the address DTO of the service's address, which as written is "ADDRESS_1" in every field whatever the draw (`Address.java:25-26`) |
| Store.NewProduct | commerce/shopping-store/src/main/java/ru/yandex/practicum/service/ShoppingStoreServiceImpl.java:32-36 | a product without a state becomes ACTIVE; the other fields are copied |
| Store.Create | commerce/shopping-store/src/main/java/ru/yandex/practicum/service/ShoppingStoreServiceImpl.java:32-39 | the new product is stored under its new id; the rest is kept |
| Store.FindProductById | commerce/shopping-store/src/main/java/ru/yandex/practicum/service/ShoppingStoreServiceImpl.java:88-91 | found iff the id is in the catalogue, else ProductNotFound naming it |
| Store.Update | commerce/shopping-store/src/main/java/ru/yandex/practicum/service/ShoppingStoreServiceImpl.java:44-50 | fails iff the id is unknown; otherwise only that product is replaced by the mapper's update |
| Store.Remove | commerce/shopping-store/src/main/java/ru/yandex/practicum/service/ShoppingStoreServiceImpl.java:72-76 | fails iff the id is unknown; otherwise the product stays, DEACTIVATE, with its other fields |
| Store.SetQuantityState | commerce/shopping-store/src/main/java/ru/yandex/practicum/service/ShoppingStoreServiceImpl.java:81-85 | fails iff the id is unknown; otherwise only that product's quantity state changes |
| Store.Listing | commerce/shopping-store/src/main/java/ru/yandex/practicum/service/ShoppingStoreServiceImpl.java:63-67 | exactly the ACTIVE products of the category |
| Store.UnknownIdRejected | commerce/shopping-store/src/main/java/ru/yandex/practicum/service/ShoppingStoreServiceImpl.java:88-91 | an unknown id fails find, update, remove and quantity-state change with ProductNotFound |
| Store.CreatedIsListed | commerce/shopping-store/src/main/java/ru/yandex/practicum/service/ShoppingStoreServiceImpl.java:32-39 | a product created without a state is listed in its category |
| Store.RemovedNotListed | commerce/shopping-store/src/main/java/ru/yandex/practicum/service/ShoppingStoreServiceImpl.java:72-76 | a removed product is still found by id but no longer listed |
| Store.RemoveIdempotent | commerce/shopping-store/src/main/java/ru/yandex/practicum/service/ShoppingStoreServiceImpl.java:72-76 | removing twice is removing once |
| Store.SetQuantityStateKeepsListing | commerce/shopping-store/src/main/java/ru/yandex/practicum/service/ShoppingStoreServiceImpl.java:81-85 | changing the quantity state does not change any listing |
| Store.ShoppingStoreService.CreateNewProduct | commerce/shopping-store/src/main/java/ru/yandex/practicum/service/ShoppingStoreServiceImpl.java:32-39 | the catalogue becomes `Create`'s result and the saved product is returned |
| Store.ShoppingStoreService.UpdateProduct | commerce/shopping-store/src/main/java/ru/yandex/practicum/service/ShoppingStoreServiceImpl.java:44-50 | the catalogue becomes `Update`'s result, or is unchanged on error |
| Store.ShoppingStoreService.GetProduct | commerce/shopping-store/src/main/java/ru/yandex/practicum/service/ShoppingStoreServiceImpl.java:55-58 | the product, or ProductNotFound |
| Store.ShoppingStoreService.GetProducts | commerce/shopping-store/src/main/java/ru/yandex/practicum/service/ShoppingStoreServiceImpl.java:63-67 | exactly the ACTIVE products of the category |
| Store.ShoppingStoreService.RemoveProductFromStore | commerce/shopping-store/src/main/java/ru/yandex/practicum/service/ShoppingStoreServiceImpl.java:72-76 | the catalogue becomes `Remove`'s result, or is unchanged on error |
| Store.ShoppingStoreService.SetProductQuantityState | commerce/shopping-store/src/main/java/ru/yandex/practicum/service/ShoppingStoreServiceImpl.java:81-85 | the catalogue becomes `SetQuantityState`'s result, or is unchanged on error |

Where the behaviour described for the system and the code differ, the model
follows the code:

- A poll of 250 records commits the offsets three times (at counts 0, 100
  and 200), not twice. See `Offsets.Cadence250`.
- A device-removed event for a sensor owned by another hub is a silent no-op.
  It is not a rejection. See `SensorService.RemoveForeignOrAbsentIsNoOp`.
- The `service` generation of hub-event processing calls
  `sensorService.save` on device added and `sensorService.delete` on device
  removed (HubEventProcessor.java:99 and :108). SensorService declares
  neither; it has only `createSensor`, `removeSensor` and `findByIdAndHubId`.
  The model reads these calls as the JPA repository's `save` and `delete`.
  A save then moves a sensor registered to another hub to the new hub. See
  `ServiceHubEventProcessor.DeviceAddedTransfersOwnership`.
- A scenario naming an unregistered sensor is not rejected as a whole by
  ScenarioHandler. The sensor is dropped from the scenario. See
  `ScenarioHandler.SkipsUnregistered`.
- In the `processor` generation, one action that cannot be built
  (`setValue(null)` outside the `try`) stops its scenario. It also stops every
  later triggered scenario of the snapshot. See
  `ProcessorSnapshotProcessor.NullValueSilencesFollowers`.
- `existsByIdInAndHubId` is a Spring Data derived query. It is true when
  SOME id of the set is registered to the hub. The result is named
  `allSensorsExists`, and the exception message speaks of non-existent
  devices, so every id was evidently meant (see "## Findings").
  `ScenarioService.Save` takes the check as a parameter (`existsIn`). The
  model proves what happens under the query as written (`AnyRegistered`) and
  under the intended check (`AllRegistered`).

## Left out

- Kafka I/O is left out: subscribe, poll timeouts, wakeup, the shutdown hook
  and broker failures. Each poll's records are a parameter, and `Run` models
  the loop up to the exit path.
- The gRPC transport is left out. A send is recorded on `HubRouterStub`, and
  its failure is logged and swallowed, so it changes nothing.
- The JPA repositories are maps. The generated UUIDs of new products are a
  parameter (`newId`).
- Floating point is left out: weight, dimensions and volume in the warehouse,
  and the product price in the store.
- Paging in `getProducts` is left out. The listing is the whole filtered
  catalogue.
- The MapStruct mapper in `updateProduct` is a parameter (`Mapper`). DTO
  mapping elsewhere is a field copy.
- The Feign call `warehouse.checkProductAvailability` in `addProductToCart`
  is a parameter (`Availability`). Its fallback only logs, so a call that
  falls back counts as accepting.
- Logging and the aspects are left out, as are the global exception handler,
  the controllers, and the handler classes under `handler/`, which are not
  part of this model.
- Null arguments other than the username are left out, since they only raise
  a NullPointerException. This covers null quantities, product ids and
  payloads.
- The enum constants of QuantityState and ProductCategory are not part of
  this model; they are strings.
- The shopping cart id and the DTO shapes returned to callers are left out.
  The model returns the cart record.
- CartService.ShoppingCartService.GetShoppingCart: a new user's cart is
  modelled as saved. The source saves it inside a read-only transaction, and
  whether that write persists depends on the JPA provider.
- Cart.Merged: the sum is stated exactly only when it fits in 64 bits. An
  overflowing sum is stated only modulo 2^64 (it is `LongSum`'s wrap).
- Warehouse.Restock: same as `Cart.Merged` for the added quantity.
- Warehouse.NextInt: the random draw is a parameter. The model states only
  that the result lies in range, and that a draw below the range size is used
  as the offset.
- The timestamps are plain integers. The split into seconds and nanoseconds
  of `Instant` and protobuf `Timestamp` is left out.
- HashMap iteration order is a parameter. The properties that depend on it
  require a faithful enumeration of the map (`IsEntrySet`).

## Findings

| source | as written | input that shows it | evidently intended | confidence | as-written member | corrected member |
|---|---|---|---|---|---|---|
| telemetry/aggregator/src/main/java/yandex/practicum/telemetry/aggregator/service/SnapshotService.java:27-33 | the staleness check looks up the HUB id in the hub's sensor-state map, while states are stored under the sensor id | the same event for sensor "switch-1" of hub "hub-1" delivered twice: both deliveries produce a snapshot | look up the event's sensor id, so that a duplicate or older reading is suppressed | high, not executed | Aggregator.DuplicateReemitted | Aggregator.IntendedSuppressesDuplicates |
| commerce/warehouse/src/main/java/ru/yandex/practicum/model/Address.java:25-26 | `nextInt(0, 1)` has an exclusive bound, so it always returns 0 | any draw: the address is always "ADDRESS_1" | draw from the whole array (`nextInt(0, ADDRESSES.length)`) | high, not executed | Warehouse.CurrentAddressIsAlwaysFirst | Warehouse.IntendedAddressReachesEvery |
| telemetry/analyzer/src/main/java/ru/yandex/practicum/telemetry/analyzer/service/ScenarioService.java:37-40 | `existsByIdInAndHubId` is true as soon as one id of the set is registered to the hub, so the scenario is rejected only when none is | scenario "evening" of "hub-1" with a condition on "lamp" (registered to "hub-1") and an action on "ghost" (registered nowhere): it is stored | reject the scenario unless every referenced sensor is registered to the hub, as `allSensorsExists` says | high, not executed | ScenarioService.AnyRegisteredAdmitsUnregistered | ScenarioService.AllRegisteredSaveValidates |
