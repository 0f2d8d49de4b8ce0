/** The analyzer's hub-event loop as written in service/HubEventProcessor.java:
    each record is routed by its payload inside its own try block, so a
    record that fails is logged and the next one is still processed; every
    poll ends in a synchronous commit, and the exit path only closes the
    consumer. */
module ServiceHubEventProcessor {
  import opened Common
  import opened Events
  import opened Rules
  import opened Offsets
  import SensorService
  import ScenarioService

  /** `sensorRepository.existsByIdInAndHubId`. */
  type SensorCheck = (map<SensorId, HubId>, set<SensorId>, HubId) -> bool

  /** `handleDeviceAdded`: nothing happens when the sensor is already
      registered to this hub; otherwise the row (sensorId, hubId) is saved.
      The source calls `sensorService.save` and `sensorService.delete`, which
      SensorService (createSensor, removeSensor, findByIdAndHubId) does not
      declare; the model reads them as the JPA repository's `save` (an
      overwrite of the row with that id, whichever hub owns it) and
      `delete`. */
  function AfterDeviceAdded(sensors: map<SensorId, HubId>, hubId: HubId, sensorId: SensorId): (s: map<SensorId, HubId>)
    ensures s.Keys == sensors.Keys + {sensorId}
    ensures s[sensorId] == hubId
    ensures forall k :: k in sensors && k != sensorId ==> s[k] == sensors[k]
  {
    if SensorService.FindByIdAndHubId(sensors, sensorId, hubId).Some? then sensors
    else sensors[sensorId := hubId]
  }

  /** The rule store after one record; a failing `save` is caught and leaves
      the store as it was. */
  function Step(r: RuleState, e: HubEvent, existsIn: SensorCheck): (r': RuleState)
    ensures WellKeyed(r) ==> WellKeyed(r')
  {
    match e.payload
    case DeviceAdded(id, _) => r.(sensors := AfterDeviceAdded(r.sensors, e.hubId, id))
    case DeviceRemoved(id) => r.(sensors := SensorService.Removed(r.sensors, e.hubId, id))
    case ScenarioAdded(sc) => ScenarioService.AfterSave(r, sc, e.hubId, existsIn)
    case ScenarioRemoved(name) => RemoveScenario(r, e.hubId, name)
    case UnknownPayload => r
  }

  /** The rule store after the records, in order. */
  function Fold(r: RuleState, records: seq<Record<HubEvent>>, existsIn: SensorCheck): (r': RuleState)
    ensures WellKeyed(r) ==> WellKeyed(r')
  {
    if |records| == 0 then r
    else Step(Fold(r, records[..|records| - 1], existsIn), records[|records| - 1].value, existsIn)
  }

  method HandleDeviceAdded(store: RuleStore, hubId: HubId, sensorId: SensorId)
    modifies store
    ensures store.sensors == AfterDeviceAdded(old(store.sensors), hubId, sensorId)
    ensures store.scenarios == old(store.scenarios)
  {
    var existingSensor := SensorService.FindByIdAndHubId(store.sensors, sensorId, hubId);
    if existingSensor.Some? {
      return;
    }
    var newSensor := Sensor(sensorId, hubId);
    store.sensors := store.sensors[newSensor.id := newSensor.hubId];
  }

  method HandleDeviceRemoved(store: RuleStore, hubId: HubId, sensorId: SensorId)
    modifies store
    ensures store.sensors == SensorService.Removed(old(store.sensors), hubId, sensorId)
    ensures store.scenarios == old(store.scenarios)
  {
    var found := SensorService.FindByIdAndHubId(store.sensors, sensorId, hubId);
    if found.Some? {
      store.sensors := store.sensors - {found.value.id};
    }
  }

  /** The body of `processRecords`' loop for one record. */
  method HandleRecord(store: RuleStore, e: HubEvent, existsIn: SensorCheck)
    requires WellKeyed(store.Contents())
    modifies store
    ensures WellKeyed(store.Contents())
    ensures store.Contents() == Step(old(store.Contents()), e, existsIn)
  {
    match e.payload
    case DeviceAdded(id, _) =>
      HandleDeviceAdded(store, e.hubId, id);
    case DeviceRemoved(id) =>
      HandleDeviceRemoved(store, e.hubId, id);
    case ScenarioAdded(sc) =>
      // a rejected scenario surfaces as an exception, caught and logged
      var _ := ScenarioService.Save(store, sc, e.hubId, existsIn);
    case ScenarioRemoved(name) =>
      ScenarioService.Delete(store, name, e.hubId);
    case UnknownPayload =>
  }

  method ProcessRecords(store: RuleStore, records: seq<Record<HubEvent>>, existsIn: SensorCheck)
    requires WellKeyed(store.Contents())
    modifies store
    ensures WellKeyed(store.Contents())
    ensures store.Contents() == Fold(old(store.Contents()), records, existsIn)
  {
    for i := 0 to |records|
      invariant WellKeyed(store.Contents())
      invariant store.Contents() == Fold(old(store.Contents()), records[..i], existsIn)
    {
      assert records[..i + 1][..i] == records[..i];
      HandleRecord(store, records[i].value, existsIn);
    }
    assert records[..|records|] == records;
  }

  /** One turn of `run`'s loop: the polled records, if any, are processed,
      and the consumer commits synchronously even after an empty poll. */
  method PollCycle(consumer: Consumer, store: RuleStore, records: seq<Record<HubEvent>>, existsIn: SensorCheck)
    requires WellKeyed(store.Contents())
    modifies consumer, store
    ensures WellKeyed(store.Contents())
    ensures store.Contents() == Fold(old(store.Contents()), records, existsIn)
    ensures consumer.calls == old(consumer.calls) + [CommitCall.CommitSync]
  {
    if |records| > 0 {
      ProcessRecords(store, records, existsIn);
    }
    consumer.CommitSync();
  }

  /** `run`: the polls in order, then the exit path, which only closes. */
  method Run(consumer: Consumer, store: RuleStore, batches: seq<seq<Record<HubEvent>>>, existsIn: SensorCheck)
    requires WellKeyed(store.Contents())
    modifies consumer, store
    ensures WellKeyed(store.Contents())
    ensures store.Contents() == Fold(old(store.Contents()), Flatten(batches), existsIn)
    ensures consumer.calls == old(consumer.calls) + seq(|batches|, _ => CommitCall.CommitSync) + [CommitCall.Close]
  {
    for i := 0 to |batches|
      invariant WellKeyed(store.Contents())
      invariant store.Contents() == Fold(old(store.Contents()), Flatten(batches[..i]), existsIn)
      invariant consumer.calls == old(consumer.calls) + seq(i, _ => CommitCall.CommitSync)
    {
      assert batches[..i + 1][..i] == batches[..i];
      FoldConcat(old(store.Contents()), Flatten(batches[..i]), batches[i], existsIn);
      PollCycle(consumer, store, batches[i], existsIn);
    }
    assert batches[..|batches|] == batches;
    consumer.Close();
  }

  /** Processing two runs of records one after the other is processing
      their concatenation. */
  lemma {:induction false} FoldConcat(r: RuleState, a: seq<Record<HubEvent>>, b: seq<Record<HubEvent>>, existsIn: SensorCheck)
    ensures Fold(r, a + b, existsIn) == Fold(Fold(r, a, existsIn), b, existsIn)
  {
    if |b| == 0 {
      assert a + b == a;
    } else {
      assert (a + b)[..|a + b| - 1] == a + b[..|b| - 1];
      FoldConcat(r, a, b[..|b| - 1], existsIn);
    }
  }

  /** A scenario rejected by the sensor check leaves the store as it was, and
      the records after it are processed as if it had not been there. */
  lemma RejectedScenarioSkipped(r: RuleState, rec: Record<HubEvent>, rest: seq<Record<HubEvent>>, existsIn: SensorCheck)
    requires rec.value.payload.ScenarioAdded?
    requires !existsIn(r.sensors, ScenarioService.ReferencedSensors(rec.value.payload.scenario), rec.value.hubId)
    ensures Step(r, rec.value, existsIn) == r
    ensures Fold(r, [rec] + rest, existsIn) == Fold(r, rest, existsIn)
  {
    assert [rec][..0] == [];
    FoldConcat(r, [rec], rest, existsIn);
  }

  /** Device events touch only the sensor table, scenario events only the
      scenario table, and an unknown payload nothing. */
  lemma StepFrame(r: RuleState, e: HubEvent, existsIn: SensorCheck)
    ensures (e.payload.DeviceAdded? || e.payload.DeviceRemoved?) ==> Step(r, e, existsIn).scenarios == r.scenarios
    ensures (e.payload.ScenarioAdded? || e.payload.ScenarioRemoved?) ==> Step(r, e, existsIn).sensors == r.sensors
    ensures e.payload.UnknownPayload? ==> Step(r, e, existsIn) == r
  {
  }

  /** Unlike `SensorService.createSensor`, a DeviceAdded event for a sensor
      registered to another hub moves the sensor to the announcing hub. */
  lemma DeviceAddedTransfersOwnership(sensors: map<SensorId, HubId>, hubId: HubId, sensorId: SensorId)
    requires sensorId in sensors && sensors[sensorId] != hubId
    ensures AfterDeviceAdded(sensors, hubId, sensorId)[sensorId] == hubId
    ensures SensorService.Created(sensors, hubId, sensorId)[sensorId] == sensors[sensorId]
    ensures AfterDeviceAdded(sensors, hubId, sensorId) != SensorService.Created(sensors, hubId, sensorId)
  {
  }

  /** Announcing the same device twice is announcing it once. */
  lemma DeviceAddedIdempotent(sensors: map<SensorId, HubId>, hubId: HubId, sensorId: SensorId)
    ensures AfterDeviceAdded(AfterDeviceAdded(sensors, hubId, sensorId), hubId, sensorId)
            == AfterDeviceAdded(sensors, hubId, sensorId)
  {
  }
}

/** The analyzer's hub-event loop as written in processor/HubEventProcessor.java:
    records are handled one by one, each followed by an update of the offset
    table and, every 100th record, an async commit of it; each poll ends in a
    plain async commit, and the exit path commits the table synchronously
    and closes. The scenario service it calls is the one whose methods
    `handleDeviceAdded`, `handleDeviceRemoved`, `handleScenarioAdded` and
    `handleScenarioRemoved` exist: analyzer/service/ScenarioHandler.java. */
module ProcessorHubEventProcessor {
  import opened Common
  import opened Events
  import opened Rules
  import opened Offsets
  import SensorService
  import ScenarioHandler

  /** The rule store after `handleRecord`. */
  function HandlerStep(r: RuleState, e: HubEvent): (r': RuleState)
    ensures WellKeyed(r) ==> WellKeyed(r')
  {
    match e.payload
    case DeviceAdded(id, _) => r.(sensors := SensorService.Created(r.sensors, e.hubId, id))
    case DeviceRemoved(id) => r.(sensors := SensorService.Removed(r.sensors, e.hubId, id))
    case ScenarioAdded(sc) => ScenarioHandler.AfterScenarioAdded(r, e.hubId, sc)
    case ScenarioRemoved(name) => RemoveScenario(r, e.hubId, name)
    case UnknownPayload => r
  }

  function HandlerFold(r: RuleState, records: seq<Record<HubEvent>>): (r': RuleState)
    ensures WellKeyed(r) ==> WellKeyed(r')
  {
    if |records| == 0 then r
    else HandlerStep(HandlerFold(r, records[..|records| - 1]), records[|records| - 1].value)
  }

  lemma {:induction false} HandlerFoldConcat(r: RuleState, a: seq<Record<HubEvent>>, b: seq<Record<HubEvent>>)
    ensures HandlerFold(r, a + b) == HandlerFold(HandlerFold(r, a), b)
  {
    if |b| == 0 {
      assert a + b == a;
    } else {
      assert (a + b)[..|a + b| - 1] == a + b[..|b| - 1];
      HandlerFoldConcat(r, a, b[..|b| - 1]);
    }
  }

  /** Re-announcing a scenario replaces it: the same event twice in a row
      leaves the store as once, the sensor table being unchanged by it. */
  lemma ScenarioAddedIdempotent(r: RuleState, e: HubEvent)
    requires WellKeyed(r)
    requires e.payload.ScenarioAdded?
    ensures HandlerStep(HandlerStep(r, e), e) == HandlerStep(r, e)
  {
    var r1 := HandlerStep(r, e);
    assert r1.sensors == r.sensors;
    var r2 := HandlerStep(r1, e);
    assert r2.scenarios == r1.scenarios;
  }

  class HubEventProcessor {
    var offsets: OffsetTable
    const consumer: Consumer
    const store: RuleStore

    constructor(consumer: Consumer, store: RuleStore)
      ensures this.consumer == consumer && this.store == store
      ensures offsets == map[]
    {
      this.consumer := consumer;
      this.store := store;
      offsets := map[];
    }

    /** `manageOffsets`: record the next offset of the record's partition;
        the 0th, 100th, 200th, ... record of a poll also commits the whole
        table asynchronously. */
    method ManageOffsets(r: Record<HubEvent>, count: nat)
      modifies this, consumer
      ensures offsets == Advance(old(offsets), r)
      ensures consumer.calls == old(consumer.calls)
                                + (if count % 100 == 0 then [CommitCall.CommitAsyncOffsets(offsets)] else [])
    {
      offsets := offsets[PartitionOf(r) := r.offset + 1];
      if count % 100 == 0 {
        consumer.CommitAsyncOffsets(offsets);
      }
    }

    /** `handleRecord`: route the event to the scenario handler. */
    method HandleRecord(e: HubEvent)
      requires WellKeyed(store.Contents())
      modifies store
      ensures WellKeyed(store.Contents())
      ensures store.Contents() == HandlerStep(old(store.Contents()), e)
    {
      match e.payload
      case DeviceAdded(id, _) =>
        ScenarioHandler.HandleDeviceAdded(store, e.hubId, id);
      case DeviceRemoved(id) =>
        ScenarioHandler.HandleDeviceRemoved(store, e.hubId, id);
      case ScenarioAdded(sc) =>
        ScenarioHandler.HandleScenarioAdded(store, e.hubId, sc);
      case ScenarioRemoved(name) =>
        ScenarioHandler.HandleScenarioRemoved(store, e.hubId, name);
      case UnknownPayload =>
    }

    /** One turn of `run`'s loop over the polled records. */
    method PollBatch(records: seq<Record<HubEvent>>)
      requires WellKeyed(store.Contents())
      modifies this, consumer, store
      ensures WellKeyed(store.Contents())
      ensures store.Contents() == HandlerFold(old(store.Contents()), records)
      ensures offsets == OffsetsAfter(old(offsets), records)
      ensures consumer.calls == old(consumer.calls) + (BatchCommits(old(offsets), records) + [CommitCall.CommitAsync])
    {
      var count := 0;
      for i := 0 to |records|
        invariant count == i
        invariant WellKeyed(store.Contents())
        invariant store.Contents() == HandlerFold(old(store.Contents()), records[..i])
        invariant offsets == OffsetsAfter(old(offsets), records[..i])
        invariant consumer.calls == old(consumer.calls) + BatchCommits(old(offsets), records[..i])
      {
        assert records[..i + 1][..i] == records[..i];
        HandleRecord(records[i].value);
        ManageOffsets(records[i], count);
        count := count + 1;
      }
      assert records[..|records|] == records;
      consumer.CommitAsync();
    }

    /** `run`: the polls in order, then the exit path's synchronous commit of
        the table and the close. */
    method Run(batches: seq<seq<Record<HubEvent>>>)
      requires WellKeyed(store.Contents())
      modifies this, consumer, store
      ensures WellKeyed(store.Contents())
      ensures store.Contents() == HandlerFold(old(store.Contents()), Flatten(batches))
      ensures offsets == OffsetsAfter(old(offsets), Flatten(batches))
      ensures consumer.calls == old(consumer.calls) + RunCommits(old(offsets), batches, CommitCall.CommitAsync)
                                + [CommitCall.CommitSyncOffsets(offsets), CommitCall.Close]
    {
      for i := 0 to |batches|
        invariant WellKeyed(store.Contents())
        invariant store.Contents() == HandlerFold(old(store.Contents()), Flatten(batches[..i]))
        invariant offsets == OffsetsAfter(old(offsets), Flatten(batches[..i]))
        invariant consumer.calls == old(consumer.calls) + RunCommits(old(offsets), batches[..i], CommitCall.CommitAsync)
      {
        RunStep(old(offsets), batches, i, CommitCall.CommitAsync);
        HandlerFoldConcat(old(store.Contents()), Flatten(batches[..i]), batches[i]);
        ghost var batch := BatchCommits(offsets, batches[i]) + [CommitCall.CommitAsync];
        PollBatch(batches[i]);
        AppendAssoc(old(consumer.calls), RunCommits(old(offsets), batches[..i], CommitCall.CommitAsync), batch);
      }
      assert batches[..|batches|] == batches;
      consumer.CommitSyncOffsets(offsets);
      consumer.Close();
    }
  }
}
