/** Sensor registration (analyzer/service/SensorService.java): an id is
    registered once, to one hub, and only that hub may remove it. */
module SensorService {
  import opened Common
  import opened Events
  import opened Rules

  /** The sensor table after `createSensor(hubId, sensorId)`: an id already
      registered, under any hub, is left alone. */
  function Created(sensors: map<SensorId, HubId>, hubId: HubId, sensorId: SensorId): (s: map<SensorId, HubId>)
    ensures s.Keys == sensors.Keys + {sensorId}
    ensures forall k :: k in sensors ==> s[k] == sensors[k]
    ensures sensorId !in sensors ==> s[sensorId] == hubId
  {
    if sensorId in sensors then sensors else sensors[sensorId := hubId]
  }

  /** The sensor table after `removeSensor(hubId, sensorId)`: only an entry
      owned by `hubId` goes. */
  function Removed(sensors: map<SensorId, HubId>, hubId: HubId, sensorId: SensorId): (s: map<SensorId, HubId>)
    ensures s.Keys == if sensorId in sensors && sensors[sensorId] == hubId then sensors.Keys - {sensorId}
                      else sensors.Keys
    ensures forall k :: k in s ==> s[k] == sensors[k]
  {
    if sensorId in sensors && sensors[sensorId] == hubId then sensors - {sensorId} else sensors
  }

  /** `findByIdAndHubId`: a sensor is found only when id and hub both match. */
  function FindByIdAndHubId(sensors: map<SensorId, HubId>, id: SensorId, hubId: HubId): (r: Option<Sensor>)
    ensures r.Some? <==> id in sensors && sensors[id] == hubId
    ensures r.Some? ==> r.value == Sensor(id, hubId)
  {
    if id in sensors && sensors[id] == hubId then Some(Sensor(id, hubId)) else None
  }

  method CreateSensor(store: RuleStore, hubId: HubId, sensorId: SensorId)
    modifies store
    ensures store.sensors == Created(old(store.sensors), hubId, sensorId)
    ensures store.scenarios == old(store.scenarios)
  {
    if sensorId in store.sensors {
      return;
    }
    store.sensors := store.sensors[sensorId := hubId];
  }

  method RemoveSensor(store: RuleStore, hubId: HubId, sensorId: SensorId)
    modifies store
    ensures store.sensors == Removed(old(store.sensors), hubId, sensorId)
    ensures store.scenarios == old(store.scenarios)
  {
    if sensorId in store.sensors {
      if store.sensors[sensorId] != hubId {
        return;
      }
      store.sensors := store.sensors - {sensorId};
    }
  }

  /** Registering is idempotent, whichever hub asks the second time. */
  lemma CreateIdempotent(sensors: map<SensorId, HubId>, hubId: HubId, otherHub: HubId, sensorId: SensorId)
    ensures Created(Created(sensors, hubId, sensorId), otherHub, sensorId) == Created(sensors, hubId, sensorId)
  {
  }

  /** A registered sensor keeps its first owner. */
  lemma CreateKeepsOwner(sensors: map<SensorId, HubId>, hubId: HubId, sensorId: SensorId)
    requires sensorId in sensors
    ensures Created(sensors, hubId, sensorId) == sensors
  {
  }

  /** After registering an unknown id it is found for that hub, and removing
      it again restores the table. */
  lemma CreateThenRemove(sensors: map<SensorId, HubId>, hubId: HubId, sensorId: SensorId)
    requires sensorId !in sensors
    ensures FindByIdAndHubId(Created(sensors, hubId, sensorId), sensorId, hubId) == Some(Sensor(sensorId, hubId))
    ensures Removed(Created(sensors, hubId, sensorId), hubId, sensorId) == sensors
  {
    assert sensors[sensorId := hubId] - {sensorId} == sensors;
  }

  /** Removal by a hub that does not own the sensor, or of an unknown id,
      changes nothing; removal is idempotent. */
  lemma RemoveForeignOrAbsentIsNoOp(sensors: map<SensorId, HubId>, hubId: HubId, sensorId: SensorId)
    requires sensorId !in sensors || sensors[sensorId] != hubId
    ensures Removed(sensors, hubId, sensorId) == sensors
  {
  }

  lemma RemoveIdempotent(sensors: map<SensorId, HubId>, hubId: HubId, sensorId: SensorId)
    ensures Removed(Removed(sensors, hubId, sensorId), hubId, sensorId) == Removed(sensors, hubId, sensorId)
  {
  }

  /** After removal, the sensor is no longer found for the hub. */
  lemma RemovedNotFound(sensors: map<SensorId, HubId>, hubId: HubId, sensorId: SensorId)
    ensures FindByIdAndHubId(Removed(sensors, hubId, sensorId), sensorId, hubId).None?
  {
  }
}
