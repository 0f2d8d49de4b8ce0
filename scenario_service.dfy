/** Scenario ingestion, first generation (analyzer/service/ScenarioService.java):
    validate the event's sensors as a whole, then create the (hub, name)
    scenario or reuse the stored one with its conditions and actions
    replaced. */
module ScenarioService {
  import opened Common
  import opened Events
  import opened Rules

  /** The IllegalStateException thrown when the sensor check fails. */
  datatype SaveError = NonexistentDevices

  /** `extractValue`: an Integer unchanged, a Boolean as 1/0, null or any
      other class as null. */
  function ExtractValue(value: RawValue): (r: Option<int>)
    ensures r.Some? <==> value.IntValue? || value.BoolValue?
    ensures value.IntValue? ==> r.value == value.i
    ensures value.BoolValue? ==> r.value == (if value.b then 1 else 0)
  {
    if value.NullValue? then None
    else if value.IntValue? then Some(value.i)
    else if value.BoolValue? then Some(if value.b then 1 else 0)
    else None
  }

  /** Every sensor id the event mentions, in a condition or in an action. */
  function ReferencedSensors(e: ScenarioAddedEventAvro): set<SensorId>
  {
    (set i | 0 <= i < |e.conditions| :: e.conditions[i].sensorId)
      + (set i | 0 <= i < |e.actions| :: e.actions[i].sensorId)
  }

  /** The HashSet built by the two loops at the start of `save`. */
  method CollectSensorIds(e: ScenarioAddedEventAvro) returns (sensors: set<SensorId>)
    ensures sensors == ReferencedSensors(e)
  {
    sensors := {};
    for i := 0 to |e.conditions|
      invariant sensors == set j | 0 <= j < i :: e.conditions[j].sensorId
    {
      sensors := sensors + {e.conditions[i].sensorId};
    }
    ghost var fromConditions := sensors;
    for i := 0 to |e.actions|
      invariant sensors == fromConditions + set j | 0 <= j < i :: e.actions[j].sensorId
    {
      sensors := sensors + {e.actions[i].sensorId};
    }
  }

  /** The Condition entity built from one event condition. */
  function ToCondition(c: ScenarioConditionAvro): Condition
  {
    Condition(c.condType, c.operation, ExtractValue(c.value))
  }

  /** The Action entity built from one event action: the value is copied only
      for SET_VALUE. */
  function ToAction(a: DeviceActionAvro): Action
  {
    Action(a.actionType, if a.actionType == SET_VALUE then ExtractValue(a.value) else None)
  }

  /** The `put`s of the condition loop, in event order. */
  function ConditionEntries(e: ScenarioAddedEventAvro): seq<(SensorId, Condition)>
  {
    seq(|e.conditions|, i requires 0 <= i < |e.conditions| => (e.conditions[i].sensorId, ToCondition(e.conditions[i])))
  }

  /** The `put`s of the action loop, in event order. */
  function ActionEntries(e: ScenarioAddedEventAvro): seq<(SensorId, Action)>
  {
    seq(|e.actions|, i requires 0 <= i < |e.actions| => (e.actions[i].sensorId, ToAction(e.actions[i])))
  }

  /** The scenario `save` stores, whether it was new or reused. */
  function NewScenario(e: ScenarioAddedEventAvro, hubId: HubId): Scenario
  {
    Scenario(hubId, e.name, MapOf(ConditionEntries(e)), MapOf(ActionEntries(e)))
  }

  /** What `save` returns, given the sensor check `existsIn`
      (`sensorRepository.existsByIdInAndHubId`). */
  function SaveOutcome(r: RuleState, e: ScenarioAddedEventAvro, hubId: HubId,
                       existsIn: (map<SensorId, HubId>, set<SensorId>, HubId) -> bool): Result<Scenario, SaveError>
  {
    if !existsIn(r.sensors, ReferencedSensors(e), hubId) then Err(NonexistentDevices)
    else Ok(NewScenario(e, hubId))
  }

  /** The rule store after `save`. */
  function AfterSave(r: RuleState, e: ScenarioAddedEventAvro, hubId: HubId,
                     existsIn: (map<SensorId, HubId>, set<SensorId>, HubId) -> bool): RuleState
  {
    if !existsIn(r.sensors, ReferencedSensors(e), hubId) then r
    else PutScenario(r, NewScenario(e, hubId))
  }

  /** The condition loop: puts into the scenario's (empty or just cleared) map. */
  method BuildConditions(e: ScenarioAddedEventAvro) returns (conditions: map<SensorId, Condition>)
    ensures conditions == MapOf(ConditionEntries(e))
  {
    var entries := ConditionEntries(e);
    conditions := map[];
    for i := 0 to |e.conditions|
      invariant conditions == MapOf(entries[..i])
    {
      var c := e.conditions[i];
      conditions := conditions[c.sensorId := ToCondition(c)];
      assert entries[..i + 1][..i] == entries[..i];
    }
    assert entries[..|e.conditions|] == entries;
  }

  /** The action loop. */
  method BuildActions(e: ScenarioAddedEventAvro) returns (actions: map<SensorId, Action>)
    ensures actions == MapOf(ActionEntries(e))
  {
    var entries := ActionEntries(e);
    actions := map[];
    for i := 0 to |e.actions|
      invariant actions == MapOf(entries[..i])
    {
      var a := e.actions[i];
      var value := None;
      if a.actionType == SET_VALUE {
        value := ExtractValue(a.value);
      }
      actions := actions[a.sensorId := Action(a.actionType, value)];
      assert entries[..i + 1][..i] == entries[..i];
    }
    assert entries[..|e.actions|] == entries;
  }

  /** `save`: throws (the store untouched) when the sensor check fails;
      otherwise stores the event's scenario under (hubId, name). */
  method Save(store: RuleStore, e: ScenarioAddedEventAvro, hubId: HubId,
              existsIn: (map<SensorId, HubId>, set<SensorId>, HubId) -> bool)
    returns (result: Result<Scenario, SaveError>)
    requires WellKeyed(store.Contents())
    modifies store
    ensures WellKeyed(store.Contents())
    ensures result == SaveOutcome(old(store.Contents()), e, hubId, existsIn)
    ensures store.Contents() == AfterSave(old(store.Contents()), e, hubId, existsIn)
  {
    var sensors := CollectSensorIds(e);
    var allSensorsExists := existsIn(store.sensors, sensors, hubId);
    if !allSensorsExists {
      return Err(NonexistentDevices);
    }
    var key := ScenarioKey(hubId, e.name);
    var scenario;
    if key !in store.scenarios {
      scenario := Scenario(hubId, e.name, map[], map[]);
    } else {
      scenario := store.scenarios[key];
      // the old conditions and actions are deleted and the maps cleared
      scenario := scenario.(conditions := map[], actions := map[]);
    }
    var conditions := BuildConditions(e);
    var actions := BuildActions(e);
    scenario := scenario.(conditions := conditions, actions := actions);
    store.scenarios := store.scenarios[key := scenario];
    result := Ok(scenario);
  }

  /** `delete`: removes the scenario with its conditions and actions. */
  method Delete(store: RuleStore, name: string, hubId: HubId)
    requires WellKeyed(store.Contents())
    modifies store
    ensures WellKeyed(store.Contents())
    ensures store.Contents() == RemoveScenario(old(store.Contents()), hubId, name)
  {
    var key := ScenarioKey(hubId, name);
    if key in store.scenarios {
      store.scenarios := store.scenarios - {key};
    }
  }

  /** Deleting a scenario that is not there changes nothing. */
  lemma DeleteMissingIsNoOp(r: RuleState, name: string, hubId: HubId)
    requires ScenarioKey(hubId, name) !in r.scenarios
    ensures RemoveScenario(r, hubId, name) == r
  {
    assert r.scenarios - {ScenarioKey(hubId, name)} == r.scenarios;
  }

  /** A failed check throws before any change. */
  lemma SaveRejectsUnchanged(r: RuleState, e: ScenarioAddedEventAvro, hubId: HubId,
                             existsIn: (map<SensorId, HubId>, set<SensorId>, HubId) -> bool)
    requires !existsIn(r.sensors, ReferencedSensors(e), hubId)
    ensures SaveOutcome(r, e, hubId, existsIn).Err?
    ensures AfterSave(r, e, hubId, existsIn) == r
  {
  }

  /** A passed check leaves exactly one scenario for (hub, name), the one
      returned, whose maps depend on the event alone: nothing of a replaced
      scenario survives, and every other scenario and every sensor is kept. */
  lemma SaveReplacesWholesale(r: RuleState, e: ScenarioAddedEventAvro, hubId: HubId,
                              existsIn: (map<SensorId, HubId>, set<SensorId>, HubId) -> bool)
    requires existsIn(r.sensors, ReferencedSensors(e), hubId)
    ensures var r' := AfterSave(r, e, hubId, existsIn);
            var key := ScenarioKey(hubId, e.name);
            && SaveOutcome(r, e, hubId, existsIn) == Ok(r'.scenarios[key])
            && r'.scenarios.Keys == r.scenarios.Keys + {key}
            && r'.scenarios[key].hubId == hubId && r'.scenarios[key].name == e.name
            && r'.scenarios[key].conditions.Keys == (set i | 0 <= i < |e.conditions| :: e.conditions[i].sensorId)
            && r'.scenarios[key].actions.Keys == (set i | 0 <= i < |e.actions| :: e.actions[i].sensorId)
            && r'.sensors == r.sensors
            && (forall k :: k in r.scenarios && k != key ==> r'.scenarios[k] == r.scenarios[k])
  {
    var ce := ConditionEntries(e);
    var ae := ActionEntries(e);
    MapOfKeys(ce);
    MapOfKeys(ae);
    assert forall i :: 0 <= i < |ce| ==> ce[i].0 == e.conditions[i].sensorId;
    assert forall i :: 0 <= i < |ae| ==> ae[i].0 == e.actions[i].sensorId;
  }

  /** For a sensor id listed more than once, the last condition and the last
      action listed for it are the ones kept. */
  lemma NewScenarioLastWins(e: ScenarioAddedEventAvro, hubId: HubId, i: nat, j: nat)
    requires i < |e.conditions| && j < |e.actions|
    requires forall k :: i < k < |e.conditions| ==> e.conditions[k].sensorId != e.conditions[i].sensorId
    requires forall k :: j < k < |e.actions| ==> e.actions[k].sensorId != e.actions[j].sensorId
    ensures var sc := NewScenario(e, hubId);
            && e.conditions[i].sensorId in sc.conditions
            && sc.conditions[e.conditions[i].sensorId] == ToCondition(e.conditions[i])
            && e.actions[j].sensorId in sc.actions
            && sc.actions[e.actions[j].sensorId] == ToAction(e.actions[j])
  {
    MapOfLastWins(ConditionEntries(e), i);
    MapOfLastWins(ActionEntries(e), j);
  }

  /** Stored actions carry a value only for SET_VALUE, and that value is the
      extracted value of one of the event's actions for that sensor. */
  lemma ActionValueOnlyForSetValue(e: ScenarioAddedEventAvro, hubId: HubId, k: SensorId)
    requires k in NewScenario(e, hubId).actions
    ensures var a := NewScenario(e, hubId).actions[k];
            && (a.actionType != SET_VALUE ==> a.value.None?)
            && exists i :: 0 <= i < |e.actions| && e.actions[i].sensorId == k
                             && e.actions[i].actionType == a.actionType
                             && (a.actionType == SET_VALUE ==> a.value == ExtractValue(e.actions[i].value))
  {
    var entries := ActionEntries(e);
    MapOfValues(entries, k);
    var i :| 0 <= i < |entries| && entries[i] == (k, MapOf(entries)[k]);
    assert e.actions[i].sensorId == k;
  }

  /** What the derived query `existsByIdInAndHubId` computes as written: SOME
      id of the set is registered to the hub (so never for an empty set). */
  predicate AnyRegistered(sensors: map<SensorId, HubId>, ids: set<SensorId>, hubId: HubId)
  {
    exists id :: id in ids && id in sensors && sensors[id] == hubId
  }

  /** The check the variable name `allSensorsExists` and the exception
      message evidently intend: EVERY id of the set is registered to the hub.
      This is the corrected check. */
  predicate AllRegistered(sensors: map<SensorId, HubId>, ids: set<SensorId>, hubId: HubId)
  {
    forall id :: id in ids ==> id in sensors && sensors[id] == hubId
  }

  /** Under the query as written, a scenario naming an unregistered sensor is
      stored as soon as one of its sensors belongs to the hub. */
  lemma AnyRegisteredAdmitsUnregistered()
    ensures var r := RuleState(map["lamp" := "hub-1"], map[]);
            var e := ScenarioAddedEventAvro(
              "evening",
              [ScenarioConditionAvro("lamp", LUMINOSITY, LOWER_THAN, IntValue(50))],
              [DeviceActionAvro("ghost", ACTIVATE, NullValue)]);
            && "ghost" !in r.sensors
            && ScenarioKey("hub-1", "evening") in AfterSave(r, e, "hub-1", AnyRegistered).scenarios
            && "ghost" in AfterSave(r, e, "hub-1", AnyRegistered).scenarios[ScenarioKey("hub-1", "evening")].actions
  {
    var r := RuleState(map["lamp" := "hub-1"], map[]);
    var e := ScenarioAddedEventAvro(
      "evening",
      [ScenarioConditionAvro("lamp", LUMINOSITY, LOWER_THAN, IntValue(50))],
      [DeviceActionAvro("ghost", ACTIVATE, NullValue)]);
    assert "lamp" in ReferencedSensors(e) by {
      assert e.conditions[0].sensorId == "lamp";
    }
    assert AnyRegistered(r.sensors, ReferencedSensors(e), "hub-1");
    SaveReplacesWholesale(r, e, "hub-1", AnyRegistered);
    assert e.actions[0].sensorId == "ghost";
  }

  /** With the all-ids check, every sensor of a stored scenario's conditions
      and actions is registered to the scenario's hub. */
  lemma AllRegisteredSaveValidates(r: RuleState, e: ScenarioAddedEventAvro, hubId: HubId)
    requires AllRegistered(r.sensors, ReferencedSensors(e), hubId)
    ensures var sc := AfterSave(r, e, hubId, AllRegistered).scenarios[ScenarioKey(hubId, e.name)];
            && (forall k :: k in sc.conditions ==> k in r.sensors && r.sensors[k] == hubId)
            && (forall k :: k in sc.actions ==> k in r.sensors && r.sensors[k] == hubId)
  {
    SaveReplacesWholesale(r, e, hubId, AllRegistered);
  }

  /** With the all-ids check, an event naming a sensor not registered to the
      hub is rejected and nothing changes. */
  lemma AllRegisteredRejectsUnregistered(r: RuleState, e: ScenarioAddedEventAvro, hubId: HubId, id: SensorId)
    requires id in ReferencedSensors(e)
    requires id !in r.sensors || r.sensors[id] != hubId
    ensures SaveOutcome(r, e, hubId, AllRegistered) == Err(NonexistentDevices)
    ensures AfterSave(r, e, hubId, AllRegistered) == r
  {
  }
}
