/** Scenario ingestion, second generation (analyzer/service/ScenarioHandler.java):
    delete-then-recreate, keeping only the conditions and actions whose
    sensor is registered to the hub. */
module ScenarioHandler {
  import opened Common
  import opened Events
  import opened Rules
  import SensorService
  import ScenarioService

  /** `extractValue` as a pattern switch. */
  function ExtractValue(value: RawValue): Option<int>
  {
    match value
    case IntValue(i) => Some(i)
    case BoolValue(b) => Some(if b then 1 else 0)
    case _ => None
  }

  /** The switch agrees with the if-chain of the first generation. */
  lemma ExtractValueAgrees(value: RawValue)
    ensures ExtractValue(value) == ScenarioService.ExtractValue(value)
  {
  }

  /** `sensorId` is registered to `hubId`. */
  predicate Owned(sensors: map<SensorId, HubId>, hubId: HubId, sensorId: SensorId)
  {
    SensorService.FindByIdAndHubId(sensors, sensorId, hubId).Some?
  }

  /** The `put`s of `convertToConditions`, in list order: unregistered sensors
      are skipped. */
  function RegisteredConditions(sensors: map<SensorId, HubId>, hubId: HubId, cs: seq<ScenarioConditionAvro>)
    : seq<(SensorId, Condition)>
  {
    if |cs| == 0 then []
    else
      var c := cs[|cs| - 1];
      RegisteredConditions(sensors, hubId, cs[..|cs| - 1])
        + (if Owned(sensors, hubId, c.sensorId)
           then [(c.sensorId, Condition(c.condType, c.operation, ExtractValue(c.value)))] else [])
  }

  /** The `put`s of `convertToActions`: the value is extracted whatever the
      action type. */
  function RegisteredActions(sensors: map<SensorId, HubId>, hubId: HubId, acts: seq<DeviceActionAvro>)
    : seq<(SensorId, Action)>
  {
    if |acts| == 0 then []
    else
      var a := acts[|acts| - 1];
      RegisteredActions(sensors, hubId, acts[..|acts| - 1])
        + (if Owned(sensors, hubId, a.sensorId)
           then [(a.sensorId, Action(a.actionType, ExtractValue(a.value)))] else [])
  }

  method ConvertToConditions(sensors: map<SensorId, HubId>, hubId: HubId, cs: seq<ScenarioConditionAvro>)
    returns (conditions: map<SensorId, Condition>)
    ensures conditions == MapOf(RegisteredConditions(sensors, hubId, cs))
  {
    conditions := map[];
    for i := 0 to |cs|
      invariant conditions == MapOf(RegisteredConditions(sensors, hubId, cs[..i]))
    {
      var c := cs[i];
      assert cs[..i + 1][..i] == cs[..i];
      var kept := RegisteredConditions(sensors, hubId, cs[..i]);
      var sensor := SensorService.FindByIdAndHubId(sensors, c.sensorId, hubId);
      if sensor.None? {
        assert kept + [] == kept;
        continue;
      }
      var value := ExtractValue(c.value);
      MapOfSnoc(kept, (c.sensorId, Condition(c.condType, c.operation, value)));
      conditions := conditions[c.sensorId := Condition(c.condType, c.operation, value)];
    }
    assert cs[..|cs|] == cs;
  }

  method ConvertToActions(sensors: map<SensorId, HubId>, hubId: HubId, acts: seq<DeviceActionAvro>)
    returns (actions: map<SensorId, Action>)
    ensures actions == MapOf(RegisteredActions(sensors, hubId, acts))
  {
    actions := map[];
    for i := 0 to |acts|
      invariant actions == MapOf(RegisteredActions(sensors, hubId, acts[..i]))
    {
      var a := acts[i];
      assert acts[..i + 1][..i] == acts[..i];
      var kept := RegisteredActions(sensors, hubId, acts[..i]);
      var sensor := SensorService.FindByIdAndHubId(sensors, a.sensorId, hubId);
      if sensor.None? {
        assert kept + [] == kept;
        continue;
      }
      var value := ExtractValue(a.value);
      MapOfSnoc(kept, (a.sensorId, Action(a.actionType, value)));
      actions := actions[a.sensorId := Action(a.actionType, value)];
    }
    assert acts[..|acts|] == acts;
  }

  /** The scenario `handleScenarioAdded` saves. */
  function HandlerScenario(sensors: map<SensorId, HubId>, hubId: HubId, e: ScenarioAddedEventAvro): Scenario
  {
    Scenario(hubId, e.name,
             MapOf(RegisteredConditions(sensors, hubId, e.conditions)),
             MapOf(RegisteredActions(sensors, hubId, e.actions)))
  }

  /** The rule store after `handleScenarioAdded`: the old scenario deleted,
      then the new one saved. */
  function AfterScenarioAdded(r: RuleState, hubId: HubId, e: ScenarioAddedEventAvro): RuleState
  {
    PutScenario(RemoveScenario(r, hubId, e.name), HandlerScenario(r.sensors, hubId, e))
  }

  method HandleScenarioAdded(store: RuleStore, hubId: HubId, e: ScenarioAddedEventAvro)
    requires WellKeyed(store.Contents())
    modifies store
    ensures WellKeyed(store.Contents())
    ensures store.Contents() == AfterScenarioAdded(old(store.Contents()), hubId, e)
  {
    var key := ScenarioKey(hubId, e.name);
    if key in store.scenarios {
      store.scenarios := store.scenarios - {key};
    }
    var conditions := ConvertToConditions(store.sensors, hubId, e.conditions);
    var actions := ConvertToActions(store.sensors, hubId, e.actions);
    store.scenarios := store.scenarios[key := Scenario(hubId, e.name, conditions, actions)];
  }

  method HandleScenarioRemoved(store: RuleStore, hubId: HubId, name: string)
    requires WellKeyed(store.Contents())
    modifies store
    ensures WellKeyed(store.Contents())
    ensures store.Contents() == RemoveScenario(old(store.Contents()), hubId, name)
  {
    var key := ScenarioKey(hubId, name);
    if key in store.scenarios {
      store.scenarios := store.scenarios - {key};
    }
  }

  method HandleDeviceAdded(store: RuleStore, hubId: HubId, sensorId: SensorId)
    modifies store
    ensures store.sensors == SensorService.Created(old(store.sensors), hubId, sensorId)
    ensures store.scenarios == old(store.scenarios)
  {
    if sensorId in store.sensors {
      return;
    }
    store.sensors := store.sensors[sensorId := hubId];
  }

  method HandleDeviceRemoved(store: RuleStore, hubId: HubId, sensorId: SensorId)
    modifies store
    ensures store.sensors == SensorService.Removed(old(store.sensors), hubId, sensorId)
    ensures store.scenarios == old(store.scenarios)
  {
    if sensorId in store.sensors {
      if store.sensors[sensorId] != hubId {
        return;
      }
      store.sensors := store.sensors - {sensorId};
    }
  }

  /** Delete-then-save leaves exactly one scenario for (hub, name), the new
      one, as a plain overwrite would; everything else is kept. */
  lemma ScenarioAddedOverwrites(r: RuleState, hubId: HubId, e: ScenarioAddedEventAvro)
    ensures AfterScenarioAdded(r, hubId, e) == PutScenario(r, HandlerScenario(r.sensors, hubId, e))
    ensures var r' := AfterScenarioAdded(r, hubId, e);
            && r'.scenarios.Keys == r.scenarios.Keys + {ScenarioKey(hubId, e.name)}
            && r'.scenarios[ScenarioKey(hubId, e.name)] == HandlerScenario(r.sensors, hubId, e)
            && r'.sensors == r.sensors
            && forall k :: k in r.scenarios && k != ScenarioKey(hubId, e.name) ==> r'.scenarios[k] == r.scenarios[k]
  {
    var key := ScenarioKey(hubId, e.name);
    var sc := HandlerScenario(r.sensors, hubId, e);
    assert (r.scenarios - {key})[key := sc] == r.scenarios[key := sc];
  }

  /** The stored condition keys are exactly the listed sensors registered to
      the hub: unregistered ones are skipped, the others all kept. */
  lemma {:induction false} ConditionKeys(sensors: map<SensorId, HubId>, hubId: HubId, cs: seq<ScenarioConditionAvro>)
    ensures MapOf(RegisteredConditions(sensors, hubId, cs)).Keys ==
            set i | 0 <= i < |cs| && Owned(sensors, hubId, cs[i].sensorId) :: cs[i].sensorId
  {
    if |cs| > 0 {
      var front := cs[..|cs| - 1];
      var c := cs[|cs| - 1];
      ConditionKeys(sensors, hubId, front);
      var kept := RegisteredConditions(sensors, hubId, front);
      if Owned(sensors, hubId, c.sensorId) {
        MapOfSnoc(kept, (c.sensorId, Condition(c.condType, c.operation, ExtractValue(c.value))));
      } else {
        assert kept + [] == kept;
      }
      assert forall i :: 0 <= i < |front| ==> cs[i] == front[i];
    }
  }

  lemma {:induction false} ActionKeys(sensors: map<SensorId, HubId>, hubId: HubId, acts: seq<DeviceActionAvro>)
    ensures MapOf(RegisteredActions(sensors, hubId, acts)).Keys ==
            set i | 0 <= i < |acts| && Owned(sensors, hubId, acts[i].sensorId) :: acts[i].sensorId
  {
    if |acts| > 0 {
      var front := acts[..|acts| - 1];
      var a := acts[|acts| - 1];
      ActionKeys(sensors, hubId, front);
      var kept := RegisteredActions(sensors, hubId, front);
      if Owned(sensors, hubId, a.sensorId) {
        MapOfSnoc(kept, (a.sensorId, Action(a.actionType, ExtractValue(a.value))));
      } else {
        assert kept + [] == kept;
      }
      assert forall i :: 0 <= i < |front| ==> acts[i] == front[i];
    }
  }

  /** Every kept action is built from one listed action for its sensor, with
      the value extracted even when the type is not SET_VALUE. */
  lemma {:induction false} ActionValueAlwaysExtracted(sensors: map<SensorId, HubId>, hubId: HubId,
                                                      acts: seq<DeviceActionAvro>, k: SensorId)
    requires k in MapOf(RegisteredActions(sensors, hubId, acts))
    ensures exists i :: 0 <= i < |acts| && acts[i].sensorId == k
                        && MapOf(RegisteredActions(sensors, hubId, acts))[k] ==
                           Action(acts[i].actionType, ExtractValue(acts[i].value))
  {
    var front := acts[..|acts| - 1];
    var a := acts[|acts| - 1];
    var kept := RegisteredActions(sensors, hubId, front);
    if Owned(sensors, hubId, a.sensorId) {
      MapOfSnoc(kept, (a.sensorId, Action(a.actionType, ExtractValue(a.value))));
    } else {
      assert kept + [] == kept;
    }
    if Owned(sensors, hubId, a.sensorId) && a.sensorId == k {
      assert acts[|acts| - 1].sensorId == k;
    } else {
      ActionValueAlwaysExtracted(sensors, hubId, front, k);
      var i :| 0 <= i < |front| && front[i].sensorId == k
               && MapOf(kept)[k] == Action(front[i].actionType, ExtractValue(front[i].value));
      assert acts[i] == front[i];
    }
  }

  /** Unlike the first generation, one registered sensor is enough for a
      scenario to be stored, and an unregistered one simply disappears from
      it. */
  lemma SkipsUnregistered()
    ensures var r := RuleState(map["lamp" := "hub-1"], map[]);
            var e := ScenarioAddedEventAvro(
              "evening",
              [ScenarioConditionAvro("lamp", LUMINOSITY, LOWER_THAN, IntValue(50))],
              [DeviceActionAvro("ghost", ACTIVATE, NullValue), DeviceActionAvro("lamp", SET_VALUE, IntValue(80))]);
            var sc := AfterScenarioAdded(r, "hub-1", e).scenarios[ScenarioKey("hub-1", "evening")];
            sc.conditions.Keys == {"lamp"} && sc.actions == map["lamp" := Action(SET_VALUE, Some(80))]
  {
    var r := RuleState(map["lamp" := "hub-1"], map[]);
    var e := ScenarioAddedEventAvro(
      "evening",
      [ScenarioConditionAvro("lamp", LUMINOSITY, LOWER_THAN, IntValue(50))],
      [DeviceActionAvro("ghost", ACTIVATE, NullValue), DeviceActionAvro("lamp", SET_VALUE, IntValue(80))]);
    ScenarioAddedOverwrites(r, "hub-1", e);
    var cs := RegisteredConditions(r.sensors, "hub-1", e.conditions);
    var acts := RegisteredActions(r.sensors, "hub-1", e.actions);
    RegisteredExample(r.sensors, e.conditions, e.actions);
    assert MapOf(cs) == MapOf(cs[..0])["lamp" := Condition(LUMINOSITY, LOWER_THAN, Some(50))];
    assert MapOf(acts) == MapOf(acts[..0])["lamp" := Action(SET_VALUE, Some(80))];
  }

  /** The registered entries of the example above. */
  lemma RegisteredExample(sensors: map<SensorId, HubId>, cs: seq<ScenarioConditionAvro>, acts: seq<DeviceActionAvro>)
    requires sensors == map["lamp" := "hub-1"]
    requires cs == [ScenarioConditionAvro("lamp", LUMINOSITY, LOWER_THAN, IntValue(50))]
    requires acts == [DeviceActionAvro("ghost", ACTIVATE, NullValue), DeviceActionAvro("lamp", SET_VALUE, IntValue(80))]
    ensures RegisteredConditions(sensors, "hub-1", cs) == [("lamp", Condition(LUMINOSITY, LOWER_THAN, Some(50)))]
    ensures RegisteredActions(sensors, "hub-1", acts) == [("lamp", Action(SET_VALUE, Some(80)))]
  {
    assert cs[..0] == [];
    assert acts[..1][..0] == [];
    assert acts[..1] == [DeviceActionAvro("ghost", ACTIVATE, NullValue)];
    assert RegisteredActions(sensors, "hub-1", acts[..1]) == [];
  }
}
