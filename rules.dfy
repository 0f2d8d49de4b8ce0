/** The analyzer's rule store: registered sensors and the scenarios of each
    hub, as the JPA entities Sensor, Scenario, Condition and Action hold them. */
module Rules {
  import opened Common
  import opened Events

  /** A threshold comparison against one sensor's reading; `value` is the
      nullable Integer column. */
  datatype Condition = Condition(condType: ConditionType, operation: ConditionOperation, value: Option<int>)

  /** A command for one device; `value` is the nullable Integer column. */
  datatype Action = Action(actionType: ActionType, value: Option<int>)

  /** A named rule of one hub: sensor id -> condition, sensor id -> action. */
  datatype Scenario = Scenario(
    hubId: HubId, name: string, conditions: map<SensorId, Condition>, actions: map<SensorId, Action>)

  /** Scenarios are unique per (hub id, name). */
  datatype ScenarioKey = ScenarioKey(hubId: HubId, name: string)

  /** A sensor registration record (dal/Sensor.java): the id is the primary key. */
  datatype Sensor = Sensor(id: SensorId, hubId: HubId)

  /** The contents of the sensor and scenario repositories. */
  datatype RuleState = RuleState(sensors: map<SensorId, HubId>, scenarios: map<ScenarioKey, Scenario>)

  function KeyOf(sc: Scenario): ScenarioKey
  {
    ScenarioKey(sc.hubId, sc.name)
  }

  /** Every scenario is filed under its own (hub id, name). */
  ghost predicate WellKeyed(r: RuleState)
  {
    forall k :: k in r.scenarios ==> KeyOf(r.scenarios[k]) == k
  }

  /** `scenarioRepository.save`: the scenario is stored under its key and
      replaces whatever was there; nothing else changes. */
  function PutScenario(r: RuleState, sc: Scenario): (r': RuleState)
    ensures r'.sensors == r.sensors
    ensures r'.scenarios.Keys == r.scenarios.Keys + {KeyOf(sc)}
    ensures r'.scenarios[KeyOf(sc)] == sc
    ensures forall k :: k in r.scenarios && k != KeyOf(sc) ==> r'.scenarios[k] == r.scenarios[k]
    ensures WellKeyed(r) ==> WellKeyed(r')
  {
    r.(scenarios := r.scenarios[KeyOf(sc) := sc])
  }

  /** Deleting the scenario (hub id, name), with its conditions and actions,
      if there is one; nothing else changes. */
  function RemoveScenario(r: RuleState, hubId: HubId, name: string): (r': RuleState)
    ensures r'.sensors == r.sensors
    ensures r'.scenarios.Keys == r.scenarios.Keys - {ScenarioKey(hubId, name)}
    ensures forall k :: k in r'.scenarios ==> r'.scenarios[k] == r.scenarios[k]
    ensures WellKeyed(r) ==> WellKeyed(r')
  {
    r.(scenarios := r.scenarios - {ScenarioKey(hubId, name)})
  }

  /** The map a loop `for (e : entries) m.put(e.key, e.value)` builds from an
      empty HashMap: a later entry for the same key overwrites an earlier one. */
  function MapOf<V>(entries: seq<(SensorId, V)>): map<SensorId, V>
  {
    if |entries| == 0 then map[]
    else MapOf(entries[..|entries| - 1])[entries[|entries| - 1].0 := entries[|entries| - 1].1]
  }

  /** The keys of the built map are exactly the keys of the entries. */
  lemma {:induction false} MapOfKeys<V>(entries: seq<(SensorId, V)>)
    ensures MapOf(entries).Keys == set i | 0 <= i < |entries| :: entries[i].0
  {
    if |entries| > 0 {
      var front := entries[..|entries| - 1];
      MapOfKeys(front);
      var last := entries[|entries| - 1];
      calc {
        set i | 0 <= i < |entries| :: entries[i].0;
        == { assert forall i :: 0 <= i < |front| ==> entries[i] == front[i]; }
        (set i | 0 <= i < |front| :: front[i].0) + {last.0};
      }
    }
  }

  /** The value kept for a key is that of its last entry. */
  lemma {:induction false} MapOfLastWins<V>(entries: seq<(SensorId, V)>, i: nat)
    requires i < |entries|
    requires forall j :: i < j < |entries| ==> entries[j].0 != entries[i].0
    ensures entries[i].0 in MapOf(entries) && MapOf(entries)[entries[i].0] == entries[i].1
  {
    if i < |entries| - 1 {
      var front := entries[..|entries| - 1];
      assert front[i] == entries[i];
      MapOfLastWins(front, i);
    }
  }

  /** Every value of the built map is the value of one of the entries. */
  lemma {:induction false} MapOfValues<V>(entries: seq<(SensorId, V)>, k: SensorId)
    requires k in MapOf(entries)
    ensures exists i :: 0 <= i < |entries| && entries[i] == (k, MapOf(entries)[k])
  {
    var front := entries[..|entries| - 1];
    var last := entries[|entries| - 1];
    if k != last.0 {
      MapOfValues(front, k);
      var i :| 0 <= i < |front| && front[i] == (k, MapOf(front)[k]);
      assert entries[i] == front[i];
    } else {
      assert entries[|entries| - 1] == (k, MapOf(entries)[k]);
    }
  }

  /** One more `put` at the end of the loop. */
  lemma MapOfSnoc<V>(entries: seq<(SensorId, V)>, x: (SensorId, V))
    ensures MapOf(entries + [x]) == MapOf(entries)[x.0 := x.1]
  {
    assert (entries + [x])[..|entries|] == entries;
  }

  /** The iteration order of a scenario's action map (a HashMap). */
  type ActionOrder = map<SensorId, Action> -> seq<(SensorId, Action)>

  /** The repositories, updated in place by the ingestion services. */
  class RuleStore {
    var sensors: map<SensorId, HubId>
    var scenarios: map<ScenarioKey, Scenario>

    function Contents(): RuleState
      reads this
    {
      RuleState(sensors, scenarios)
    }

    constructor()
      ensures Contents() == RuleState(map[], map[])
    {
      sensors := map[];
      scenarios := map[];
    }
  }
}
