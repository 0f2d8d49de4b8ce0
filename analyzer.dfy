/** The scenario evaluation engine (analyzer/service/SnapshotAnalyzer.java):
    a scenario triggers for a snapshot when every one of its conditions holds
    of the reading its sensor has in the snapshot. */
module SnapshotAnalyzer {
  import opened Common
  import opened Events
  import opened Rules

  /** The single reading a payload offers for a measurement type, if any. */
  function SensorValue(data: Payload, t: ConditionType): (r: Option<int>)
    ensures t == TEMPERATURE ==> (r.Some? <==> data.Climate? || data.Temperature?)
    ensures t == HUMIDITY || t == CO2LEVEL ==> (r.Some? <==> data.Climate?)
    ensures t == LUMINOSITY ==> (r.Some? <==> data.Light?)
    ensures t == MOTION ==> (r.Some? <==> data.Motion?)
    ensures t == SWITCH ==> (r.Some? <==> data.Switch?)
    ensures r.Some? && t == TEMPERATURE ==> r.value == data.temperatureC
    ensures r.Some? && t == HUMIDITY ==> r.value == data.humidity
    ensures r.Some? && t == CO2LEVEL ==> r.value == data.co2Level
    ensures r.Some? && t == LUMINOSITY ==> r.value == data.luminosity
    ensures r.Some? && t == MOTION ==> r.value == (if data.motion then 1 else 0)
    ensures r.Some? && t == SWITCH ==> r.value == (if data.state then 1 else 0)
  {
    match t
    case TEMPERATURE =>
      if data.Climate? then Some(data.temperatureC)
      else if data.Temperature? then Some(data.temperatureC)
      else None
    case HUMIDITY => if data.Climate? then Some(data.humidity) else None
    case CO2LEVEL => if data.Climate? then Some(data.co2Level) else None
    case LUMINOSITY => if data.Light? then Some(data.luminosity) else None
    case MOTION => if data.Motion? then Some(if data.motion then 1 else 0) else None
    case SWITCH => if data.Switch? then Some(if data.state then 1 else 0) else None
  }

  /** `checkConditionValue`: a missing threshold never holds; otherwise the
      operator compares the reading with the threshold. */
  function CompareValue(sensorValue: int, operation: ConditionOperation, threshold: Option<int>): bool
  {
    match threshold
    case None => false
    case Some(t) =>
      match operation
      case EQUALS => sensorValue == t
      case GREATER_THAN => sensorValue > t
      case LOWER_THAN => sensorValue < t
  }

  /** Exactly one of the three operators holds of a reading and a present
      threshold: EQUALS is equality, GREATER_THAN and LOWER_THAN are strict. */
  lemma OperatorsPartition(v: int, t: int)
    ensures CompareValue(v, EQUALS, Some(t)) <==> v == t
    ensures CompareValue(v, GREATER_THAN, Some(t)) <==> v > t
    ensures CompareValue(v, LOWER_THAN, Some(t)) <==> v < t
    ensures var holding := set op | op in {EQUALS, GREATER_THAN, LOWER_THAN} && CompareValue(v, op, Some(t));
            |holding| == 1
  {
    if v == t {
      assert (set op | op in {EQUALS, GREATER_THAN, LOWER_THAN} && CompareValue(v, op, Some(t))) == {EQUALS};
    } else if v > t {
      assert (set op | op in {EQUALS, GREATER_THAN, LOWER_THAN} && CompareValue(v, op, Some(t))) == {GREATER_THAN};
    } else {
      assert (set op | op in {EQUALS, GREATER_THAN, LOWER_THAN} && CompareValue(v, op, Some(t))) == {LOWER_THAN};
    }
  }

  /** `getSensorByIdFromSnapshot`. */
  function SensorStateOf(snapshot: Snapshot, sensorId: SensorId): (r: Option<SensorState>)
    ensures r.Some? <==> sensorId in snapshot.sensorsState
    ensures r.Some? ==> r.value == snapshot.sensorsState[sensorId]
  {
    if sensorId in snapshot.sensorsState then Some(snapshot.sensorsState[sensorId]) else None
  }

  /** `checkCondition`: the sensor's state must be in the snapshot, its
      payload must offer the condition's measurement, and the comparison must
      hold. The ensures only flattens the two lookups; what a measurement is
      comes from `SensorValue`, and what a comparison means from
      `OperatorsPartition`. */
  function ConditionHolds(sensorId: SensorId, c: Condition, snapshot: Snapshot): (ok: bool)
    ensures ok <==> && sensorId in snapshot.sensorsState
                    && SensorValue(snapshot.sensorsState[sensorId].data, c.condType).Some?
                    && CompareValue(SensorValue(snapshot.sensorsState[sensorId].data, c.condType).value,
                                    c.operation, c.value)
  {
    match SensorStateOf(snapshot, sensorId)
    case None => false
    case Some(state) =>
      match SensorValue(state.data, c.condType)
      case None => false
      case Some(v) => CompareValue(v, c.operation, c.value)
  }

  /** The specification of `checkScenarioConditions`: the AND of all entries. */
  predicate AllConditionsHold(conditions: map<SensorId, Condition>, snapshot: Snapshot)
  {
    forall k :: k in conditions ==> ConditionHolds(k, conditions[k], snapshot)
  }

  /** `checkScenarioConditions`: an empty map holds at once; otherwise the
      entries are visited in the map's (unspecified) order and the first
      failing one ends the check. */
  method CheckScenarioConditions(scenario: Scenario, snapshot: Snapshot) returns (ok: bool)
    ensures ok <==> AllConditionsHold(scenario.conditions, snapshot)
  {
    var conditions := scenario.conditions;
    if |conditions| == 0 {
      return true;
    }
    var remaining := conditions.Keys;
    while remaining != {}
      invariant remaining <= conditions.Keys
      invariant forall k :: k in conditions && k !in remaining ==> ConditionHolds(k, conditions[k], snapshot)
      decreases remaining
    {
      var sensorId :| sensorId in remaining;
      if !ConditionHolds(sensorId, conditions[sensorId], snapshot) {
        return false;
      }
      remaining := remaining - {sensorId};
    }
    return true;
  }

  /** The scenarios of `scenarios` that trigger, in their order. */
  function Triggered(scenarios: seq<Scenario>, snapshot: Snapshot): seq<Scenario>
  {
    if |scenarios| == 0 then []
    else
      var last := scenarios[|scenarios| - 1];
      Triggered(scenarios[..|scenarios| - 1], snapshot)
        + (if AllConditionsHold(last.conditions, snapshot) then [last] else [])
  }

  /** `analyze`: `hubScenarios` is what `scenarioRepository.findByHubId(hubId)`
      returns; the triggered ones are collected in that order. */
  method Analyze(hubId: HubId, hubScenarios: seq<Scenario>, snapshot: Snapshot) returns (triggered: seq<Scenario>)
    ensures triggered == Triggered(hubScenarios, snapshot)
  {
    triggered := [];
    for i := 0 to |hubScenarios|
      invariant triggered == Triggered(hubScenarios[..i], snapshot)
    {
      var ok := CheckScenarioConditions(hubScenarios[i], snapshot);
      if ok {
        triggered := triggered + [hubScenarios[i]];
      }
      assert hubScenarios[..i + 1][..i] == hubScenarios[..i];
    }
    assert hubScenarios[..|hubScenarios|] == hubScenarios;
  }

  /** `scenarioRepository.findByHubId`, as the processors see it. */
  type ScenarioLookup = HubId -> seq<Scenario>

  /** The scenarios `analyze(snapshot.hubId, snapshot)` returns. */
  function TriggeredFor(findByHubId: ScenarioLookup, snapshot: Snapshot): seq<Scenario>
  {
    Triggered(findByHubId(snapshot.hubId), snapshot)
  }

  /** A scenario is in the result iff it is one of the hub's scenarios and
      all its conditions hold. */
  lemma {:induction false} TriggeredMembers(scenarios: seq<Scenario>, snapshot: Snapshot)
    ensures forall s :: s in Triggered(scenarios, snapshot) <==>
                        s in scenarios && AllConditionsHold(s.conditions, snapshot)
  {
    if |scenarios| > 0 {
      var front := scenarios[..|scenarios| - 1];
      TriggeredMembers(front, snapshot);
      assert scenarios == front + [scenarios[|scenarios| - 1]];
    }
  }

  /** The result preserves order: filtering a concatenation concatenates the
      filtered parts. */
  lemma {:induction false} TriggeredConcat(a: seq<Scenario>, b: seq<Scenario>, snapshot: Snapshot)
    ensures Triggered(a + b, snapshot) == Triggered(a, snapshot) + Triggered(b, snapshot)
  {
    if |b| > 0 {
      var front := b[..|b| - 1];
      assert (a + b)[..|a + b| - 1] == a + front;
      TriggeredConcat(a, front, snapshot);
    } else {
      assert a + b == a;
    }
  }

  /** A scenario without conditions triggers for every snapshot. */
  lemma EmptyConditionsAlwaysTrigger(scenario: Scenario, snapshot: Snapshot)
    requires scenario.conditions == map[]
    ensures AllConditionsHold(scenario.conditions, snapshot)
    ensures Triggered([scenario], snapshot) == [scenario]
  {
    assert [scenario][..0] == [];
  }

  /** One failing entry is enough to keep a scenario from triggering. */
  lemma FailingConditionUntriggers(scenario: Scenario, sensorId: SensorId, snapshot: Snapshot)
    requires sensorId in scenario.conditions
    requires !ConditionHolds(sensorId, scenario.conditions[sensorId], snapshot)
    ensures !AllConditionsHold(scenario.conditions, snapshot)
    ensures Triggered([scenario], snapshot) == []
  {
    assert [scenario][..0] == [];
  }

  /** A condition on a sensor absent from the snapshot, on a payload that
      does not offer the measurement, or with no threshold, is false. */
  lemma MissingDataFails(sensorId: SensorId, c: Condition, snapshot: Snapshot)
    requires || sensorId !in snapshot.sensorsState
             || SensorValue(snapshot.sensorsState[sensorId].data, c.condType).None?
             || c.value.None?
    ensures !ConditionHolds(sensorId, c, snapshot)
  {
  }
}
