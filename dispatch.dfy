/** The gRPC side of action dispatch: the protobuf messages the analyzer
    sends to the hub router, the by-name enum conversion, and the stub seen
    as a trace of attempted calls. */
module Grpc {
  import opened Common
  import Events
  import Rules

  /** The protobuf enum; generated Java enums add UNRECOGNIZED. */
  datatype ActionTypeProto = ACTIVATE | DEACTIVATE | INVERSE | SET_VALUE | UNRECOGNIZED

  function ProtoName(t: ActionTypeProto): string
  {
    match t
    case ACTIVATE => "ACTIVATE"
    case DEACTIVATE => "DEACTIVATE"
    case INVERSE => "INVERSE"
    case SET_VALUE => "SET_VALUE"
    case UNRECOGNIZED => "UNRECOGNIZED"
  }

  /** `ActionTypeProto.valueOf(name)`: the constant of that name; any other
      name throws IllegalArgumentException. */
  function ValueOf(name: string): (r: Option<ActionTypeProto>)
    ensures r.Some? <==> name in {"ACTIVATE", "DEACTIVATE", "INVERSE", "SET_VALUE", "UNRECOGNIZED"}
    ensures r.Some? ==> ProtoName(r.value) == name
  {
    if name == "ACTIVATE" then Some(ACTIVATE)
    else if name == "DEACTIVATE" then Some(DEACTIVATE)
    else if name == "INVERSE" then Some(INVERSE)
    else if name == "SET_VALUE" then Some(SET_VALUE)
    else if name == "UNRECOGNIZED" then Some(UNRECOGNIZED)
    else None
  }

  /** `ActionTypeAvro.name()`. */
  function AvroName(t: Events.ActionType): string
  {
    match t
    case ACTIVATE => "ACTIVATE"
    case DEACTIVATE => "DEACTIVATE"
    case INVERSE => "INVERSE"
    case SET_VALUE => "SET_VALUE"
  }

  /** `ActionTypeProto.valueOf(type.name())`: every Avro constant has a proto
      constant of the same name, so the conversion never throws. */
  function ConvertActionType(t: Events.ActionType): (p: ActionTypeProto)
    ensures ProtoName(p) == AvroName(t)
    ensures p != UNRECOGNIZED
  {
    ValueOf(AvroName(t)).value
  }

  /** Different action types are sent as different proto constants. */
  lemma ConvertActionTypeInjective(s: Events.ActionType, t: Events.ActionType)
    requires ConvertActionType(s) == ConvertActionType(t)
    ensures s == t
  {
  }

  /** `value` is a proto3 optional field: None when never set. */
  datatype DeviceActionProto = DeviceActionProto(sensorId: Events.SensorId, actionType: ActionTypeProto, value: Option<int>)

  datatype DeviceActionRequest = DeviceActionRequest(
    hubId: Events.HubId, scenarioName: string, action: DeviceActionProto, timestamp: Events.Timestamp)

  /** The builder calls `setValue(action.getValue())` throw
      NullPointerException when a SET_VALUE action has no value: the Integer
      is unboxed. */
  predicate Buildable(a: Rules.Action)
  {
    a.actionType != Events.SET_VALUE || a.value.Some?
  }

  /** The request both clients build for the action entry (sensorId, a) of a
      scenario: the value is set only for SET_VALUE. */
  function Envelope(sc: Rules.Scenario, sensorId: Events.SensorId, a: Rules.Action, timestamp: Events.Timestamp)
    : DeviceActionRequest
  {
    DeviceActionRequest(
      sc.hubId, sc.name,
      DeviceActionProto(sensorId, ConvertActionType(a.actionType),
                        if a.actionType == Events.SET_VALUE then a.value else None),
      timestamp)
  }

  /** What a dispatch loop leaves behind: the clock readings taken so far
      and the requests the stub has been given, in order. */
  datatype Outbox = Outbox(ticks: nat, requests: seq<DeviceActionRequest>)

  /** The blocking stub `HubRouterControllerBlockingStub`: every call is
      recorded; whether the remote call succeeds is not up to the caller. */
  class HubRouterStub {
    var requests: seq<DeviceActionRequest>

    constructor()
      ensures requests == []
    {
      requests := [];
    }

    method HandleDeviceAction(request: DeviceActionRequest) returns (ok: bool)
      modifies this
      ensures requests == old(requests) + [request]
    {
      requests := requests + [request];
      ok :| true;
    }
  }
}

/** Dispatch of one triggered scenario, first generation
    (analyzer/service/HubRouterClient.java): the request is built outside the
    try block, so a SET_VALUE action without a value ends the whole call. */
module HubRouterClient {
  import opened Common
  import opened Events
  import opened Rules
  import Grpc

  /** The number of entries, in iteration order, before the first one whose
      request cannot be built. */
  function BuiltPrefix(entries: seq<(SensorId, Action)>): (k: nat)
    ensures k <= |entries|
    ensures forall i :: 0 <= i < k ==> Grpc.Buildable(entries[i].1)
    ensures k < |entries| ==> !Grpc.Buildable(entries[k].1)
  {
    if |entries| == 0 then 0
    else if !Grpc.Buildable(entries[0].1) then 0
    else 1 + BuiltPrefix(entries[1..])
  }

  /** The requests `handleScenario` attempts, in iteration order. */
  function RouterRequests(sc: Scenario, entries: seq<(SensorId, Action)>, now: Timestamp)
    : seq<Grpc.DeviceActionRequest>
  {
    var k := BuiltPrefix(entries);
    seq(k, i requires 0 <= i < k => Grpc.Envelope(sc, entries[i].0, entries[i].1, now))
  }

  /** `handleScenario`: one clock reading, then one send per action entry;
      a failed send is caught and the loop goes on, while an unbuildable
      request throws out of the call (`threw`). */
  method HandleScenario(stub: Grpc.HubRouterStub, clock: Clock, sc: Scenario, entries: seq<(SensorId, Action)>)
    returns (threw: bool)
    modifies stub, clock
    ensures clock.ticks == old(clock.ticks) + 1
    ensures stub.requests == old(stub.requests) + RouterRequests(sc, entries, clock.reading(old(clock.ticks)))
    ensures threw <==> exists i :: 0 <= i < |entries| && !Grpc.Buildable(entries[i].1)
  {
    var time := clock.Now();
    var i := 0;
    while i < |entries|
      invariant i <= BuiltPrefix(entries)
      invariant clock.ticks == old(clock.ticks) + 1
      invariant stub.requests == old(stub.requests)
                                 + seq(i, j requires 0 <= j < i => Grpc.Envelope(sc, entries[j].0, entries[j].1, time))
    {
      var (sensorId, scenarioAction) := entries[i];
      var actionType := Grpc.ConvertActionType(scenarioAction.actionType);
      var value := None;
      if scenarioAction.actionType == SET_VALUE {
        if scenarioAction.value.None? {
          // NullPointerException while building, outside the try block
          return true;
        }
        value := scenarioAction.value;
      }
      var request := Grpc.DeviceActionRequest(sc.hubId, sc.name, Grpc.DeviceActionProto(sensorId, actionType, value), time);
      var ok := stub.HandleDeviceAction(request);
      // a failed send is logged and the next entry is tried
      i := i + 1;
    }
    return false;
  }

  /** Every attempted request carries the scenario's hub id and name, the
      entry's sensor id and action type (by name), one shared timestamp, and
      a value exactly when the type is SET_VALUE. */
  lemma RouterRequestFields(sc: Scenario, entries: seq<(SensorId, Action)>, now: Timestamp, i: nat)
    requires IsEntrySet(entries, sc.actions)
    requires i < |RouterRequests(sc, entries, now)|
    ensures var r := RouterRequests(sc, entries, now)[i];
            var a := sc.actions[entries[i].0];
            && r.hubId == sc.hubId && r.scenarioName == sc.name
            && r.action.sensorId == entries[i].0
            && Grpc.ProtoName(r.action.actionType) == Grpc.AvroName(a.actionType)
            && (r.action.value.Some? <==> a.actionType == SET_VALUE)
            && (a.actionType == SET_VALUE ==> r.action.value == a.value)
            && r.timestamp == now
  {
  }

  /** When every entry can be built, exactly one request per action entry is
      attempted. */
  lemma OneRequestPerEntry(sc: Scenario, entries: seq<(SensorId, Action)>, now: Timestamp)
    requires IsEntrySet(entries, sc.actions)
    requires forall k :: k in sc.actions ==> Grpc.Buildable(sc.actions[k])
    ensures |RouterRequests(sc, entries, now)| == |entries|
    ensures (set r | r in RouterRequests(sc, entries, now) :: r.action.sensorId) == sc.actions.Keys
  {
    var rs := RouterRequests(sc, entries, now);
    assert forall i :: 0 <= i < |rs| ==> rs[i].action.sensorId == entries[i].0;
    forall k | k in sc.actions
      ensures k in (set r | r in rs :: r.action.sensorId)
    {
      var i :| 0 <= i < |entries| && entries[i].0 == k;
      assert rs[i] in rs;
    }
  }

  /** One SET_VALUE action without a value, first in iteration order, means
      no request at all. */
  lemma NullValueFirstSendsNothing(sc: Scenario, entries: seq<(SensorId, Action)>, now: Timestamp)
    requires |entries| > 0
    requires entries[0].1 == Action(SET_VALUE, None)
    ensures RouterRequests(sc, entries, now) == []
  {
  }
}

/** Dispatch of one triggered scenario, second generation
    (analyzer/service/HubEventClient.java): each entry is built and sent
    inside its own try block, so an unbuildable entry is skipped. */
module HubEventClient {
  import opened Common
  import opened Events
  import opened Rules
  import Grpc
  import HubRouterClient

  /** `requiresValueSetting`. */
  function RequiresValueSetting(actionType: ActionType): (r: bool)
    ensures r <==> actionType == SET_VALUE
  {
    actionType.SET_VALUE?
  }

  /** The requests `sendScenarioCommands` attempts: one per buildable entry,
      in iteration order. */
  function CommandRequests(sc: Scenario, entries: seq<(SensorId, Action)>, now: Timestamp)
    : seq<Grpc.DeviceActionRequest>
  {
    if |entries| == 0 then []
    else
      var (sensorId, a) := entries[|entries| - 1];
      CommandRequests(sc, entries[..|entries| - 1], now)
        + (if Grpc.Buildable(a) then [Grpc.Envelope(sc, sensorId, a, now)] else [])
  }

  /** `executeDeviceCommand`: any failure building or sending is caught. */
  method ExecuteDeviceCommand(stub: Grpc.HubRouterStub, sc: Scenario, sensorId: SensorId, command: Action,
                              timestamp: Timestamp)
    modifies stub
    ensures stub.requests == old(stub.requests)
                             + (if Grpc.Buildable(command) then [Grpc.Envelope(sc, sensorId, command, timestamp)] else [])
  {
    var actionType := Grpc.ConvertActionType(command.actionType);
    var value := None;
    if RequiresValueSetting(command.actionType) {
      if command.value.None? {
        // NullPointerException, caught and logged
        return;
      }
      value := command.value;
    }
    var request := Grpc.DeviceActionRequest(sc.hubId, sc.name, Grpc.DeviceActionProto(sensorId, actionType, value), timestamp);
    var ok := stub.HandleDeviceAction(request);
  }

  /** `sendScenarioCommands`: one clock reading shared by all commands. */
  method SendScenarioCommands(stub: Grpc.HubRouterStub, clock: Clock, sc: Scenario, entries: seq<(SensorId, Action)>)
    modifies stub, clock
    ensures clock.ticks == old(clock.ticks) + 1
    ensures stub.requests == old(stub.requests) + CommandRequests(sc, entries, clock.reading(old(clock.ticks)))
  {
    var currentTime := clock.Now();
    for i := 0 to |entries|
      invariant clock.ticks == old(clock.ticks) + 1
      invariant stub.requests == old(stub.requests) + CommandRequests(sc, entries[..i], currentTime)
    {
      assert entries[..i + 1][..i] == entries[..i];
      ExecuteDeviceCommand(stub, sc, entries[i].0, entries[i].1, currentTime);
    }
    assert entries[..|entries|] == entries;
  }

  /** A request is attempted exactly for the buildable entries, and it is
      that entry's envelope. */
  lemma {:induction false} CommandRequestsMembers(sc: Scenario, entries: seq<(SensorId, Action)>, now: Timestamp)
    ensures forall r :: r in CommandRequests(sc, entries, now) <==>
              exists i :: 0 <= i < |entries| && Grpc.Buildable(entries[i].1)
                          && r == Grpc.Envelope(sc, entries[i].0, entries[i].1, now)
  {
    if |entries| > 0 {
      var front := entries[..|entries| - 1];
      CommandRequestsMembers(sc, front, now);
      assert forall i :: 0 <= i < |front| ==> front[i] == entries[i];
      forall r | r in CommandRequests(sc, entries, now)
        ensures exists i :: 0 <= i < |entries| && Grpc.Buildable(entries[i].1)
                            && r == Grpc.Envelope(sc, entries[i].0, entries[i].1, now)
      {
        if r !in CommandRequests(sc, front, now) {
          assert r == Grpc.Envelope(sc, entries[|entries| - 1].0, entries[|entries| - 1].1, now);
        }
      }
    }
  }

  /** With a proper entry set, every buildable action of the scenario gets
      exactly its envelope sent, and nothing else is sent. */
  lemma EveryBuildableActionSent(sc: Scenario, entries: seq<(SensorId, Action)>, now: Timestamp, k: SensorId)
    requires IsEntrySet(entries, sc.actions)
    ensures k in sc.actions && Grpc.Buildable(sc.actions[k]) ==>
              Grpc.Envelope(sc, k, sc.actions[k], now) in CommandRequests(sc, entries, now)
    ensures forall r :: r in CommandRequests(sc, entries, now) ==>
              r.action.sensorId in sc.actions && r == Grpc.Envelope(sc, r.action.sensorId, sc.actions[r.action.sensorId], now)
  {
    CommandRequestsMembers(sc, entries, now);
    if k in sc.actions && Grpc.Buildable(sc.actions[k]) {
      var i :| 0 <= i < |entries| && entries[i].0 == k;
    }
  }

  /** When every entry is buildable both clients attempt the same requests. */
  lemma {:induction false} AgreesWithRouterWhenBuildable(sc: Scenario, entries: seq<(SensorId, Action)>, now: Timestamp)
    requires forall i :: 0 <= i < |entries| ==> Grpc.Buildable(entries[i].1)
    ensures CommandRequests(sc, entries, now) == HubRouterClient.RouterRequests(sc, entries, now)
  {
    if |entries| > 0 {
      var front := entries[..|entries| - 1];
      AgreesWithRouterWhenBuildable(sc, front, now);
    }
  }

  /** Unlike the first generation, an unbuildable entry does not stop later
      ones: here the second entry is still sent. */
  lemma SkipsOnlyTheUnbuildable()
    ensures var entries := [("dimmer", Action(SET_VALUE, None)), ("lamp", Action(DEACTIVATE, None))];
            var sc := Scenario("hub-1", "night", map[], map["dimmer" := entries[0].1, "lamp" := entries[1].1]);
            && IsEntrySet(entries, sc.actions)
            && HubRouterClient.RouterRequests(sc, entries, 7) == []
            && CommandRequests(sc, entries, 7) ==
               [Grpc.DeviceActionRequest("hub-1", "night", Grpc.DeviceActionProto("lamp", Grpc.DEACTIVATE, None), 7)]
  {
    var entries := [("dimmer", Action(SET_VALUE, None)), ("lamp", Action(DEACTIVATE, None))];
    var sc := Scenario("hub-1", "night", map[], map["dimmer" := entries[0].1, "lamp" := entries[1].1]);
    assert entries[..1] == [entries[0]];
    assert entries[..1][..0] == [];
    assert CommandRequests(sc, entries[..1], 7) == [];
    assert forall k :: k in sc.actions ==> k == entries[0].0 || k == entries[1].0;
  }
}
