/** The collector's mapping of a scenario-added hub event from protobuf to
    Avro (collector/service/handler/hub/ScenarioAddedEventHandler.java):
    lists element by element, enums by name, condition values by case. */
module ScenarioAddedEventHandler {
  import opened Common
  import Events
  import Grpc
  import ScenarioService

  datatype ConditionTypeProto = MOTION | LUMINOSITY | SWITCH | TEMPERATURE | CO2LEVEL | HUMIDITY | UNRECOGNIZED

  datatype ConditionOperationProto = EQUALS | GREATER_THAN | LOWER_THAN | UNRECOGNIZED

  /** The `value` oneof of a condition. */
  datatype ConditionValueProto = IntValueCase(i: int) | BoolValueCase(b: bool) | ValueNotSet

  datatype ScenarioConditionProto = ScenarioConditionProto(
    sensorId: string, condType: ConditionTypeProto, operation: ConditionOperationProto, value: ConditionValueProto)

  /** The collector receives the same DeviceActionProto the analyzer sends;
      `getValue()` of an unset optional int is 0. */
  datatype ScenarioAddedEventProto = ScenarioAddedEventProto(
    name: string, conditions: seq<ScenarioConditionProto>, actions: seq<Grpc.DeviceActionProto>)

  datatype PayloadCase = DEVICE_ADDED | DEVICE_REMOVED | SCENARIO_ADDED | SCENARIO_REMOVED | PAYLOAD_NOT_SET

  /** `getMessageType()`: the payload case this handler is registered for. */
  const MessageType: PayloadCase := SCENARIO_ADDED

  /** `Enum.valueOf` on an unknown name. */
  datatype MappingError = IllegalEnumName(name: string)

  function ConditionTypeName(t: ConditionTypeProto): string
  {
    match t
    case MOTION => "MOTION"
    case LUMINOSITY => "LUMINOSITY"
    case SWITCH => "SWITCH"
    case TEMPERATURE => "TEMPERATURE"
    case CO2LEVEL => "CO2LEVEL"
    case HUMIDITY => "HUMIDITY"
    case UNRECOGNIZED => "UNRECOGNIZED"
  }

  function OperationName(op: ConditionOperationProto): string
  {
    match op
    case EQUALS => "EQUALS"
    case GREATER_THAN => "GREATER_THAN"
    case LOWER_THAN => "LOWER_THAN"
    case UNRECOGNIZED => "UNRECOGNIZED"
  }

  function AvroConditionTypeName(t: Events.ConditionType): string
  {
    match t
    case MOTION => "MOTION"
    case LUMINOSITY => "LUMINOSITY"
    case SWITCH => "SWITCH"
    case TEMPERATURE => "TEMPERATURE"
    case CO2LEVEL => "CO2LEVEL"
    case HUMIDITY => "HUMIDITY"
  }

  function AvroOperationName(op: Events.ConditionOperation): string
  {
    match op
    case EQUALS => "EQUALS"
    case GREATER_THAN => "GREATER_THAN"
    case LOWER_THAN => "LOWER_THAN"
  }

  /** `ConditionTypeAvro.valueOf(name)`. */
  function ConditionTypeValueOf(name: string): (r: Result<Events.ConditionType, MappingError>)
    ensures r.Ok? ==> AvroConditionTypeName(r.value) == name
    ensures r.Err? ==> r.error == IllegalEnumName(name)
  {
    if name == "MOTION" then Ok(Events.MOTION)
    else if name == "LUMINOSITY" then Ok(Events.LUMINOSITY)
    else if name == "SWITCH" then Ok(Events.SWITCH)
    else if name == "TEMPERATURE" then Ok(Events.TEMPERATURE)
    else if name == "CO2LEVEL" then Ok(Events.CO2LEVEL)
    else if name == "HUMIDITY" then Ok(Events.HUMIDITY)
    else Err(IllegalEnumName(name))
  }

  /** `ConditionOperationAvro.valueOf(name)`. */
  function OperationValueOf(name: string): (r: Result<Events.ConditionOperation, MappingError>)
    ensures r.Ok? ==> AvroOperationName(r.value) == name
    ensures r.Err? ==> r.error == IllegalEnumName(name)
  {
    if name == "EQUALS" then Ok(Events.EQUALS)
    else if name == "GREATER_THAN" then Ok(Events.GREATER_THAN)
    else if name == "LOWER_THAN" then Ok(Events.LOWER_THAN)
    else Err(IllegalEnumName(name))
  }

  /** `ActionTypeAvro.valueOf(name)`. */
  function ActionTypeValueOf(name: string): (r: Result<Events.ActionType, MappingError>)
    ensures r.Ok? ==> Grpc.AvroName(r.value) == name
    ensures r.Err? ==> r.error == IllegalEnumName(name)
  {
    if name == "ACTIVATE" then Ok(Events.ACTIVATE)
    else if name == "DEACTIVATE" then Ok(Events.DEACTIVATE)
    else if name == "INVERSE" then Ok(Events.INVERSE)
    else if name == "SET_VALUE" then Ok(Events.SET_VALUE)
    else Err(IllegalEnumName(name))
  }

  /** `getValue`: INT as that Integer, BOOL as the Integer 1 or 0, unset as
      null. */
  function GetValue(v: ConditionValueProto): (r: Events.RawValue)
    ensures v.IntValueCase? ==> r == Events.IntValue(v.i)
    ensures v.BoolValueCase? ==> r == Events.IntValue(if v.b then 1 else 0)
    ensures v.ValueNotSet? ==> r == Events.NullValue
  {
    match v
    case IntValueCase(i) => Events.IntValue(i)
    case BoolValueCase(b) => Events.IntValue(if b then 1 else 0)
    case ValueNotSet => Events.NullValue
  }

  function MapToConditionAvro(c: ScenarioConditionProto): Result<Events.ScenarioConditionAvro, MappingError>
  {
    var t := ConditionTypeValueOf(ConditionTypeName(c.condType));
    var op := OperationValueOf(OperationName(c.operation));
    if t.Err? then Err(t.error)
    else if op.Err? then Err(op.error)
    else Ok(Events.ScenarioConditionAvro(c.sensorId, t.value, op.value, GetValue(c.value)))
  }

  /** The action value is boxed from `getValue()`, so it is always an Integer. */
  function MapToActionAvro(a: Grpc.DeviceActionProto): Result<Events.DeviceActionAvro, MappingError>
  {
    var t := ActionTypeValueOf(Grpc.ProtoName(a.actionType));
    if t.Err? then Err(t.error)
    else Ok(Events.DeviceActionAvro(a.sensorId, t.value,
                                    Events.IntValue(if a.value.Some? then a.value.value else 0)))
  }

  /** `stream().map(mapToConditionAvro).toList()`: the first failing element
      throws out of the whole mapping. */
  function MapConditions(cs: seq<ScenarioConditionProto>): Result<seq<Events.ScenarioConditionAvro>, MappingError>
  {
    if |cs| == 0 then Ok([])
    else
      var head := MapToConditionAvro(cs[0]);
      var tail := MapConditions(cs[1..]);
      if head.Err? then Err(head.error)
      else if tail.Err? then Err(tail.error)
      else Ok([head.value] + tail.value)
  }

  function MapActions(acts: seq<Grpc.DeviceActionProto>): Result<seq<Events.DeviceActionAvro>, MappingError>
  {
    if |acts| == 0 then Ok([])
    else
      var head := MapToActionAvro(acts[0]);
      var tail := MapActions(acts[1..]);
      if head.Err? then Err(head.error)
      else if tail.Err? then Err(tail.error)
      else Ok([head.value] + tail.value)
  }

  /** `mapToAvro`: conditions are mapped before actions; the name is copied
      unchanged. */
  function MapToAvro(e: ScenarioAddedEventProto): Result<Events.ScenarioAddedEventAvro, MappingError>
  {
    var conditions := MapConditions(e.conditions);
    var actions := MapActions(e.actions);
    if conditions.Err? then Err(conditions.error)
    else if actions.Err? then Err(actions.error)
    else Ok(Events.ScenarioAddedEventAvro(e.name, conditions.value, actions.value))
  }

  /** A condition maps iff neither its type nor its operation is UNRECOGNIZED;
      sensor id, value, and type and operation by name, are preserved. */
  lemma ConditionMapping(c: ScenarioConditionProto)
    ensures MapToConditionAvro(c).Ok? <==> !c.condType.UNRECOGNIZED? && !c.operation.UNRECOGNIZED?
    ensures MapToConditionAvro(c).Ok? ==>
              var m := MapToConditionAvro(c).value;
              && m.sensorId == c.sensorId
              && AvroConditionTypeName(m.condType) == ConditionTypeName(c.condType)
              && AvroOperationName(m.operation) == OperationName(c.operation)
              && m.value == GetValue(c.value)
  {
  }

  /** An action maps iff its type is not UNRECOGNIZED; sensor id and type (by
      name) are preserved, and the value is the int the proto holds. */
  lemma ActionMapping(a: Grpc.DeviceActionProto)
    ensures MapToActionAvro(a).Ok? <==> a.actionType != Grpc.UNRECOGNIZED
    ensures MapToActionAvro(a).Ok? ==>
              var m := MapToActionAvro(a).value;
              && m.sensorId == a.sensorId
              && Grpc.AvroName(m.actionType) == Grpc.ProtoName(a.actionType)
              && m.value == Events.IntValue(if a.value.Some? then a.value.value else 0)
  {
  }

  /** A successful list mapping keeps length and order, element by element. */
  lemma {:induction false} ConditionsKeepOrder(cs: seq<ScenarioConditionProto>)
    ensures MapConditions(cs).Ok? <==> forall i :: 0 <= i < |cs| ==> MapToConditionAvro(cs[i]).Ok?
    ensures MapConditions(cs).Ok? ==>
              && |MapConditions(cs).value| == |cs|
              && forall i :: 0 <= i < |cs| ==> MapConditions(cs).value[i] == MapToConditionAvro(cs[i]).value
  {
    if |cs| > 0 {
      ConditionsKeepOrder(cs[1..]);
      assert forall i :: 1 <= i < |cs| ==> cs[1..][i - 1] == cs[i];
    }
  }

  lemma {:induction false} ActionsKeepOrder(acts: seq<Grpc.DeviceActionProto>)
    ensures MapActions(acts).Ok? <==> forall i :: 0 <= i < |acts| ==> MapToActionAvro(acts[i]).Ok?
    ensures MapActions(acts).Ok? ==>
              && |MapActions(acts).value| == |acts|
              && forall i :: 0 <= i < |acts| ==> MapActions(acts).value[i] == MapToActionAvro(acts[i]).value
  {
    if |acts| > 0 {
      ActionsKeepOrder(acts[1..]);
      assert forall i :: 1 <= i < |acts| ==> acts[1..][i - 1] == acts[i];
    }
  }

  /** The whole event maps iff every element does, and then the name is
      copied and both lists keep their length and order. */
  lemma MapToAvroShape(e: ScenarioAddedEventProto)
    ensures MapToAvro(e).Ok? <==>
              && (forall i :: 0 <= i < |e.conditions| ==> MapToConditionAvro(e.conditions[i]).Ok?)
              && (forall i :: 0 <= i < |e.actions| ==> MapToActionAvro(e.actions[i]).Ok?)
    ensures MapToAvro(e).Ok? ==>
              var m := MapToAvro(e).value;
              && m.name == e.name
              && |m.conditions| == |e.conditions| && |m.actions| == |e.actions|
              && (forall i :: 0 <= i < |e.conditions| ==> m.conditions[i] == MapToConditionAvro(e.conditions[i]).value)
              && (forall i :: 0 <= i < |e.actions| ==> m.actions[i] == MapToActionAvro(e.actions[i]).value)
  {
    ConditionsKeepOrder(e.conditions);
    ActionsKeepOrder(e.actions);
  }

  /** The analyzer reads back what the collector wrote: an int value as
      itself, a bool as 1/0, an unset value as no threshold. */
  lemma ValueRoundTrip(v: ConditionValueProto)
    ensures v.IntValueCase? ==> ScenarioService.ExtractValue(GetValue(v)) == Some(v.i)
    ensures v.BoolValueCase? ==> ScenarioService.ExtractValue(GetValue(v)) == Some(if v.b then 1 else 0)
    ensures v.ValueNotSet? ==> ScenarioService.ExtractValue(GetValue(v)) == None
  {
  }
}
