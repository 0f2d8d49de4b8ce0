/** The Avro records that travel over the sensor, hub and snapshot topics,
    reduced to the fields the telemetry core reads. */
module Events {
  import opened Common

  type HubId = string
  type SensorId = string

  /** Timestamps (java.time.Instant) as a count of time units. */
  type Timestamp = int

  /** The tagged payload of a sensor event. */
  datatype Payload =
    | Light(luminosity: int)
    | Climate(temperatureC: int, humidity: int, co2Level: int)
    | Motion(motion: bool)
    | Switch(state: bool)
    | Temperature(temperatureC: int)

  datatype SensorEvent = SensorEvent(id: SensorId, hubId: HubId, timestamp: Timestamp, payload: Payload)

  /** The last known reading of one sensor. */
  datatype SensorState = SensorState(timestamp: Timestamp, data: Payload)

  /** The latest known state of all the sensors of one hub. */
  datatype Snapshot = Snapshot(hubId: HubId, timestamp: Timestamp, sensorsState: map<SensorId, SensorState>)

  datatype ConditionType = MOTION | LUMINOSITY | SWITCH | TEMPERATURE | CO2LEVEL | HUMIDITY

  datatype ConditionOperation = EQUALS | GREATER_THAN | LOWER_THAN

  datatype ActionType = ACTIVATE | DEACTIVATE | INVERSE | SET_VALUE

  datatype DeviceType = MOTION_SENSOR | TEMPERATURE_SENSOR | LIGHT_SENSOR | CLIMATE_SENSOR | SWITCH_SENSOR

  /** The run-time class of an Avro union field typed `Object` in Java:
      absent (null), an Integer, a Boolean, or some other class. */
  datatype RawValue = NullValue | IntValue(i: int) | BoolValue(b: bool) | OtherValue

  datatype ScenarioConditionAvro = ScenarioConditionAvro(
    sensorId: SensorId, condType: ConditionType, operation: ConditionOperation, value: RawValue)

  datatype DeviceActionAvro = DeviceActionAvro(sensorId: SensorId, actionType: ActionType, value: RawValue)

  datatype ScenarioAddedEventAvro = ScenarioAddedEventAvro(
    name: string, conditions: seq<ScenarioConditionAvro>, actions: seq<DeviceActionAvro>)

  /** The payload union of a hub event; `UnknownPayload` stands for any other
      class reaching the `default` branch of a pattern switch. */
  datatype HubPayload =
    | DeviceAdded(id: SensorId, deviceType: DeviceType)
    | DeviceRemoved(id: SensorId)
    | ScenarioAdded(scenario: ScenarioAddedEventAvro)
    | ScenarioRemoved(name: string)
    | UnknownPayload

  datatype HubEvent = HubEvent(hubId: HubId, timestamp: Timestamp, payload: HubPayload)
}
