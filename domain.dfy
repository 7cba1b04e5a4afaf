/**
 * The immutable records exchanged through the blackboard (package `domain`)
 * and the raw simulator sample (package `simconnect`).  Every Java `double`
 * is a `real`.
 */
module Domain {

  /** What the pilot asked for: altitude (ft), speed (kt), heading (deg). */
  datatype Goal = Goal(altitude: real, speed: real, heading: real)

  /** `Goal.defaultGoal()`. */
  const DefaultGoal := Goal(0.0, 0.0, 0.0)

  /** Aircraft state as the sensor loop and the computer build it. */
  datatype State = State(
    latitude: real, longitude: real, heading: real, altitude: real,
    roll: real, pitch: real, yaw: real, speed: real, climb: real)

  /** `State.neutral()`. */
  const NeutralState := State(0.0, 0.0, 0.0, 0.0, 0.0, 0.0, 0.0, 0.0, 0.0)

  /** Intermediate setpoints for the four axis controllers. */
  datatype Target = Target(pitch: real, roll: real, yaw: real, throttle: real)

  /** The neutral target: level attitude, half throttle. */
  const DefaultTarget := Target(0.0, 0.0, 0.0, 0.5)

  /** Master on/off switch of the autopilot and its mode name. */
  datatype Navigator = Navigator(active: bool, mode: string)

  /** `Navigator.inactive()`. */
  const InactiveNavigator := Navigator(false, "STANDBY")

  /** `Navigator.active(mode)`. */
  function ActiveNavigator(mode: string): Navigator {
    Navigator(true, mode)
  }

  /** Status of the language assistant. */
  datatype Assistant = Assistant(active: bool, status: string)

  /** `Assistant.inactive()`. */
  const InactiveAssistant := Assistant(false, "IDLE")

  /** Gains, output limits, frequency and on/off flag of one controller. */
  datatype Configuration = Configuration(
    active: bool, frequency: real,
    proportional: real, integral: real, derivative: real,
    min: real, max: real)

  /** One measurement at a simulator time. */
  datatype Sample = Sample(time: real, value: real)

  /** What the adapter's `read` returns. */
  datatype Telemetry = Telemetry(
    altitude: real, speed: real, heading: real,
    pitch: real, roll: real, yaw: real, rate: real)

  /** `Telemetry.neutral()`. */
  const NeutralTelemetry := Telemetry(0.0, 0.0, 0.0, 0.0, 0.0, 0.0, 0.0)

  /** A raw simulator sample. */
  datatype TelemetryData = TelemetryData(
    latitude: real, longitude: real, altitude: real, airspeed: real,
    heading: real, bank: real, pitch: real)
}
