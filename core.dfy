/**
 * The records exchanged through atomic references between the command
 * parser, the TECS module and the actuator loop (`control/core`).
 */
module Core {
  import opened Wrappers

  /**
   * The parser's goal.  Each target is `None` where the source holds NaN,
   * which is how `initial()` marks a target nobody has set.
   */
  datatype FlightGoal = FlightGoal(
    targetAltitudeFt: Option<real>,
    targetHeadingDeg: Option<real>,
    targetAirspeedKts: Option<real>)

  /** `FlightGoal.initial()`: no target set. */
  const InitialGoal := FlightGoal(None, None, None)

  /** The goal as the TECS module and the actuator loop read it: numeric targets plus the master switch. */
  datatype TecsGoal = TecsGoal(
    systemActive: bool,
    targetAltitudeFt: real,
    targetHeadingDeg: real,
    targetAirspeedKts: real)

  datatype FlightTelemetry = FlightTelemetry(
    altitudeFt: real,
    airspeedKts: real,
    pitchDeg: real,
    rollDeg: real,
    headingDeg: real,
    verticalSpeedFpm: real,
    timestampNs: int)

  /** The attitude and thrust the TECS module asks of the actuator loop. */
  datatype ControlFrame = ControlFrame(pitchTargetDeg: real, rollTargetDeg: real, throttlePercent: real)
}
