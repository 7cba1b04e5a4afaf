/**
 * The high-rate surface loop (`control/actuator/ActuatorLoop.java`): two
 * GenericPID controllers turn the TECS frame's pitch and roll targets into
 * elevator and aileron deflections, the throttle is passed through, and the
 * rudder is held at 0.  Each `actuateSurfaces` call is recorded.
 */
module Actuation {
  import opened Wrappers
  import opened Core
  import opened ControlMath

  const PitchGains := Gains(0.04, 0.01, 0.01, -1.0, 1.0)
  const RollGains := Gains(0.02, 0.005, 0.01, -1.0, 1.0)

  /** One `actuateSurfaces(aileron, elevator, rudder, throttle)` call. */
  datatype SurfaceCall = SurfaceCall(aileron: real, elevator: real, rudder: real, throttle: real)

  /** What every call the loop makes satisfies: deflections in [-1, 1], rudder neutral. */
  predicate SafeCall(c: SurfaceCall) {
    -1.0 <= c.aileron <= 1.0 && -1.0 <= c.elevator <= 1.0 && c.rudder == 0.0
  }

  /** The guard of `step`: an active goal, a frame and telemetry must all be present. */
  predicate Engaged(goal: Option<TecsGoal>, frame: Option<ControlFrame>, telemetry: Option<FlightTelemetry>) {
    goal.Some? && goal.value.systemActive && frame.Some? && telemetry.Some?
  }

  class ActuatorLoop {
    /** The fixed time step, 1/hz. */
    const dt: real
    const pitchPid: GenericPid
    const rollPid: GenericPid
    /** Every `actuateSurfaces` call, oldest first. */
    var calls: seq<SurfaceCall>

    predicate Valid()
      reads this
    {
      pitchPid != rollPid && pitchPid.gains == PitchGains && rollPid.gains == RollGains
      && forall i :: 0 <= i < |calls| ==> SafeCall(calls[i])
    }

    constructor (hz: real)
      requires hz != 0.0
      ensures Valid() && dt * hz == 1.0 && calls == []
      ensures fresh(pitchPid) && fresh(rollPid)
      ensures pitchPid.Snapshot() == FreshPid && rollPid.Snapshot() == FreshPid
    {
      dt := 1.0 / hz;
      pitchPid := new GenericPid(PitchGains);
      rollPid := new GenericPid(RollGains);
      calls := [];
    }

    method Step(goal: Option<TecsGoal>, frame: Option<ControlFrame>, telemetry: Option<FlightTelemetry>)
      requires Valid()
      modifies this, pitchPid, rollPid
      ensures Valid()
      ensures !Engaged(goal, frame, telemetry) ==> unchanged(this, pitchPid, rollPid)
      ensures Engaged(goal, frame, telemetry) ==>
                var p := PidLaw(PitchGains, old(pitchPid.Snapshot()),
                                frame.value.pitchTargetDeg, telemetry.value.pitchDeg, dt);
                var r := PidLaw(RollGains, old(rollPid.Snapshot()),
                                frame.value.rollTargetDeg, telemetry.value.rollDeg, dt);
                calls == old(calls) + [SurfaceCall(r.output, p.output, 0.0, frame.value.throttlePercent)]
                && pitchPid.Snapshot() == p.next && rollPid.Snapshot() == r.next
    {
      if goal.None? || !goal.value.systemActive || frame.None? || telemetry.None? {
        return;
      }
      var elevator := pitchPid.Calculate(frame.value.pitchTargetDeg, telemetry.value.pitchDeg, dt);
      var aileron := rollPid.Calculate(frame.value.rollTargetDeg, telemetry.value.rollDeg, dt);
      var throttle := frame.value.throttlePercent;
      calls := calls + [SurfaceCall(aileron, elevator, 0.0, throttle)];
    }
  }
}
