/**
 * The Total Energy Control System module (`control/tecs/TECSModule.java`).
 * Throttle follows the total energy error (altitude error plus airspeed
 * error), pitch follows its distribution (altitude error minus airspeed
 * error), and roll follows the heading error wrapped into [-180, 180].  Below
 * 40 knots it commands a fixed stall recovery instead.
 */
module Tecs {
  import opened Wrappers
  import opened Numeric
  import opened Headings
  import opened Core

  const MinStallKts := 40.0
  const AltP := 0.01
  const SpdP := 0.01

  /** Nose down, wings level, full power. */
  const StallRecovery := ControlFrame(-10.0, 0.0, 1.0)

  function TecsThrottle(altErr: real, spdErr: real): (r: real)
    ensures 0.0 <= r <= 1.0
  {
    Clamp(0.0, 1.0, altErr * AltP + spdErr * SpdP)
  }

  function TecsPitch(altErr: real, spdErr: real): (r: real)
    ensures -20.0 <= r <= 20.0
  {
    Clamp(-20.0, 20.0, (altErr * AltP - spdErr * SpdP) * 10.0)
  }

  function TecsRoll(headingErr: real): (r: real)
    ensures -30.0 <= r <= 30.0
  {
    Clamp(-30.0, 30.0, WrapHeadingError(headingErr))
  }

  /** The frame one tick produces for an active goal. */
  function TecsFrame(goal: TecsGoal, telemetry: FlightTelemetry): (f: ControlFrame)
    ensures telemetry.airspeedKts < MinStallKts ==> f == StallRecovery
    ensures -20.0 <= f.pitchTargetDeg <= 20.0
    ensures -30.0 <= f.rollTargetDeg <= 30.0
    ensures 0.0 <= f.throttlePercent <= 1.0
  {
    if telemetry.airspeedKts < MinStallKts then StallRecovery
    else
      var altErr := goal.targetAltitudeFt - telemetry.altitudeFt;
      var spdErr := goal.targetAirspeedKts - telemetry.airspeedKts;
      ControlFrame(TecsPitch(altErr, spdErr), TecsRoll(goal.targetHeadingDeg - telemetry.headingDeg),
                   TecsThrottle(altErr, spdErr))
  }

  /** Below the target altitude at the target airspeed, the module climbs and adds power. */
  lemma {:induction false} BelowTargetClimbs(goal: TecsGoal, telemetry: FlightTelemetry)
    requires telemetry.airspeedKts >= MinStallKts
    requires telemetry.altitudeFt < goal.targetAltitudeFt
    requires telemetry.airspeedKts == goal.targetAirspeedKts
    ensures TecsFrame(goal, telemetry).pitchTargetDeg > 0.0
    ensures TecsFrame(goal, telemetry).throttlePercent > 0.0
  {
  }

  /**
   * Throttle sees only the total energy error: trading altitude error for an
   * equal airspeed error (in the module's units) leaves it unchanged.
   */
  lemma {:induction false} ThrottleFollowsTotalEnergy(a1: real, s1: real, a2: real, s2: real)
    requires a1 + s1 == a2 + s2
    ensures TecsThrottle(a1, s1) == TecsThrottle(a2, s2)
  {
    assert a1 * AltP + s1 * SpdP == (a1 + s1) * 0.01;
    assert a2 * AltP + s2 * SpdP == (a2 + s2) * 0.01;
  }

  /** Pitch rises with the altitude error and falls with the airspeed error. */
  lemma {:induction false} PitchFollowsDistribution(a1: real, s1: real, a2: real, s2: real)
    requires a1 <= a2 && s2 <= s1
    ensures TecsPitch(a1, s1) <= TecsPitch(a2, s2)
  {
    ClampMonotone(-20.0, 20.0, (a1 * AltP - s1 * SpdP) * 10.0, (a2 * AltP - s2 * SpdP) * 10.0);
  }

  /** A heading in (-360, 0) normalises to itself plus one turn. */
  lemma {:induction false} NormalizeNegative(w: real)
    requires -360.0 < w < 0.0
    ensures NormalizeHeading(w) == w + 360.0
  {
    WholeTurnsOfInt(-1);
    assert w - (w + 360.0) == 360.0 * (-1) as real;
    NormalizeHeadingSameBearing(w, w + 360.0);
    NormalizeHeadingFixesRange(w + 360.0);
  }

  /**
   * Roll turns the short way: right when the target bearing lies less than
   * half a turn clockwise, left when it lies at least half a turn clockwise,
   * and not at all when the bearings agree.
   */
  lemma {:induction false} RollTurnsShortWay(headingErr: real)
    ensures 0.0 < NormalizeHeading(headingErr) < 180.0 ==> TecsRoll(headingErr) > 0.0
    ensures 180.0 < NormalizeHeading(headingErr) ==> TecsRoll(headingErr) < 0.0
    ensures TecsRoll(headingErr) > 0.0 ==> NormalizeHeading(headingErr) <= 180.0
    ensures TecsRoll(headingErr) < 0.0 ==> 180.0 <= NormalizeHeading(headingErr)
    ensures TecsRoll(headingErr) == 0.0 <==> NormalizeHeading(headingErr) == 0.0
  {
    var w := WrapHeadingError(headingErr);
    WrapHeadingErrorSpec(headingErr);
    WrapAndNormalizeAgree(headingErr);
    NormalizeHeadingSpec(headingErr);
    if w >= 0.0 {
      NormalizeHeadingFixesRange(w);
    } else {
      NormalizeNegative(w);
    }
  }

  class TecsModule {
    /** The frame last published for the actuator loop. */
    var control: Option<ControlFrame>

    constructor (control: Option<ControlFrame>)
      ensures this.control == control
    {
      this.control := control;
    }

    /** One tick: publishes a frame when a goal and telemetry exist and the system is active. */
    method Step(goal: Option<TecsGoal>, telemetry: Option<FlightTelemetry>)
      modifies this
      ensures goal.None? || telemetry.None? || !goal.value.systemActive ==> control == old(control)
      ensures goal.Some? && telemetry.Some? && goal.value.systemActive ==>
                control == Some(TecsFrame(goal.value, telemetry.value))
    {
      if goal.None? || telemetry.None? || !goal.value.systemActive {
        return;
      }
      var g, t := goal.value, telemetry.value;
      if t.airspeedKts < MinStallKts {
        control := Some(StallRecovery);
        return;
      }
      var altErr := g.targetAltitudeFt - t.altitudeFt;
      var spdErr := g.targetAirspeedKts - t.airspeedKts;
      var throttle := altErr * AltP + spdErr * SpdP;
      throttle := Clamp(0.0, 1.0, throttle);
      var pitch := altErr * AltP - spdErr * SpdP;
      pitch := Clamp(-20.0, 20.0, pitch * 10.0);
      var hdgErr := g.targetHeadingDeg - t.headingDeg;
      ghost var raw := hdgErr;
      while hdgErr > 180.0
        invariant SubtractTurns(hdgErr) == SubtractTurns(raw)
        decreases if hdgErr > 180.0 then (hdgErr - 180.0).Floor + 1 else 0
      {
        hdgErr := hdgErr - 360.0;
      }
      ghost var once := hdgErr;
      while hdgErr < -180.0
        invariant AddTurns(hdgErr) == AddTurns(once)
        decreases if hdgErr < -180.0 then (-180.0 - hdgErr).Floor + 1 else 0
      {
        hdgErr := hdgErr + 360.0;
      }
      var roll := Clamp(-30.0, 30.0, hdgErr);
      control := Some(ControlFrame(pitch, roll, throttle));
    }
  }
}
