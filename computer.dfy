/**
 * The energy-based flight computer (`control/Computer.java`).  It turns the
 * goal and the measured state into specific-energy errors, runs its four axis
 * controllers on them and writes one clamped command per tick, or a fixed
 * stall-recovery command below 40 knots.
 */
module FlightComputer {
  import opened Numeric
  import opened Domain
  import opened Commands
  import opened AxisControl

  const GravityFtPerS2 := 32.174
  const KnotsToFtPerS := 1.68781
  const MinStallKts := 40.0
  const TecsSpdWeight := 1.0

  /** Nose down, wings level, full power, rudder neutral. */
  const StallRecovery := Command(-10.0, 0.0, 1.0, 0.0)

  /** `calculateSpecificEnergy`: altitude plus kinetic energy per unit weight, E = h + V²/2g, in feet. */
  function SpecificEnergy(altitude: real, speed: real): (e: real)
    ensures e >= altitude
    ensures speed == 0.0 <==> e == altitude
  {
    altitude + KineticEnergy(speed)
  }

  /** V²/2g with V in feet per second. */
  function KineticEnergy(speed: real): (k: real)
    ensures k >= 0.0
    ensures speed != 0.0 <==> k > 0.0
  {
    var v := speed * KnotsToFtPerS;
    assert speed != 0.0 ==> v * v / (2.0 * GravityFtPerS2) > 0.0 by {
      if speed != 0.0 {
        SquareOverPositive(v, 2.0 * GravityFtPerS2);
      }
    }
    v * v / (2.0 * GravityFtPerS2)
  }

  lemma {:induction false} SquareOverPositive(v: real, d: real)
    requires v != 0.0 && d > 0.0
    ensures v * v / d > 0.0
  {
    if v > 0.0 {
      assert v / d > 0.0;
      assert v * (v / d) > 0.0;
      assert v * v / d == v * (v / d);
    } else {
      assert (-v) / d > 0.0;
      assert (-v) * ((-v) / d) > 0.0;
      assert v * v / d == (-v) * ((-v) / d);
    }
  }

  /** Kinetic energy grows with airspeed. */
  lemma {:induction false} KineticEnergyMonotone(v1: real, v2: real)
    requires 0.0 <= v1 <= v2
    ensures KineticEnergy(v1) <= KineticEnergy(v2)
    ensures v1 < v2 ==> KineticEnergy(v1) < KineticEnergy(v2)
  {
    var w1, w2 := v1 * KnotsToFtPerS, v2 * KnotsToFtPerS;
    var d := 2.0 * GravityFtPerS2;
    assert 0.0 <= w1 <= w2 && d > 0.0;
    assert w1 * w1 <= w1 * w2 <= w2 * w2;
    if v1 < v2 {
      assert w1 < w2 && w2 > 0.0;
      assert w1 * w2 < w2 * w2;
    }
    QuotientMonotone(w1 * w1, w2 * w2, d);
  }

  lemma {:induction false} QuotientMonotone(a: real, b: real, d: real)
    requires a <= b && d > 0.0
    ensures a / d <= b / d
    ensures a < b ==> a / d < b / d
  {
    assert b / d - a / d == (b - a) / d;
  }

  /** More altitude or more airspeed never means less energy, and strictly more of either means more. */
  lemma {:induction false} SpecificEnergyMonotone(a1: real, v1: real, a2: real, v2: real)
    requires a1 <= a2 && 0.0 <= v1 <= v2
    ensures SpecificEnergy(a1, v1) <= SpecificEnergy(a2, v2)
    ensures a1 < a2 || v1 < v2 ==> SpecificEnergy(a1, v1) < SpecificEnergy(a2, v2)
  {
    KineticEnergyMonotone(v1, v2);
  }

  /** `targetEnergy - currentEnergy`. */
  function EnergyError(goal: Goal, state: State): real {
    SpecificEnergy(goal.altitude, goal.speed) - SpecificEnergy(state.altitude, state.speed)
  }

  /** `altitudeError - TECS_SPDWEIGHT * speedError`. */
  function DistributionError(goal: Goal, state: State): real {
    (goal.altitude - state.altitude) - TecsSpdWeight * (goal.speed - state.speed)
  }

  /**
   * The two errors split the work as total-energy control intends: at the goal speed
   * both equal the altitude error; at the goal altitude but too slow, the
   * total energy is short (more thrust) while the distribution favours
   * speed (nose down).
   */
  lemma {:induction false} EnergyErrorsSplit(goal: Goal, state: State)
    ensures state.speed == goal.speed ==>
              EnergyError(goal, state) == DistributionError(goal, state) == goal.altitude - state.altitude
    ensures state.altitude == goal.altitude && 0.0 <= state.speed < goal.speed ==>
              EnergyError(goal, state) > 0.0 && DistributionError(goal, state) < 0.0
  {
    if state.altitude == goal.altitude && 0.0 <= state.speed < goal.speed {
      KineticEnergyMonotone(state.speed, goal.speed);
    }
  }

  /**
   * `calculateEnergyRate` and `calculateEnergyDistribution`, which compute
   * the same flight-path angle: climb rate over true speed, 0 below 1 ft/s.
   */
  function FlightPathAngle(s: State): (gamma: real)
    ensures s.speed * KnotsToFtPerS < 1.0 ==> gamma == 0.0
    ensures s.speed * KnotsToFtPerS >= 1.0 ==> gamma * (s.speed * KnotsToFtPerS) == s.climb / 60.0
    ensures s.speed * KnotsToFtPerS >= 1.0 ==> (gamma > 0.0 <==> s.climb > 0.0)
  {
    var v := s.speed * KnotsToFtPerS;
    var vs := s.climb / 60.0;
    if v < 1.0 then 0.0
    else
      var gamma := vs / v;
      assert gamma * v == vs;
      gamma
  }

  class Computer {
    var goal: Goal
    var navigator: Navigator
    var state: State
    /** Every command written to the actuator, oldest first. */
    var written: seq<Command>
    const pitch: Controller
    const roll: Controller
    const yaw: Controller
    const throttle: Controller

    /** Four distinct controllers, one per axis, and only safe commands written. */
    predicate Valid()
      reads this
    {
      pitch != roll && pitch != yaw && pitch != throttle
      && roll != yaw && roll != throttle && yaw != throttle
      && pitch.axis == PitchAxis && roll.axis == RollAxis
      && yaw.axis == YawAxis && throttle.axis == ThrottleAxis
      && forall i :: 0 <= i < |written| ==> InRange(written[i])
    }

    constructor (pitchConfig: Configuration, rollConfig: Configuration,
                 yawConfig: Configuration, throttleConfig: Configuration)
      ensures Valid()
      ensures goal == DefaultGoal && navigator == InactiveNavigator && state == NeutralState && written == []
      ensures fresh(pitch) && fresh(roll) && fresh(yaw) && fresh(throttle)
      ensures pitch.configuration == pitchConfig && roll.configuration == rollConfig
      ensures yaw.configuration == yawConfig && throttle.configuration == throttleConfig
      ensures pitch.Snapshot() == roll.Snapshot() == yaw.Snapshot() == throttle.Snapshot() == FreshLaw
    {
      goal := DefaultGoal;
      navigator := InactiveNavigator;
      state := NeutralState;
      written := [];
      pitch := new Controller(PitchAxis, pitchConfig);
      roll := new Controller(RollAxis, rollConfig);
      yaw := new Controller(YawAxis, yawConfig);
      throttle := new Controller(ThrottleAxis, throttleConfig);
    }

    method SetAltitude(altitude: real)
      modifies this
      ensures goal == Goal(altitude, old(goal).speed, old(goal).heading)
      ensures navigator == old(navigator) && state == old(state) && written == old(written)
    {
      goal := Goal(altitude, goal.speed, goal.heading);
    }

    method SetSpeed(speed: real)
      modifies this
      ensures goal == Goal(old(goal).altitude, speed, old(goal).heading)
      ensures navigator == old(navigator) && state == old(state) && written == old(written)
    {
      goal := Goal(goal.altitude, speed, goal.heading);
    }

    method SetHeading(heading: real)
      modifies this
      ensures goal == Goal(old(goal).altitude, old(goal).speed, heading)
      ensures navigator == old(navigator) && state == old(state) && written == old(written)
    {
      goal := Goal(goal.altitude, goal.speed, heading);
    }

    method Activate()
      modifies this
      ensures navigator == ActiveNavigator("AUTONOMOUS")
      ensures goal == old(goal) && state == old(state) && written == old(written)
    {
      navigator := ActiveNavigator("AUTONOMOUS");
    }

    method Deactivate()
      modifies this
      ensures navigator == InactiveNavigator
      ensures goal == old(goal) && state == old(state) && written == old(written)
    {
      navigator := InactiveNavigator;
    }

    /**
     * One tick.  The sensor's availability, its reading and the actuator's
     * readiness are parameters.  Nothing happens unless the navigator is
     * active and both devices are up; otherwise the reading becomes the
     * state and exactly one command is written, which is always in range.
     */
    method Compute(dt: real, sensorAvailable: bool, reading: State, actuatorReady: bool)
      requires Valid() && dt != 0.0
      modifies this, pitch, roll, yaw, throttle
      ensures Valid()
      ensures goal == old(goal) && navigator == old(navigator)
      ensures pitch.lastSimTime == old(pitch.lastSimTime) && roll.lastSimTime == old(roll.lastSimTime)
      ensures yaw.lastSimTime == old(yaw.lastSimTime) && throttle.lastSimTime == old(throttle.lastSimTime)
      ensures !(old(navigator).active && sensorAvailable && actuatorReady) ==>
                unchanged(this, pitch, roll, yaw, throttle)
      ensures old(navigator).active && sensorAvailable && actuatorReady ==> state == reading
      ensures old(navigator).active && sensorAvailable && actuatorReady && reading.speed < MinStallKts ==>
                written == old(written) + [StallRecovery] && unchanged(pitch, roll, yaw, throttle)
      ensures old(navigator).active && sensorAvailable && actuatorReady && reading.speed >= MinStallKts ==>
                var t := Law(throttle.configuration, old(throttle.Snapshot()),
                             EnergyError(goal, reading) / 1000.0, 0.5, dt);
                var p := Law(pitch.configuration, old(pitch.Snapshot()),
                             DistributionError(goal, reading) * 0.01, reading.pitch, dt);
                var r := Law(roll.configuration, old(roll.Snapshot()), goal.heading, reading.heading, dt);
                var y := Law(yaw.configuration, old(yaw.Snapshot()), reading.roll, 0.0, dt);
                written == old(written) + [ClampCommand(Command(p.output, r.output, t.output, y.output))]
                && throttle.Snapshot() == t.next && pitch.Snapshot() == p.next
                && roll.Snapshot() == r.next && yaw.Snapshot() == y.next
    {
      if !navigator.active || !sensorAvailable || !actuatorReady {
        return;
      }
      state := reading;
      if state.speed < MinStallKts {
        written := written + [StallRecovery];
        return;
      }
      var energyError := EnergyError(goal, state);
      var distributionError := DistributionError(goal, state);
      var throttleCmd := throttle.Compute(energyError / 1000.0, 0.5, dt);
      var pitchCmd := pitch.Compute(distributionError * 0.01, state.pitch, dt);
      var rollCmd := roll.Compute(goal.heading, state.heading, dt);
      var rudderCmd := yaw.Compute(state.roll, 0.0, dt);
      written := written + [ClampCommand(Command(pitchCmd, rollCmd, throttleCmd, rudderCmd))];
    }

    method Reset()
      requires Valid()
      modifies pitch, roll, yaw, throttle
      ensures pitch.Snapshot() == roll.Snapshot() == yaw.Snapshot() == throttle.Snapshot() == FreshLaw
      ensures pitch.lastSimTime == roll.lastSimTime == yaw.lastSimTime == throttle.lastSimTime == 0.0
    {
      pitch.Reset();
      roll.Reset();
      yaw.Reset();
      throttle.Reset();
    }
  }
}
