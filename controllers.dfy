/**
 * The 50 Hz surface controller group (`control/Controllers.java`): on every
 * tick with a ready actuator it runs the four axis controllers on the target
 * and state held on the blackboard and writes one clamped command.  The time
 * step is the nominal 1/50 s on the first tick and the `System.nanoTime`
 * difference after that; the clock reading is a parameter.  Each controller
 * is handed the target value as its error and the measured value as its
 * feedback, as the source does (the throttle's feedback is the constant 0.5).
 */
module SurfaceControllers {
  import opened Domain
  import opened Commands
  import opened AxisControl

  const NominalHz := 50.0

  /** The time step of a tick at `nowNs`. */
  function TickDt(lastStepNanos: int, nowNs: int): (dt: real)
    ensures lastStepNanos == 0 ==> dt * NominalHz == 1.0
    ensures lastStepNanos != 0 ==> dt * 1_000_000_000.0 == (nowNs - lastStepNanos) as real
    ensures lastStepNanos != 0 && nowNs > lastStepNanos ==> dt > 0.0
  {
    if lastStepNanos == 0 then 1.0 / NominalHz
    else (nowNs - lastStepNanos) as real / 1_000_000_000.0
  }

  class Controllers {
    var lastStepNanos: int
    /** Every command written to the actuator, oldest first. */
    var written: seq<Command>
    const pitch: Controller
    const roll: Controller
    const yaw: Controller
    const throttle: Controller

    predicate Valid()
      reads this
    {
      pitch != roll && pitch != yaw && pitch != throttle
      && roll != yaw && roll != throttle && yaw != throttle
      && pitch.axis == PitchAxis && roll.axis == RollAxis
      && yaw.axis == YawAxis && throttle.axis == ThrottleAxis
      && forall i :: 0 <= i < |written| ==> InRange(written[i])
    }

    constructor (pitchConfig: Configuration, rollConfig: Configuration,
                 yawConfig: Configuration, throttleConfig: Configuration)
      ensures Valid() && lastStepNanos == 0 && written == []
      ensures fresh(pitch) && fresh(roll) && fresh(yaw) && fresh(throttle)
      ensures pitch.configuration == pitchConfig && roll.configuration == rollConfig
      ensures yaw.configuration == yawConfig && throttle.configuration == throttleConfig
      ensures pitch.Snapshot() == roll.Snapshot() == yaw.Snapshot() == throttle.Snapshot() == FreshLaw
    {
      lastStepNanos := 0;
      written := [];
      pitch := new Controller(PitchAxis, pitchConfig);
      roll := new Controller(RollAxis, rollConfig);
      yaw := new Controller(YawAxis, yawConfig);
      throttle := new Controller(ThrottleAxis, throttleConfig);
    }

    /**
     * One tick at clock reading `nowNs`.  A second tick at the same
     * nanosecond would divide by zero in the derivative; the source does not
     * guard it and the model requires the clock to have moved.
     */
    method Step(actuatorReady: bool, state: State, target: Target, nowNs: int)
      requires Valid() && (lastStepNanos == 0 || nowNs != lastStepNanos)
      modifies this, pitch, roll, yaw, throttle
      ensures Valid()
      ensures !actuatorReady ==> unchanged(this, pitch, roll, yaw, throttle)
      ensures pitch.lastSimTime == old(pitch.lastSimTime) && roll.lastSimTime == old(roll.lastSimTime)
      ensures yaw.lastSimTime == old(yaw.lastSimTime) && throttle.lastSimTime == old(throttle.lastSimTime)
      ensures actuatorReady ==>
                var dt := TickDt(old(lastStepNanos), nowNs);
                var p := Law(pitch.configuration, old(pitch.Snapshot()), target.pitch, state.pitch, dt);
                var r := Law(roll.configuration, old(roll.Snapshot()), target.roll, state.roll, dt);
                var y := Law(yaw.configuration, old(yaw.Snapshot()), target.yaw, state.yaw, dt);
                var t := Law(throttle.configuration, old(throttle.Snapshot()), target.throttle, 0.5, dt);
                lastStepNanos == nowNs
                && written == old(written) + [ClampCommand(Command(p.output, r.output, t.output, y.output))]
                && pitch.Snapshot() == p.next && roll.Snapshot() == r.next
                && yaw.Snapshot() == y.next && throttle.Snapshot() == t.next
    {
      if !actuatorReady {
        return;
      }
      var dt := if lastStepNanos == 0 then 1.0 / NominalHz
                else (nowNs - lastStepNanos) as real / 1_000_000_000.0;
      lastStepNanos := nowNs;
      var pitchCmd := pitch.Compute(target.pitch, state.pitch, dt);
      var rollCmd := roll.Compute(target.roll, state.roll, dt);
      var rudderCmd := yaw.Compute(target.yaw, state.yaw, dt);
      var throttleCmd := throttle.Compute(target.throttle, 0.5, dt);
      written := written + [ClampCommand(Command(pitchCmd, rollCmd, throttleCmd, rudderCmd))];
    }

    method Reset()
      requires Valid()
      modifies this, pitch, roll, yaw, throttle
      ensures Valid() && lastStepNanos == 0 && written == old(written)
      ensures pitch.Snapshot() == roll.Snapshot() == yaw.Snapshot() == throttle.Snapshot() == FreshLaw
      ensures pitch.lastSimTime == roll.lastSimTime == yaw.lastSimTime == throttle.lastSimTime == 0.0
    {
      pitch.Reset();
      roll.Reset();
      yaw.Reset();
      throttle.Reset();
      lastStepNanos := 0;
    }
  }
}
