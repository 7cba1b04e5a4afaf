/**
 * The actuator loop's PID (`control/math/GenericPID.java`): derivative on the
 * error, the integral accumulated without anti-windup, and a clamp that tests
 * the upper limit first.  A non-positive time step yields 0 and leaves the
 * state alone.
 */
module ControlMath {

  datatype Gains = Gains(kp: real, ki: real, kd: real, minOutput: real, maxOutput: real)

  /** The fields `calculate` updates. */
  datatype PidMemory = PidMemory(integral: real, prevError: real, firstRun: bool)

  const FreshPid := PidMemory(0.0, 0.0, true)

  datatype PidStep = PidStep(output: real, next: PidMemory)

  /** The limit test of `calculate`: above the maximum gives the maximum, else below the minimum gives the minimum. */
  function Saturate(g: Gains, x: real): (r: real)
    ensures g.minOutput <= g.maxOutput ==> g.minOutput <= r <= g.maxOutput
    ensures g.minOutput <= x <= g.maxOutput ==> r == x
    ensures x > g.maxOutput ==> r == g.maxOutput
    ensures x < g.minOutput && x <= g.maxOutput ==> r == g.minOutput
  {
    if x > g.maxOutput then g.maxOutput else if x < g.minOutput then g.minOutput else x
  }

  lemma {:induction false} SaturateMonotone(g: Gains, x: real, y: real)
    requires g.minOutput <= g.maxOutput && x <= y
    ensures Saturate(g, x) <= Saturate(g, y)
  {
  }

  /** The PID sum once the integral has absorbed `error * dt`. */
  function Unclamped(g: Gains, m: PidMemory, error: real, dt: real): real
    requires dt > 0.0
  {
    g.kp * error + g.ki * (m.integral + error * dt)
    + (if m.firstRun then 0.0 else g.kd * (error - m.prevError) / dt)
  }

  /** `calculate(setpoint, measurement, dt)`. */
  function PidLaw(g: Gains, m: PidMemory, setpoint: real, measurement: real, dt: real): (r: PidStep)
    ensures dt <= 0.0 ==> r.output == 0.0 && r.next == m
    ensures dt > 0.0 ==> r.next == PidMemory(m.integral + (setpoint - measurement) * dt,
                                             setpoint - measurement, false)
    ensures dt > 0.0 ==> r.output == Saturate(g, Unclamped(g, m, setpoint - measurement, dt))
    ensures dt > 0.0 && g.minOutput <= g.maxOutput ==> g.minOutput <= r.output <= g.maxOutput
  {
    if dt <= 0.0 then PidStep(0.0, m)
    else
      var error := setpoint - measurement;
      PidStep(Saturate(g, Unclamped(g, m, error, dt)), PidMemory(m.integral + error * dt, error, false))
  }

  /**
   * No anti-windup: under a constant positive error with positive gains the
   * output never decreases from one tick to the next, however long the
   * output has been at its limit.
   */
  lemma {:induction false} ConstantErrorNeverDecreases(
    g: Gains, m: PidMemory, setpoint: real, measurement: real, dt: real)
    requires g.minOutput <= g.maxOutput && g.ki >= 0.0 && dt > 0.0 && setpoint >= measurement
    requires m.firstRun || m.prevError == setpoint - measurement
    ensures var first := PidLaw(g, m, setpoint, measurement, dt);
            first.output <= PidLaw(g, first.next, setpoint, measurement, dt).output
  {
    var e := setpoint - measurement;
    var first := PidLaw(g, m, setpoint, measurement, dt);
    assert Unclamped(g, m, e, dt) == g.kp * e + g.ki * (m.integral + e * dt);
    assert Unclamped(g, first.next, e, dt) == g.kp * e + g.ki * (m.integral + e * dt) + g.ki * (e * dt);
    assert e * dt >= 0.0;
    assert g.ki * (e * dt) >= 0.0;
    SaturateMonotone(g, Unclamped(g, m, e, dt), Unclamped(g, first.next, e, dt));
  }

  class GenericPid {
    const gains: Gains
    var integral: real
    var prevError: real
    var firstRun: bool

    function Snapshot(): PidMemory
      reads this
    {
      PidMemory(integral, prevError, firstRun)
    }

    constructor (gains: Gains)
      ensures this.gains == gains && Snapshot() == FreshPid
    {
      this.gains := gains;
      integral := 0.0;
      prevError := 0.0;
      firstRun := true;
    }

    method Calculate(setpoint: real, measurement: real, dt: real) returns (output: real)
      modifies this
      ensures var step := PidLaw(gains, old(Snapshot()), setpoint, measurement, dt);
              output == step.output && Snapshot() == step.next
    {
      if dt <= 0.0 {
        return 0.0;
      }
      var error := setpoint - measurement;
      var pTerm := gains.kp * error;
      integral := integral + error * dt;
      var iTerm := gains.ki * integral;
      var dTerm := 0.0;
      if !firstRun {
        dTerm := gains.kd * (error - prevError) / dt;
      }
      prevError := error;
      firstRun := false;
      var raw := pTerm + iTerm + dTerm;
      assert dTerm == if old(firstRun) then 0.0 else gains.kd * (error - old(prevError)) / dt;
      assert raw == Unclamped(gains, old(Snapshot()), error, dt);
      if raw > gains.maxOutput {
        return gains.maxOutput;
      } else if raw < gains.minOutput {
        return gains.minOutput;
      }
      return raw;
    }

    method Reset()
      modifies this
      ensures Snapshot() == FreshPid
    {
      integral := 0.0;
      prevError := 0.0;
      firstRun := true;
    }
  }

  /**
   * Worked examples: zero error gives 0; Kp 2 on error 10 gives 20; Ki 1 on
   * error 10 at dt 0.1 gives 1 then 2; Kp 100 on error 1 clamps to 10; Kd 1
   * on errors 10 then 5 at dt 0.1 gives 0 then -50.
   */
  lemma GenericPidExamples()
    ensures PidLaw(Gains(1.0, 0.1, 0.05, -10.0, 10.0), FreshPid, 100.0, 100.0, 0.1).output == 0.0
    ensures PidLaw(Gains(2.0, 0.0, 0.0, -100.0, 100.0), FreshPid, 100.0, 90.0, 0.1).output == 20.0
    ensures var g := Gains(0.0, 1.0, 0.0, -100.0, 100.0);
            var first := PidLaw(g, FreshPid, 100.0, 90.0, 0.1);
            first.output == 1.0 && PidLaw(g, first.next, 100.0, 90.0, 0.1).output == 2.0
    ensures PidLaw(Gains(100.0, 0.0, 0.0, -10.0, 10.0), FreshPid, 10.0, 9.0, 0.1).output == 10.0
    ensures var g := Gains(0.0, 0.0, 1.0, -100.0, 100.0);
            var first := PidLaw(g, FreshPid, 100.0, 90.0, 0.1);
            first.output == 0.0 && PidLaw(g, first.next, 100.0, 95.0, 0.1).output == -50.0
  {
  }
}
