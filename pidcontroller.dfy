/**
 * The wall-clock PID (`control/PIDController.java`): the time step is the
 * whole milliseconds elapsed since the previous call, replaced by 0.05 s when
 * that is not positive; the derivative acts on the error and the output is
 * clamped.  `Instant.now()` is passed in as a nanosecond reading.
 */
module ClockedControl {
  import opened Numeric

  /**
   * `Duration.between(from, to).toMillis()`: whole milliseconds, truncated
   * toward zero, so that a negative interval of -1.5 ms gives -1 (the
   * behaviour of `toMillis` since Java 9).
   */
  function ElapsedMillis(fromNs: int, toNs: int): (ms: int)
    ensures toNs - fromNs >= 0 ==> 0 <= ms * 1_000_000 <= toNs - fromNs < (ms + 1) * 1_000_000
    ensures toNs - fromNs < 0 ==> ms <= 0 && (ms - 1) * 1_000_000 < toNs - fromNs <= ms * 1_000_000
  {
    var d := toNs - fromNs;
    if d >= 0 then d / 1_000_000 else -((-d) / 1_000_000)
  }

  /** The time step `calculate` uses: positive always, 0.05 s when the clock has not advanced a millisecond. */
  function TickDt(lastNs: int, nowNs: int): (dt: real)
    ensures dt > 0.0
    ensures ElapsedMillis(lastNs, nowNs) > 0 ==> dt * 1000.0 == ElapsedMillis(lastNs, nowNs) as real
    ensures nowNs - lastNs < 1_000_000 ==> dt == 0.05
  {
    var dt := ElapsedMillis(lastNs, nowNs) as real / 1000.0;
    if dt <= 0.0 then 0.05 else dt
  }

  datatype Limits = Limits(kp: real, ki: real, kd: real, minOutput: real, maxOutput: real)

  /** The fields `calculate` updates besides the time stamp. */
  datatype ErrorMemory = ErrorMemory(integral: real, lastError: real)

  datatype ClockedStep = ClockedStep(output: real, next: ErrorMemory)

  /** `calculate(target, current)` for a given time step. */
  function ClockedLaw(g: Limits, m: ErrorMemory, target: real, current: real, dt: real): (r: ClockedStep)
    requires dt > 0.0
    ensures g.minOutput <= g.maxOutput ==> g.minOutput <= r.output <= g.maxOutput
    ensures r.next == ErrorMemory(m.integral + (target - current) * dt, target - current)
    ensures r.output == Clamp(g.minOutput, g.maxOutput,
                              g.kp * (target - current) + g.ki * r.next.integral
                              + g.kd * (((target - current) - m.lastError) / dt))
  {
    var error := target - current;
    var integral := m.integral + error * dt;
    var derivative := (error - m.lastError) / dt;
    ClockedStep(Clamp(g.minOutput, g.maxOutput, g.kp * error + g.ki * integral + g.kd * derivative),
                ErrorMemory(integral, error))
  }

  /**
   * Calling twice within one millisecond does not divide by zero: the second
   * call integrates over the nominal 0.05 s and its derivative is the error
   * change over 0.05 s.
   */
  lemma {:induction false} BurstUsesNominalStep(
    g: Limits, m: ErrorMemory, lastNs: int, nowNs: int, target: real, current: real)
    requires lastNs <= nowNs < lastNs + 1_000_000
    ensures ClockedLaw(g, m, target, current, TickDt(lastNs, nowNs)).next.integral
            == m.integral + (target - current) * 0.05
  {
  }

  class PidController {
    const limits: Limits
    var integral: real
    var lastError: real
    var lastTime: int

    function Snapshot(): ErrorMemory
      reads this
    {
      ErrorMemory(integral, lastError)
    }

    constructor (limits: Limits, nowNs: int)
      ensures this.limits == limits && Snapshot() == ErrorMemory(0.0, 0.0) && lastTime == nowNs
    {
      this.limits := limits;
      integral := 0.0;
      lastError := 0.0;
      lastTime := nowNs;
    }

    method Calculate(target: real, current: real, nowNs: int) returns (output: real)
      modifies this
      ensures var step := ClockedLaw(limits, old(Snapshot()), target, current, TickDt(old(lastTime), nowNs));
              output == step.output && Snapshot() == step.next
      ensures lastTime == nowNs
    {
      ghost var before := Snapshot();
      var dt := TickDt(lastTime, nowNs);
      ghost var step := ClockedLaw(limits, before, target, current, dt);
      var error := target - current;
      integral := integral + error * dt;
      var derivative := (error - lastError) / dt;
      output := limits.kp * error + limits.ki * integral + limits.kd * derivative;
      output := Clamp(limits.minOutput, limits.maxOutput, output);
      assert output == step.output;
      lastError := error;
      lastTime := nowNs;
    }

    method Reset(nowNs: int)
      modifies this
      ensures Snapshot() == ErrorMemory(0.0, 0.0) && lastTime == nowNs
    {
      integral := 0.0;
      lastError := 0.0;
      lastTime := nowNs;
    }
  }
}
