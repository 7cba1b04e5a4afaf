/**
 * The blackboard's axis controller (`control/Controller.java`): a PID law
 * whose derivative acts on the feedback, whose output is clamped to the
 * configured limits, and whose integral is corrected back whenever the output
 * saturates (anti-windup).  The four subclasses (Pitch, Roll, Yaw, Throttle)
 * differ only in the target field they follow and the surface they drive, so
 * they are folded in as an `Axis` selector.
 */
module AxisControl {
  import opened Wrappers
  import opened Numeric
  import opened Domain

  datatype Axis = PitchAxis | RollAxis | YawAxis | ThrottleAxis

  /** The actuator setter a controller calls. */
  datatype Surface = Elevator | Aileron | Rudder | ThrottleLever

  /** One `actuator.setX(value)` call. */
  datatype Signal = Signal(surface: Surface, value: real)

  /** `getSetpoint`: the target field each subclass follows. */
  function Setpoint(axis: Axis, target: Target): real {
    match axis
    case PitchAxis => target.pitch
    case RollAxis => target.roll
    case YawAxis => target.yaw
    case ThrottleAxis => target.throttle
  }

  /** `sendCommand`: the actuator setter each subclass calls. */
  function SurfaceOf(axis: Axis): Surface {
    match axis
    case PitchAxis => Elevator
    case RollAxis => Aileron
    case YawAxis => Rudder
    case ThrottleAxis => ThrottleLever
  }

  /** The controller's memory between calls. */
  datatype LawState = LawState(integral: real, previousFeedback: real, firstIteration: bool)

  /** The state of a new or reset controller. */
  const FreshLaw := LawState(0.0, 0.0, true)

  /** The rate of change of the feedback, 0 on the first call. */
  function FeedbackRate(s: LawState, feedback: real, dt: real): real
    requires s.firstIteration || dt != 0.0
  {
    if s.firstIteration then 0.0 else (feedback - s.previousFeedback) / dt
  }

  /** P + I + D before clamping, with the integral already advanced by `error * dt`. */
  function RawOutput(c: Configuration, s: LawState, error: real, feedback: real, dt: real): real
    requires s.firstIteration || dt != 0.0
  {
    c.proportional * error
    + c.integral * (s.integral + error * dt)
    - c.derivative * FeedbackRate(s, feedback, dt)
  }

  datatype LawStep = LawStep(output: real, next: LawState)

  /**
   * `compute(error, feedback, dt)`.  The output is the raw sum clamped to
   * [min, max]; the integral grows by `error * dt` and, when the output was
   * clamped and Ki is non-zero, is pulled back so that P + Ki·integral + D
   * reproduces the clamped output exactly.
   */
  function Law(c: Configuration, s: LawState, error: real, feedback: real, dt: real): (r: LawStep)
    requires s.firstIteration || dt != 0.0
    ensures c.min <= c.max ==> c.min <= r.output <= c.max
    ensures r.output == Clamp(c.min, c.max, RawOutput(c, s, error, feedback, dt))
    ensures r.next.previousFeedback == feedback && !r.next.firstIteration
    ensures (c.integral == 0.0 || RawOutput(c, s, error, feedback, dt) == r.output) ==>
              r.next.integral == s.integral + error * dt
    ensures c.integral != 0.0 ==>
              c.proportional * error + c.integral * r.next.integral
              - c.derivative * FeedbackRate(s, feedback, dt) == r.output
  {
    var accumulated := s.integral + error * dt;
    var raw := RawOutput(c, s, error, feedback, dt);
    var clamped := Clamp(c.min, c.max, raw);
    var integral :=
      if raw != clamped && c.integral != 0.0 then
        var excess := (raw - clamped) / c.integral;
        assert c.integral * excess == raw - clamped;
        accumulated - excess
      else accumulated;
    LawStep(clamped, LawState(integral, feedback, false))
  }

  /** `step`'s guard: a ready actuator, an active configuration and a new, positive sample time. */
  predicate Accepts(actuatorReady: bool, c: Configuration, sample: Option<Sample>, lastSimTime: real) {
    actuatorReady && c.active && sample.Some? && sample.value.time > 0.0
    && sample.value.time != lastSimTime
  }

  /** `step`'s time step: one nominal period on the first sample, the simulator time elapsed after that. */
  function StepDt(c: Configuration, lastSimTime: real, time: real): (dt: real)
    requires c.frequency != 0.0
    requires time != lastSimTime
    ensures dt != 0.0
    ensures lastSimTime == 0.0 ==> dt * c.frequency == 1.0
    ensures lastSimTime != 0.0 ==> lastSimTime + dt == time
  {
    if lastSimTime == 0.0 then 1.0 / c.frequency else time - lastSimTime
  }

  class Controller {
    const axis: Axis
    const configuration: Configuration
    var integral: real
    var previousFeedback: real
    var firstIteration: bool
    var lastSimTime: real

    /** The part of the fields the control law reads and writes. */
    function Snapshot(): LawState
      reads this
    {
      LawState(integral, previousFeedback, firstIteration)
    }

    constructor (axis: Axis, configuration: Configuration)
      ensures this.axis == axis && this.configuration == configuration
      ensures Snapshot() == FreshLaw && lastSimTime == 0.0
    {
      this.axis := axis;
      this.configuration := configuration;
      integral := 0.0;
      previousFeedback := 0.0;
      firstIteration := true;
      lastSimTime := 0.0;
    }

    method Compute(error: real, feedback: real, dt: real) returns (output: real)
      requires firstIteration || dt != 0.0
      modifies this
      ensures var step := Law(configuration, old(Snapshot()), error, feedback, dt);
              output == step.output && Snapshot() == step.next
      ensures lastSimTime == old(lastSimTime)
    {
      ghost var before := Snapshot();
      var pTerm := configuration.proportional * error;
      integral := integral + error * dt;
      var iTerm := configuration.integral * integral;
      var derivative := 0.0;
      if !firstIteration {
        derivative := (feedback - previousFeedback) / dt;
      }
      assert derivative == FeedbackRate(before, feedback, dt);
      var dTerm := -configuration.derivative * derivative;
      previousFeedback := feedback;
      firstIteration := false;
      var raw := pTerm + iTerm + dTerm;
      assert raw == RawOutput(configuration, before, error, feedback, dt);
      output := Clamp(configuration.min, configuration.max, raw);
      if raw != output && configuration.integral != 0.0 {
        var excess := (raw - output) / configuration.integral;
        integral := integral - excess;
      }
    }

    method Reset()
      modifies this
      ensures Snapshot() == FreshLaw && lastSimTime == 0.0
    {
      integral := 0.0;
      previousFeedback := 0.0;
      firstIteration := true;
      lastSimTime := 0.0;
    }

    /**
     * One scheduled tick.  A rejected sample sends nothing and changes
     * nothing; an accepted one runs the law on `setpoint - value` and sends
     * the output to this axis's surface.
     */
    method Step(actuatorReady: bool, sample: Option<Sample>, target: Target) returns (sent: Option<Signal>)
      requires configuration.frequency != 0.0
      modifies this
      ensures !Accepts(actuatorReady, configuration, sample, old(lastSimTime)) ==>
                sent == None && unchanged(this)
      ensures Accepts(actuatorReady, configuration, sample, old(lastSimTime)) ==>
                var feedback := sample.value.value;
                var dt := StepDt(configuration, old(lastSimTime), sample.value.time);
                var step := Law(configuration, old(Snapshot()),
                                            Setpoint(axis, target) - feedback, feedback, dt);
                sent == Some(Signal(SurfaceOf(axis), step.output))
                && Snapshot() == step.next && lastSimTime == sample.value.time
    {
      if !actuatorReady || !configuration.active {
        return None;
      }
      if sample.None? || sample.value.time <= 0.0 || sample.value.time == lastSimTime {
        return None;
      }
      var setpoint := Setpoint(axis, target);
      var feedback := sample.value.value;
      var error := setpoint - feedback;
      var dt := if lastSimTime == 0.0 then 1.0 / configuration.frequency
                else sample.value.time - lastSimTime;
      lastSimTime := sample.value.time;
      var output := Compute(error, feedback, dt);
      sent := Some(Signal(SurfaceOf(axis), output));
    }
  }

  /**
   * Anti-windup at work: after a tick that saturated at the upper limit, a
   * tick with the error reversed (and the feedback held) comes off the limit
   * at once, because the integral was pulled back to the saturation point.
   */
  lemma {:induction false} ReversedErrorLeavesSaturation(
    c: Configuration, s: LawState, e1: real, e2: real, feedback: real, dt1: real, dt2: real)
    requires c.min < c.max && c.proportional >= 0.0 && c.integral > 0.0
    requires s.firstIteration || s.previousFeedback == feedback
    requires dt1 > 0.0 && dt2 > 0.0 && e1 >= 0.0 && e2 < 0.0
    requires Law(c, s, e1, feedback, dt1).output == c.max
    ensures Law(c, Law(c, s, e1, feedback, dt1).next, e2, feedback, dt2).output < c.max
  {
    var first := Law(c, s, e1, feedback, dt1);
    assert FeedbackRate(s, feedback, dt1) == 0.0;
    assert FeedbackRate(first.next, feedback, dt2) == 0.0;
    // the corrected integral satisfies Kp·e1 + Ki·I1 == max
    assert c.proportional * e1 + c.integral * first.next.integral == c.max;
    var raw := RawOutput(c, first.next, e2, feedback, dt2);
    assert raw == c.proportional * e2 + c.integral * first.next.integral + c.integral * (e2 * dt2);
    assert c.proportional * e2 <= 0.0;
    assert c.proportional * e1 >= 0.0;
    assert e2 * dt2 < 0.0;
    assert c.integral * (e2 * dt2) < 0.0;
    assert raw < c.max;
  }

  /** The gains the controller's examples use (Kp 1, Ki 0.1, Kd 0.05) with limits that do not bind. */
  const ExampleGains := Configuration(true, 50.0, 1.0, 0.1, 0.05, -100.0, 100.0)

  /**
   * Worked examples: error 10 gives 11; error 5 twice gives 5.5 then 6;
   * (10, 0) then (8, 2) gives 9.7 because the derivative acts on the
   * feedback; with limits of ±5 an error of ±100 gives ±5.
   */
  lemma ControllerExamples()
    ensures Law(ExampleGains, FreshLaw, 10.0, 0.0, 1.0).output == 11.0
    ensures Law(ExampleGains, FreshLaw, 5.0, 0.0, 1.0).output == 5.5
    ensures Law(ExampleGains, Law(ExampleGains, FreshLaw, 5.0, 0.0, 1.0).next, 5.0, 0.0, 1.0).output == 6.0
    ensures Law(ExampleGains, Law(ExampleGains, FreshLaw, 10.0, 0.0, 1.0).next, 8.0, 2.0, 1.0).output == 9.7
    ensures Law(ExampleGains.(min := -5.0, max := 5.0), FreshLaw, 100.0, 0.0, 1.0).output == 5.0
    ensures Law(ExampleGains.(min := -5.0, max := 5.0), FreshLaw, -100.0, 0.0, 1.0).output == -5.0
  {
  }
}
