# NativeNavJ control core in Dafny

A verified model of the deterministic core of NativeNavJ, a small autopilot for a
flight simulator. The model covers:

- **Three PID laws:**
  - the blackboard's axis `Controller`, with derivative on the feedback, clamping and back-calculation anti-windup;
  - `GenericPID`, with derivative on the error and no anti-windup;
  - the wall-clock `PIDController`.
- **Energy and guidance:**
  - the TECS module (total-energy throttle, distribution pitch, heading-error wrap, stall override);
  - the energy-based flight `Computer`;
  - the command clamp;
  - the two surface loops, `Controllers` and `ActuatorLoop`.
- **The blackboard `Memory`:** case-insensitive registries and single-value slots.
- **Three command languages:**
  - the TECS `CommandParser` (ON/OFF/ALT/HDG/SPD);
  - the operator `Shell` (SYS/HDG/ALT/SPD/LLM/ASK);
  - the rule-based fallback of the `CognitiveOrchestrator`.
- **The `SafetyGuardrails`.**
- **Timing and sampling:** the drift-compensated `LoopController`, the `Sensor` loop, and the `SimConnectAdapter` read/write mapping.

Objects whose fields the source updates in place are Dafny classes. Each method's `ensures`
ties the new state to a pure specification function of the old state:

| class | specification function |
|---|---|
| `Controller.Compute` | `Law` |
| `GenericPid.Calculate` | `PidLaw` |
| `PidController.Calculate` | `ClockedLaw` |
| `CommandParser.ParseCommand` | `Parse` |
| `Shell.Execute` | `Interpret` and `After` |
| `LoopController.Run` | `Schedule` |

The properties the source promises are proved as lemmas about those functions.

Modelling conventions:

- **Numbers:**
  - Java `double` is `real`.
  - A `NaN` that the code tests for is `Option<real>`.
  - Java `%` on doubles is truncated division (`Rem360`).
  - The `(long)` cast truncates and saturates (`ToLong`).
- **Strings:**
  - Strings are `seq<char>`.
  - `toUpperCase` upper-cases ASCII letters.
  - `trim`, `isBlank`, `split(" ")` (trailing empty strings dropped) and `split("\\s+")` are written out in module `Text`.
- **Parsing:**
  - `Double.parseDouble` is a parameter `string -> Option<real>`; `None` stands for `NumberFormatException`.
  - `Integer.parseInt` of a digit string is modelled concretely, failing when the string is empty or when the value exceeds 2^31 - 1.
- **Clocks and devices:**
  - Clock readings (`System.nanoTime`, `Instant.now`), device readiness and the latest sensor sample are method parameters.
  - Calls to the actuator, the simulator service and the flight tools are recorded in `seq` fields or returned as values.

The source files come from overlapping revisions whose APIs do not agree. Each file is
modelled against records shaped by that file:

- **Goal records:**
  - `CommandParser` uses the three-field `FlightGoal`.
  - `TECSModule` and `ActuatorLoop` read `goal.systemActive()`, which `FlightGoal` lacks. Their goal is `TecsGoal`, which carries that flag.
- **Computer:**
  - `Computer` calls `memory.goal()` and `updateGoal`, which `Memory` lacks. The `Computer` class therefore holds its own goal, navigator and state.
  - Its four axis controllers are `Controller` objects whose configurations are constructor parameters.
- **Other records:**
  - `State` has the nine fields that `Sensor` and `Computer` construct; the `time` field of `State.java` is read by no modelled file.
  - `Loop` is read through `active()`, as `Memory` uses it.

## Model

| member | source | states |
|---|---|---|
| Numeric.Clamp | src/main/java/com/nativenavj/control/Controller.java:104 | `max(lo, min(hi, x))` lies in [lo, hi] when lo <= hi, is x inside the range, lo below it and hi above it |
| Numeric.Trunc | src/main/java/com/nativenavj/control/core/LoopController.java:14 | the `(long)` cast: the integer within one of x on x's side of zero, i.e. truncation toward zero |
| Headings.Rem360 | src/main/java/com/nativenavj/domain/Shell.java:158 | Java's `h % 360.0`: strictly between -360 and 360, carrying the sign of h, and differing from h by whole turns |
| Headings.NormalizeHeading | src/main/java/com/nativenavj/domain/Shell.java:157-163 | `h % 360`, plus 360 when negative; its meaning is stated by NormalizeHeadingSpec, NormalizeHeadingFixesRange, NormalizeHeadingIdempotent and NormalizeHeadingSameBearing |
| Headings.NormalizeHeadingSpec | src/main/java/com/nativenavj/domain/Shell.java:157-163 | the normalised heading lies in [0, 360) and points the same way as the input (they differ by whole turns) |
| Headings.NormalizeHeadingFixesRange | src/main/java/com/nativenavj/domain/Shell.java:157-163 | a heading already in [0, 360) is returned unchanged |
| Headings.NormalizeHeadingIdempotent | src/main/java/com/nativenavj/domain/Shell.java:157-163 | normalising twice is normalising once |
| Headings.NormalizeHeadingSameBearing | src/main/java/com/nativenavj/domain/Shell.java:157-163 | two headings a whole number of turns apart normalise to the same value |
| Headings.SubtractTurns | src/main/java/com/nativenavj/control/tecs/TECSModule.java:62-63 | the first while loop terminates at a value <= 180, above -180 if it ran at all, unchanged if it did not, and a whole number of turns from its start |
| Headings.AddTurns | src/main/java/com/nativenavj/control/tecs/TECSModule.java:64-65 | the second while loop terminates at a value >= -180, below 180 if it ran at all, unchanged if it did not, and a whole number of turns from its start |
| Headings.WrapHeadingError | src/main/java/com/nativenavj/control/tecs/TECSModule.java:61-65 | the two while loops wrapping the heading error; characterised by WrapHeadingErrorSpec and WrapAndNormalizeAgree |
| Headings.WrapHeadingErrorSpec | src/main/java/com/nativenavj/control/tecs/TECSModule.java:61-65 | after both loops the heading error lies in [-180, 180], differs from goal - current by whole turns, and an error already in range is untouched |
| Headings.WrapAndNormalizeAgree | src/main/java/com/nativenavj/control/tecs/TECSModule.java:61-65 | the TECS wrap and the shell/guardrail normalisation agree on the bearing: normalising the wrapped error gives the normalised raw error |
| Commands.Neutral | src/main/java/com/nativenavj/domain/Command.java:15-17 | the neutral command is all zeros and lies within the clamp ranges |
| Commands.ClampCommand | src/main/java/com/nativenavj/domain/Command.java:22-28 | the clamped command lies in the ranges (pitch ±20, roll ±30, throttle [0, 1], rudder ±30), an in-range command is returned unchanged, and each out-of-range field goes to the nearer bound |
| Commands.ClampCommandIdempotent | src/main/java/com/nativenavj/domain/Command.java:22-28 | clamping twice is clamping once |
| Commands.ClampCommandFieldwise | src/main/java/com/nativenavj/domain/Command.java:23-27 | each output field depends only on the matching input field |
| ControlMath.Saturate | src/main/java/com/nativenavj/control/math/GenericPID.java:58-64 | the upper-limit-first limit test yields a value in [min, max] when min <= max, keeps in-range values, and yields max above the range and min below it |
| ControlMath.SaturateMonotone | src/main/java/com/nativenavj/control/math/GenericPID.java:58-64 | the limit test preserves order |
| ControlMath.PidLaw | src/main/java/com/nativenavj/control/math/GenericPID.java:33-65 | dt <= 0 gives output 0 and leaves the memory alone; otherwise the integral grows by error·dt, prevError becomes the error, firstRun clears, and the output is the saturated P + I + D (D = 0 on the first run), inside the limits when min <= max |
| ControlMath.ConstantErrorNeverDecreases | src/main/java/com/nativenavj/control/math/GenericPID.java:43-63 | there is no anti-windup: under a constant non-negative error with Ki >= 0, the next output is never below the current one, even at the limit |
| ControlMath.GenericPid.constructor | src/main/java/com/nativenavj/control/math/GenericPID.java:13-23 | a new PID has integral 0, prevError 0 and firstRun set |
| ControlMath.GenericPid.Calculate | src/main/java/com/nativenavj/control/math/GenericPID.java:33-65 | the output and the new integral, prevError and firstRun are those of `PidLaw` on the old fields |
| ControlMath.GenericPid.Reset | src/main/java/com/nativenavj/control/math/GenericPID.java:67-71 | reset restores the state of a new PID |
| ControlMath.GenericPidExamples | src/test/java/com/nativenavj/control/math/GenericPIDTest.java:8-54 | zero error gives 0; Kp 2 on error 10 gives 20; Ki 1 on error 10 at dt 0.1 gives 1 then 2; Kp 100 on error 1 clamps to 10; Kd 1 on errors 10 then 5 gives 0 then -50 |
| AxisControl.RawOutput | src/main/java/com/nativenavj/control/Controller.java:84-96 | P + I + D before clamping; Law states how the output and the corrected integral relate to it |
| AxisControl.Law | src/main/java/com/nativenavj/control/Controller.java:82-113 | the output is the raw P + I + D clamped to [min, max]; afterwards previousFeedback is the feedback and firstIteration is cleared; without clamping (or with Ki = 0) the integral grows by exactly error·dt; with Ki != 0 the corrected integral makes P + Ki·integral + D equal the clamped output |
| AxisControl.StepDt | src/main/java/com/nativenavj/control/Controller.java:61-62 | the first sample's step is one nominal period (dt·frequency = 1); later steps are the simulator time elapsed since the last sample; the step is never 0 |
| AxisControl.ReversedErrorLeavesSaturation | src/main/java/com/nativenavj/control/Controller.java:106-110 | anti-windup works: after a tick saturated at max, a tick with the error reversed and the feedback held comes off the limit at once |
| AxisControl.ControllerExamples | src/test/java/com/nativenavj/control/ControllerTest.java:35-75 | error 10 gives 11; error 5 twice gives 5.5 then 6; (10, 0) then (8, 2) gives 9.7; with limits ±5, errors ±100 give ±5 |
| AxisControl.Controller.constructor | src/main/java/com/nativenavj/control/Controller.java:20-39 | a new controller has integral 0, previousFeedback 0, firstIteration set and lastSimTime 0 |
| AxisControl.Controller.Compute | src/main/java/com/nativenavj/control/Controller.java:82-113 | the output and new integral, previousFeedback and firstIteration are those of `Law` on the old fields; lastSimTime is untouched |
| AxisControl.Controller.Reset | src/main/java/com/nativenavj/control/Controller.java:118-123 | reset restores the state of a new controller, so the next `Compute` behaves as on a new one |
| AxisControl.Controller.Step | src/main/java/com/nativenavj/control/Controller.java:46-67 | an unready actuator, inactive configuration, missing sample, non-positive time or repeated time sends nothing and changes nothing; otherwise the law runs on setpoint - value with `StepDt`, lastSimTime becomes the sample time, and the output goes to this axis's surface |
| ClockedControl.ElapsedMillis | src/main/java/com/nativenavj/control/PIDController.java:29 | `Duration.toMillis`: the whole milliseconds in the interval, truncated toward zero, so a non-negative interval rounds down and a negative one rounds up (-1.5 ms gives -1) |
| ClockedControl.TickDt | src/main/java/com/nativenavj/control/PIDController.java:28-31 | the time step is always positive: the elapsed milliseconds / 1000 when positive, 0.05 s when the clock moved less than a millisecond |
| ClockedControl.ClockedLaw | src/main/java/com/nativenavj/control/PIDController.java:33-48 | the integral grows by error·dt with no correction, lastError becomes the error, the derivative is (error - lastError)/dt with no first-call guard, and the output is clamped into [min, max] |
| ClockedControl.BurstUsesNominalStep | src/main/java/com/nativenavj/control/PIDController.java:28-39 | two calls within one millisecond integrate over the nominal 0.05 s rather than dividing by zero |
| ClockedControl.PidController.constructor | src/main/java/com/nativenavj/control/PIDController.java:11-25 | a new controller has integral 0, lastError 0 and lastTime now |
| ClockedControl.PidController.Calculate | src/main/java/com/nativenavj/control/PIDController.java:27-51 | the output and new integral and lastError are those of `ClockedLaw` with `TickDt`; lastTime becomes now |
| ClockedControl.PidController.Reset | src/main/java/com/nativenavj/control/PIDController.java:53-57 | reset zeroes integral and lastError and sets lastTime to now |
| Tecs.TecsThrottle | src/main/java/com/nativenavj/control/tecs/TECSModule.java:53-54 | the throttle lies in [0, 1] |
| Tecs.TecsPitch | src/main/java/com/nativenavj/control/tecs/TECSModule.java:57-58 | the pitch target lies in [-20, 20] |
| Tecs.TecsRoll | src/main/java/com/nativenavj/control/tecs/TECSModule.java:61-66 | the roll target lies in [-30, 30] |
| Tecs.TecsFrame | src/main/java/com/nativenavj/control/tecs/TECSModule.java:42-68 | below 40 kt the frame is the stall recovery (-10, 0, 1) whatever the goal; otherwise every target lies in its range |
| Tecs.BelowTargetClimbs | src/test/java/com/nativenavj/control/tecs/TECSModuleTest.java:39-51 | below the target altitude at the target airspeed both pitch and throttle are positive |
| Tecs.ThrottleFollowsTotalEnergy | src/main/java/com/nativenavj/control/tecs/TECSModule.java:52-54 | throttle depends only on the total energy error: equal sums of altitude and airspeed error give equal throttle |
| Tecs.PitchFollowsDistribution | src/main/java/com/nativenavj/control/tecs/TECSModule.java:56-58 | pitch rises with the altitude error and falls with the airspeed error |
| Tecs.RollTurnsShortWay | src/main/java/com/nativenavj/control/tecs/TECSModule.java:60-66 | roll is positive when the target lies less than half a turn clockwise, negative when more than half a turn clockwise, and zero exactly when the bearings agree |
| Tecs.TecsModule.Step | src/main/java/com/nativenavj/control/tecs/TECSModule.java:34-69 | with no goal, no telemetry or an inactive system the published frame is unchanged; otherwise it becomes `TecsFrame` (the loop invariants prove the two while loops compute the wrap) |
| FlightComputer.SpecificEnergy | src/main/java/com/nativenavj/control/Computer.java:162-166 | specific energy is never below the altitude and equals it exactly at zero speed |
| FlightComputer.KineticEnergy | src/main/java/com/nativenavj/control/Computer.java:162-166 | the kinetic part V²/2g is non-negative and positive exactly when the speed is non-zero |
| FlightComputer.KineticEnergyMonotone | src/main/java/com/nativenavj/control/Computer.java:162-166 | for non-negative speeds the kinetic part is strictly increasing in speed |
| FlightComputer.SpecificEnergyMonotone | src/main/java/com/nativenavj/control/Computer.java:162-166 | specific energy never decreases with more altitude or (non-negative) speed, and strictly increases when either strictly increases |
| FlightComputer.EnergyError | src/main/java/com/nativenavj/control/Computer.java:121-123 | target minus current specific energy; characterised by SpecificEnergyMonotone and EnergyErrorsSplit |
| FlightComputer.DistributionError | src/main/java/com/nativenavj/control/Computer.java:125-128 | altitude error minus the weighted speed error; characterised by EnergyErrorsSplit |
| FlightComputer.EnergyErrorsSplit | src/main/java/com/nativenavj/control/Computer.java:121-128 | at the goal speed both the total and the distribution error equal the altitude error; at the goal altitude but too slow, the total error is positive (more thrust) and the distribution error negative (nose down) |
| FlightComputer.FlightPathAngle | src/main/java/com/nativenavj/control/Computer.java:171-200 | below 1 ft/s true speed the angle is 0; otherwise angle × true speed is the climb rate in ft/s, so the angle is positive exactly when climbing |
| FlightComputer.Computer.constructor | src/main/java/com/nativenavj/control/Computer.java:36-46 | a new computer has the default goal, an inactive navigator, a neutral state, nothing written and four new controllers |
| FlightComputer.Computer.SetAltitude | src/main/java/com/nativenavj/control/Computer.java:51-54 | only the goal altitude changes; speed, heading, navigator, state and output stay |
| FlightComputer.Computer.SetSpeed | src/main/java/com/nativenavj/control/Computer.java:59-62 | only the goal speed changes |
| FlightComputer.Computer.SetHeading | src/main/java/com/nativenavj/control/Computer.java:67-70 | only the goal heading changes |
| FlightComputer.Computer.Activate | src/main/java/com/nativenavj/control/Computer.java:75-77 | the navigator becomes active in mode "AUTONOMOUS"; nothing else changes |
| FlightComputer.Computer.Deactivate | src/main/java/com/nativenavj/control/Computer.java:82-84 | the navigator becomes inactive ("STANDBY"); nothing else changes |
| FlightComputer.Computer.Compute | src/main/java/com/nativenavj/control/Computer.java:104-157 | inactive, sensor down or actuator not ready: nothing changes; otherwise the reading becomes the state before any branch, below 40 kt exactly the stall-recovery command is written and no controller moves, else one clamped command built from the four axis laws on the energy errors is written; only in-range commands are ever written; no controller's lastSimTime changes |
| FlightComputer.Computer.Reset | src/main/java/com/nativenavj/control/Computer.java:205-210 | all four controllers return to the state of new ones |
| SurfaceControllers.TickDt | src/main/java/com/nativenavj/control/Controllers.java:50 | the first tick's step is 1/50 s; later steps are the nanoseconds elapsed / 1e9, positive when the clock moved forward |
| SurfaceControllers.Controllers.constructor | src/main/java/com/nativenavj/control/Controllers.java:29-38 | four new controllers, lastStepNanos 0, nothing written |
| SurfaceControllers.Controllers.Step | src/main/java/com/nativenavj/control/Controllers.java:41-61 | an unready actuator changes nothing; otherwise lastStepNanos becomes now, each axis law runs on its target field with its state field as feedback (throttle against 0.5), and exactly one clamped command is written; no controller's lastSimTime changes |
| SurfaceControllers.Controllers.Reset | src/main/java/com/nativenavj/control/Controllers.java:63-69 | all four controllers return to the state of new ones with lastSimTime 0, and lastStepNanos is 0, so the next step uses 1/50 s again |
| Actuation.ActuatorLoop.constructor | src/main/java/com/nativenavj/control/actuator/ActuatorLoop.java:22-38 | dt is fixed at 1/hz; the pitch and roll PIDs have the source's gains and limits [-1, 1] and start fresh |
| Actuation.ActuatorLoop.Step | src/main/java/com/nativenavj/control/actuator/ActuatorLoop.java:41-57 | with no active goal, frame or telemetry nothing is sent and no PID moves; otherwise exactly one call (aileron from the roll PID, elevator from the pitch PID, rudder 0, throttle passed through) is recorded; every recorded call has deflections in [-1, 1] and a neutral rudder |
| Blackboard.Key | src/main/java/com/nativenavj/domain/Memory.java:31 | registry keys are upper-case |
| Blackboard.WithActive | src/main/java/com/nativenavj/domain/Memory.java:75-80 | `setActive` on the loop map; ReadModifyWrite and ActiveAndFrequencyCommute state what it keeps |
| Blackboard.WithFrequency | src/main/java/com/nativenavj/domain/Memory.java:87-92 | `setFrequency` on the loop map; ReadModifyWrite and ActiveAndFrequencyCommute state what it keeps |
| Blackboard.ReadModifyWrite | src/main/java/com/nativenavj/domain/Memory.java:70-92 | `setActive` sets the flag and keeps the rate (10 for a new name); `setFrequency` sets the rate and keeps the flag (off for a new name); neither touches another name; names differing only in case are one entry |
| Blackboard.ActiveAndFrequencyCommute | src/main/java/com/nativenavj/domain/Memory.java:75-92 | setting the flag and the rate of one name gives the same entry in either order |
| Blackboard.Memory.constructor | src/main/java/com/nativenavj/domain/Memory.java:14-25 | empty registries, default goal/state/target, inactive navigator and assistant |
| Blackboard.Memory.AddTask | src/main/java/com/nativenavj/domain/Memory.java:30-34 | the runnable and loop are stored under the upper-cased name; configurations and slots are untouched |
| Blackboard.Memory.AddController | src/main/java/com/nativenavj/domain/Memory.java:39-44 | runnable, loop and configuration are stored under the upper-cased name |
| Blackboard.Memory.GetRunnable | src/main/java/com/nativenavj/domain/Memory.java:46-48 | present exactly when the upper-cased name is registered, and then the stored runnable |
| Blackboard.Memory.GetConfiguration | src/main/java/com/nativenavj/domain/Memory.java:54-56 | present exactly when the upper-cased name has a configuration, and then that configuration |
| Blackboard.Memory.SetConfiguration | src/main/java/com/nativenavj/domain/Memory.java:58-60 | only that name's configuration changes |
| Blackboard.Memory.GetLoop | src/main/java/com/nativenavj/domain/Memory.java:62-64 | present exactly when the upper-cased name has a loop, and then that loop |
| Blackboard.Memory.SetLoop | src/main/java/com/nativenavj/domain/Memory.java:66-68 | only that name's loop changes |
| Blackboard.Memory.IsActive | src/main/java/com/nativenavj/domain/Memory.java:70-73 | the stored flag, false for an unknown name |
| Blackboard.Memory.SetActive | src/main/java/com/nativenavj/domain/Memory.java:75-80 | the loop registry becomes its read-modify-write update; nothing else changes |
| Blackboard.Memory.GetFrequency | src/main/java/com/nativenavj/domain/Memory.java:82-85 | the stored rate, 0 for an unknown name |
| Blackboard.Memory.SetFrequency | src/main/java/com/nativenavj/domain/Memory.java:87-92 | the loop registry becomes its read-modify-write update; nothing else changes |
| Blackboard.Memory.SetGoal | src/main/java/com/nativenavj/domain/Memory.java:98-101 | the goal slot holds the value set; every other slot and registry is unchanged |
| Blackboard.Memory.SetState | src/main/java/com/nativenavj/domain/Memory.java:107-110 | the state slot holds the value set; nothing else changes |
| Blackboard.Memory.SetTarget | src/main/java/com/nativenavj/domain/Memory.java:116-119 | the target slot holds the value set; nothing else changes |
| Blackboard.Memory.SetNavigator | src/main/java/com/nativenavj/domain/Memory.java:125-128 | the navigator slot holds the value set; nothing else changes |
| Blackboard.Memory.SetAssistant | src/main/java/com/nativenavj/domain/Memory.java:134-137 | the assistant slot holds the value set; nothing else changes |
| Text.ToUpper | src/main/java/com/nativenavj/domain/Shell.java:27 | upper-casing keeps the length and maps each character on its own |
| Text.Trim | src/main/java/com/nativenavj/domain/Shell.java:27 | `String.trim`; TrimBlanks and TrimIgnoresCase state what it removes |
| Text.IsBlank | src/main/java/com/nativenavj/domain/Shell.java:22 | `String.isBlank`; IsBlankIgnoresCase and BlankIsEmpty state its use |
| Text.SplitOn | src/main/java/com/nativenavj/control/parser/CommandParser.java:33 | `split(" ")`; DropTrailingEmpty and SplitTwoWords state its results |
| Text.SplitOnWhitespace | src/main/java/com/nativenavj/domain/Shell.java:28 | `split("\\s+")`; SplitTwoWordsOnBlanks and ExtraBlanksIgnored state its results |
| Text.ToUpperIdempotent | src/main/java/com/nativenavj/domain/Memory.java:31 | upper-casing an upper-cased name changes nothing |
| Text.TrimIgnoresCase | src/main/java/com/nativenavj/domain/Shell.java:27 | trimming and upper-casing commute |
| Text.IsBlankIgnoresCase | src/main/java/com/nativenavj/domain/Shell.java:22 | a text is blank exactly when its upper-cased form is |
| Text.DropTrailingEmpty | src/main/java/com/nativenavj/control/parser/CommandParser.java:33 | `split` keeps a prefix of the pieces that ends in a non-empty piece and keeps every non-empty piece |
| Text.SplitTwoWords | src/main/java/com/nativenavj/control/parser/CommandParser.java:33 | two separator-free words joined by one separator split back into exactly those words |
| Text.SplitTwoWordsOnBlanks | src/main/java/com/nativenavj/domain/Shell.java:28 | two words separated by any run of blanks split on whitespace into exactly those words |
| Text.TrimBlanks | src/main/java/com/nativenavj/domain/Shell.java:27 | trimming removes exactly the surrounding blanks of a text that begins and ends with a visible character |
| Text.IndexOf | src/main/java/com/nativenavj/domain/Shell.java:134 | a found index marks an occurrence of the substring |
| Text.KeepDigits | src/main/java/com/nativenavj/strategy/CognitiveOrchestrator.java:91 | `replaceAll("[^0-9]", "")` keeps only digits and never lengthens the text |
| Text.ParseDigits | src/main/java/com/nativenavj/strategy/CognitiveOrchestrator.java:91 | `Integer.parseInt` of a digit string: a value fits in an int |
| Text.NatToStringRoundTrip | src/main/java/com/nativenavj/strategy/CognitiveOrchestrator.java:93 | the decimal text of a number reads back as that number |
| Parser.Fill | src/main/java/com/nativenavj/control/parser/CommandParser.java:45-51 | a missing (NaN) target is taken from telemetry, a set one is kept |
| Parser.Parse | src/main/java/com/nativenavj/control/parser/CommandParser.java:27-92 | the goal and status after `parse`; characterised by ParseIgnoresCase, ValueCommand, DoubledBlankChangesNothing, ValueCommandWithoutValue, OnCommand, OffCommand, UnknownCommand and ThrowsOnlyOnOffWithoutGoal |
| Parser.ParseIgnoresCase | src/main/java/com/nativenavj/control/parser/CommandParser.java:33 | a command and its upper-cased form parse the same |
| Parser.ValueCommand | src/main/java/com/nativenavj/control/parser/CommandParser.java:60-83 | ALT, HDG or SPD with one value, in any case, replaces exactly that target with the parsed value and keeps the other two and the status; an unparsable value changes nothing |
| Parser.DoubledBlankChangesNothing | src/main/java/com/nativenavj/control/parser/CommandParser.java:33-91 | a doubled blank after ALT, HDG or SPD leaves an empty value word that does not parse, so nothing changes |
| Parser.ValueCommandWithoutValue | src/main/java/com/nativenavj/control/parser/CommandParser.java:60-83 | ALT, HDG or SPD alone changes nothing |
| Parser.OnCommand | src/main/java/com/nativenavj/control/parser/CommandParser.java:39-56 | ON activates; with telemetry every missing target is filled from it and every set one kept; without telemetry the targets stay (all missing for a null goal) |
| Parser.OffCommand | src/main/java/com/nativenavj/control/parser/CommandParser.java:57-59 | OFF deactivates and leaves the goal as it was; a null goal stays null |
| Parser.ThrowsOnlyOnOffWithoutGoal | src/main/java/com/nativenavj/control/parser/CommandParser.java:57-97 | `logGoal` dereferences the goal, and `parse` throws a `NullPointerException` after its switch exactly on OFF with no goal; every other command that reaches `logGoal` has just stored a goal |
| Parser.UnknownCommand | src/main/java/com/nativenavj/control/parser/CommandParser.java:84-86 | any other first word changes neither goal nor status |
| Parser.CommandParser.constructor | src/main/java/com/nativenavj/control/parser/CommandParser.java:17-25 | the parser starts from the given goal reference and status |
| Parser.CommandParser.ParseCommand | src/main/java/com/nativenavj/control/parser/CommandParser.java:27-92 | the new goal and status are `Parse` of the old ones, which the lemmas above characterise, and the call reports that it throws exactly when `Throws` holds |
| CommandShell.Interpret | src/main/java/com/nativenavj/domain/Shell.java:21-49 | `execute` as a reply and one action; characterised by ErrorsChangeNothing, BlankIsEmpty, UnknownCommandRefused, SwitchNeedsOnOrOff, ValueNeedsNumber, HeadingIsNormalised, HeadingInRangeKept, AltitudeAndSpeedPassThrough and ActionIgnoresCase |
| CommandShell.Dispatch | src/main/java/com/nativenavj/domain/Shell.java:37-45 | the switch on the first word; characterised by DispatchConsistent and DispatchActionIgnoresText |
| CommandShell.Sys | src/main/java/com/nativenavj/domain/Shell.java:51-67 | `executeSys`; SwitchNeedsOnOrOff and SysConsistent |
| CommandShell.Hdg | src/main/java/com/nativenavj/domain/Shell.java:69-83 | `executeHdg`; HeadingIsNormalised, HeadingInRangeKept and ValueNeedsNumber |
| CommandShell.Alt | src/main/java/com/nativenavj/domain/Shell.java:85-97 | `executeAlt`; AltitudeAndSpeedPassThrough and ValueNeedsNumber |
| CommandShell.Spd | src/main/java/com/nativenavj/domain/Shell.java:99-111 | `executeSpd`; AltitudeAndSpeedPassThrough and ValueNeedsNumber |
| CommandShell.Llm | src/main/java/com/nativenavj/domain/Shell.java:113-129 | `executeLlm`; SwitchNeedsOnOrOff and LlmConsistent |
| CommandShell.Ask | src/main/java/com/nativenavj/domain/Shell.java:131-152 | `executeAsk`; AskChangesNothing and AskConsistent |
| CommandShell.After | src/main/java/com/nativenavj/domain/Shell.java:51-129 | each action changes exactly one thing: the matching goal field, the navigator (active "AUTONOMOUS" / inactive) or the LLM flag; no action changes nothing |
| CommandShell.ErrorsChangeNothing | src/main/java/com/nativenavj/domain/Shell.java:21-152 | every "ERROR: ..." reply comes with no change, and every reply without a change is text |
| CommandShell.BlankIsEmpty | src/main/java/com/nativenavj/domain/Shell.java:22-24 | a null or blank command gets "ERROR: Empty command" and changes nothing |
| CommandShell.UnknownCommandRefused | src/main/java/com/nativenavj/domain/Shell.java:44 | an unknown first word is refused as "ERROR: Unknown command '<WORD>'" in upper case, with no change |
| CommandShell.SwitchNeedsOnOrOff | src/main/java/com/nativenavj/domain/Shell.java:51-129 | SYS or LLM without ON/OFF is an error and changes nothing |
| CommandShell.ValueNeedsNumber | src/main/java/com/nativenavj/domain/Shell.java:69-111 | HDG, ALT or SPD without a value, or with one that does not parse, is an error and changes nothing |
| CommandShell.HeadingIsNormalised | src/main/java/com/nativenavj/domain/Shell.java:69-83 | a heading is stored only from HDG with a parsed value, lies in [0, 360), points the same way as the value typed, and is the one reported |
| CommandShell.HeadingInRangeKept | src/main/java/com/nativenavj/domain/Shell.java:157-163 | a heading typed in [0, 360) is stored as typed |
| CommandShell.HeadingExamples | src/test/java/com/nativenavj/domain/ShellTest.java:134-151 | -90 is stored as 270 and 450 as 90 |
| CommandShell.AltitudeAndSpeedPassThrough | src/main/java/com/nativenavj/domain/Shell.java:85-111 | ALT and SPD store the parsed value unchanged |
| CommandShell.AskChangesNothing | src/main/java/com/nativenavj/domain/Shell.java:131-152 | ASK never changes the computer or the LLM flag |
| CommandShell.DispatchActionIgnoresText | src/main/java/com/nativenavj/domain/Shell.java:37-45 | the original text matters only to ASK, so the change a command makes depends only on its words |
| CommandShell.ActionIgnoresCase | src/main/java/com/nativenavj/domain/Shell.java:27-28 | the change a command makes does not depend on the letter case it was typed in |
| CommandShell.LowerCaseExample | src/test/java/com/nativenavj/domain/ShellTest.java:153-159 | "sys on" replies "System enabled" and switches the system on |
| CommandShell.ExtraBlanksIgnored | src/main/java/com/nativenavj/domain/Shell.java:27-28 | blanks before, between and after two words do not matter: the command reads as the two upper-cased words |
| CommandShell.TwoWords | src/main/java/com/nativenavj/domain/Shell.java:27-28 | two printable words joined by one blank read as exactly those words, upper-cased |
| CommandShell.Shell.constructor | src/main/java/com/nativenavj/domain/Shell.java:13-16 | the shell wraps the given computer with LLM control off |
| CommandShell.Shell.Perform | src/main/java/com/nativenavj/domain/Shell.java:51-129 | carrying out an action gives exactly the view `After` describes and never touches the computer's state or output |
| CommandShell.Shell.Execute | src/main/java/com/nativenavj/domain/Shell.java:21-49 | the reply is `Interpret`'s and the goal, navigator and LLM flag change only as its action says |
| Safety.ValidateAltitude | src/main/java/com/nativenavj/safety/SafetyGuardrails.java:15-22 | never above 45000; at least ground + 500 when that fits; a request in [ground + 500, 45000] is kept; too low gives min(ground + 500, 45000), too high gives 45000 |
| Safety.ValidateAltitudeIdempotent | src/main/java/com/nativenavj/safety/SafetyGuardrails.java:15-22 | a validated altitude validates to itself, for every ground altitude (also when ground + 500 ft is above the 45000 ft ceiling) |
| Safety.ValidateAltitudeMonotone | src/main/java/com/nativenavj/safety/SafetyGuardrails.java:15-22 | asking for more never yields less |
| Safety.ValidateHeading | src/main/java/com/nativenavj/safety/SafetyGuardrails.java:24-29 | `validateHeading`; ValidateHeadingSpec and WrapAndNormalizeAgree |
| Safety.ValidateHeadingSpec | src/main/java/com/nativenavj/safety/SafetyGuardrails.java:24-29 | the validated heading lies in [0, 360), keeps the bearing and is idempotent |
| Safety.ValidateAirspeed | src/main/java/com/nativenavj/safety/SafetyGuardrails.java:31-37 | never below 65 kt nor below the request; 65 kt or more is kept |
| Safety.ClampAileron | src/main/java/com/nativenavj/safety/SafetyGuardrails.java:39-41 | result in [-1, 1], identity on that range, the nearer bound outside it |
| Safety.ClampElevator | src/main/java/com/nativenavj/safety/SafetyGuardrails.java:43-45 | result in [-1, 1], identity on that range, the nearer bound outside it |
| Safety.ClampThrottle | src/main/java/com/nativenavj/safety/SafetyGuardrails.java:47-49 | result in [0, 1], identity on that range, the nearer bound outside it |
| Safety.ProtectBank | src/main/java/com/nativenavj/safety/SafetyGuardrails.java:51-58 | the bank is returned unchanged; it is flagged critical exactly when beyond 35 degrees either way |
| Scheduling.ToLong | src/main/java/com/nativenavj/control/core/LoopController.java:14 | the `(long)` cast truncates toward zero and saturates at the ends of the long range |
| Scheduling.PeriodNs | src/main/java/com/nativenavj/control/core/LoopController.java:13-15 | the period is 1e9/hz truncated (the largest long at 0 Hz) |
| Scheduling.PeriodExamples | src/main/java/com/nativenavj/control/core/LoopController.java:13-15 | 50 Hz gives 20 ms, 20 Hz gives 50 ms, 3 Hz gives 333333333 ns |
| Scheduling.SleepArguments | src/main/java/com/nativenavj/control/core/LoopController.java:41-44 | the millisecond and nanosecond arguments of the sleep add up to the wait exactly, with the nanoseconds below one millisecond |
| Scheduling.AdvanceTick | src/main/java/com/nativenavj/control/core/LoopController.java:37-54 | one iteration of `run`; characterised by AdvanceTickSpec and NeverMoreThanAPeriodBehind |
| Scheduling.AdvanceTickSpec | src/main/java/com/nativenavj/control/core/LoopController.java:37-54 | the loop sleeps exactly when early, for exactly as long as it is early; up to one period late the tick moves on by one period; later it is reset to the present; it keeps running unless stopped or interrupted while asleep |
| Scheduling.NeverMoreThanAPeriodBehind | src/main/java/com/nativenavj/control/core/LoopController.java:49-54 | with a clock that does not run backwards, the next tick never lags the present by more than one period |
| Scheduling.Schedule | src/main/java/com/nativenavj/control/core/LoopController.java:30-55 | the iterations run until the first one that stops the loop, and every earlier one kept it running |
| Scheduling.ScheduleStaysOnGrid | src/main/java/com/nativenavj/control/core/LoopController.java:37-54 | drift compensation: while no iteration falls more than a period behind the grid, the k-th next tick is exactly start + k periods |
| Scheduling.ScheduleNeverFallsBehind | src/main/java/com/nativenavj/control/core/LoopController.java:37-54 | over a whole run, no next tick lags its iteration's clock by more than one period |
| Scheduling.LoopController.constructor | src/main/java/com/nativenavj/control/core/LoopController.java:10-15 | the period is `PeriodNs(hz)` and the loop starts running |
| Scheduling.LoopController.Stop | src/main/java/com/nativenavj/control/core/LoopController.java:22-24 | stop clears the running flag |
| Scheduling.LoopController.Run | src/main/java/com/nativenavj/control/core/LoopController.java:27-56 | a running loop performs exactly the iterations of `Schedule`, a stopped one none; the step runs once per iteration, the flag ends as the last iteration left it, and it is unchanged when no iteration runs |
| Scheduling.LoopController.Iteration | src/main/java/com/nativenavj/control/core/LoopController.java:31-54 | one pass of the loop body runs the step once and advances as `AdvanceTick` says |
| Sensing.ClimbRate | src/main/java/com/nativenavj/control/Sensor.java:47-50 | the rate times the elapsed time is the altitude change in feet per minute; it is positive or zero exactly when the altitude rose or held |
| Sensing.VerticalSpeed | src/main/java/com/nativenavj/control/Sensor.java:43-52 | 0 on the first sample or when the clock did not advance; otherwise the climb rate over the elapsed time |
| Sensing.VerticalSpeedSign | src/main/java/com/nativenavj/control/Sensor.java:46-52 | once the clock advances, the vertical speed is positive exactly when climbing and zero exactly when holding altitude |
| Sensing.StateOf | src/main/java/com/nativenavj/control/Sensor.java:57-66 | position, heading, altitude and pitch copy across; roll is the bank; yaw is 0; speed is the airspeed; climb is the vertical speed |
| Sensing.Sensor.constructor | src/main/java/com/nativenavj/control/Sensor.java:22-23 | a new sensor has no previous altitude or time |
| Sensing.Sensor.Step | src/main/java/com/nativenavj/control/Sensor.java:32-69 | with no ready connector or no sample nothing changes; otherwise exactly one state is published with the derived vertical speed and the previous altitude and time become the current ones |
| Adapter.AdapterVerticalSpeed | src/main/java/com/nativenavj/adapter/SimConnectAdapter.java:51-58 | the climb rate only when the clock advanced and the previous altitude is non-zero, else 0 |
| Adapter.TelemetryOf | src/main/java/com/nativenavj/adapter/SimConnectAdapter.java:63-70 | altitude, airspeed, heading and pitch copy across; roll is the bank; yaw is 0; rate is the vertical speed |
| Adapter.Deflections | src/main/java/com/nativenavj/adapter/SimConnectAdapter.java:90-101 | aileron is roll/30, elevator pitch/20, rudder rudder/30 and throttle passes through |
| Adapter.ClampedCommandFitsSurfaces | src/main/java/com/nativenavj/adapter/SimConnectAdapter.java:89-99 | a clamped command becomes deflections in [-1, 1] and a throttle in [0, 1] |
| Adapter.DeflectionsDetermineCommand | src/main/java/com/nativenavj/adapter/SimConnectAdapter.java:90-101 | the scaling loses nothing: equal deflections come from equal commands |
| Adapter.SimConnectAdapter.constructor | src/main/java/com/nativenavj/adapter/SimConnectAdapter.java:17-27 | no sample, disconnected, previous altitude 0 and previous time the construction time |
| Adapter.SimConnectAdapter.ReadyMeansAvailable | src/main/java/com/nativenavj/adapter/SimConnectAdapter.java:74-107 | `isReady` and `isAvailable` are the same condition |
| Adapter.SimConnectAdapter.UpdateTelemetry | src/main/java/com/nativenavj/adapter/SimConnectAdapter.java:32-34 | only the latest sample changes |
| Adapter.SimConnectAdapter.SetConnected | src/main/java/com/nativenavj/adapter/SimConnectAdapter.java:39-41 | only the connection flag changes |
| Adapter.SimConnectAdapter.Read | src/main/java/com/nativenavj/adapter/SimConnectAdapter.java:44-71 | before any sample: neutral telemetry and no change; otherwise the mapped telemetry with the derived vertical speed, and the previous altitude and time become the current ones |
| Adapter.SimConnectAdapter.Write | src/main/java/com/nativenavj/adapter/SimConnectAdapter.java:79-102 | nothing when not ready; otherwise exactly one surface call with the command's deflections |
| FallbackParser.IssueCommand | src/main/java/com/nativenavj/strategy/CognitiveOrchestrator.java:68-79 | offline, without an agent, or when the agent fails, the answer is exactly the fallback's |
| FallbackParser.Number | src/main/java/com/nativenavj/strategy/CognitiveOrchestrator.java:91 | `Integer.parseInt(input.replaceAll("[^0-9]", ""))`; NumberIsEchoed and NoNumberNoCall |
| FallbackParser.Fallback | src/main/java/com/nativenavj/strategy/CognitiveOrchestrator.java:81-107 | `processFallback`; characterised by StopWins, DisableOnlyOnStop, NumberIsEchoed, NoNumberNoCall, UnknownIffNoCall and LongKeywordsRedundant |
| FallbackParser.StopWins | src/main/java/com/nativenavj/strategy/CognitiveOrchestrator.java:84-86 | STOP, OFF or MANUAL anywhere disables everything, whatever else the request says |
| FallbackParser.DisableOnlyOnStop | src/main/java/com/nativenavj/strategy/CognitiveOrchestrator.java:84-102 | the controls are disabled exactly when a stop word is present |
| FallbackParser.NumberIsEchoed | src/main/java/com/nativenavj/strategy/CognitiveOrchestrator.java:90-101 | a heading, altitude or airspeed tool receives the number made of all digits of the request, an int, and the reply ends with that number written out, which reads back as the same value |
| FallbackParser.NoNumberNoCall | src/main/java/com/nativenavj/strategy/CognitiveOrchestrator.java:90-106 | a numeric keyword without a usable number calls no tool and is answered as unknown |
| FallbackParser.UnknownIffNoCall | src/main/java/com/nativenavj/strategy/CognitiveOrchestrator.java:81-107 | no tool is called exactly when the reply is the unknown-command text quoting the request |
| FallbackParser.LongKeywordsRedundant | src/main/java/com/nativenavj/strategy/CognitiveOrchestrator.java:90-98 | HEADING, ALTITUDE and AIRSPEED contain HEAD, ALT and SPEED, so the longer keyword of each pair never decides anything |

## Left out

- Threads, `volatile` and the atomicity of `AtomicReference` and `ConcurrentHashMap`: everything is sequential, and a `stop()` from another thread is an input to each loop iteration.
- Logging (LogManager and slf4j), including the guardrails' warnings; `ProtectBank` reports only whether it would log.
- IEEE floating point: rounding, infinities and NaN propagation are not modelled, `double` is `real`.
- Long overflow in nanosecond arithmetic: the only overflow modelled is the saturating `(long)` cast at 0 Hz.
- Unicode case mapping: only ASCII letters are upper-cased.
- The language model, its HTTP availability check and the orchestrator's constructor are not part of this model. Their answer is the `IssueCommand` parameter.
- `FlightTools` is not part of this model: its calls are recorded as `ToolCall` values and assumed not to throw. A throwing tool would turn a keyword branch into the unknown-command reply.
- The native simulator transport (Connector, SimConnect, the bindings and the memory layouts) is not part of this model. The adapter's service connection flag is a field.
- Number formatting in replies: `String.format("%.1f")` and `"%.0f"` texts are not modelled. The shell's replies carry the number (`HeadingSet`, `AltitudeSet`, `AirspeedSet`).
- CommandShell.Shell.Execute: only `NumberFormatException` is modelled. Other exceptions caught at the top of `execute` do not arise in the model.
- The `SystemStatus` and `Target` records are not part of this model. The parser's status is a boolean; `Target` is modelled with pitch, roll, yaw and throttle, as its callers read it.
- Scheduling.LoopController.Run: the module's `step` is abstract in `LoopController`. Its effect is only counted, and the exceptions it may throw are swallowed by the source, so they change nothing.
- Sensing.Sensor.Step: `memory.updateState` does not exist in `Memory`, so published states are recorded in a sequence.
- AxisControl.Controller.Compute: requires the first call or a non-zero time step. The source would divide by zero and produce an infinity or NaN.
- SurfaceControllers.Controllers.Step: requires the clock to have moved since the last tick, for the same reason.
- FlightComputer.Computer.Compute: requires a non-zero time step, for the same reason.
- AxisControl.Controller.Step: requires a non-zero configured frequency, since 1/0 has no real value.
- Actuation.ActuatorLoop.constructor: requires a non-zero frequency, for the same reason.
- The Pitch, Roll, Yaw and Throttle subclasses are folded into `Controller` as an `Axis` selector.
- Their `Loop` base class, which runs `step` on a schedule, is not modelled beyond `LoopController`.
- `Computer`'s unused `TECS_TIME_CONST` is not modelled.
- `Memory.getRunnables` (a read-only view of the map) is not modelled.
- The getters of the typed slots are not modelled beyond the fields themselves.
