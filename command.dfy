/** The command sent to the aircraft (`domain/Command.java`). */
module Commands {
  import opened Numeric

  /** Pitch and roll in degrees, throttle in [0, 1], rudder in degrees. */
  datatype Command = Command(pitch: real, roll: real, throttle: real, rudder: real)

  /** The safe ranges `clamp` enforces. */
  predicate InRange(c: Command) {
    -20.0 <= c.pitch <= 20.0 && -30.0 <= c.roll <= 30.0
    && 0.0 <= c.throttle <= 1.0 && -30.0 <= c.rudder <= 30.0
  }

  /** `Command.neutral()`: level flight, idle throttle. */
  function Neutral(): (c: Command)
    ensures c.pitch == c.roll == c.throttle == c.rudder == 0.0
    ensures InRange(c)
  {
    Command(0.0, 0.0, 0.0, 0.0)
  }

  /**
   * `Command.clamp()`: every field is forced into its range, a field already
   * in range is kept, and each field depends only on the matching input field.
   */
  function ClampCommand(c: Command): (r: Command)
    ensures InRange(r)
    ensures InRange(c) ==> r == c
    ensures c.pitch < -20.0 ==> r.pitch == -20.0
    ensures c.pitch > 20.0 ==> r.pitch == 20.0
    ensures c.roll < -30.0 ==> r.roll == -30.0
    ensures c.roll > 30.0 ==> r.roll == 30.0
    ensures c.throttle < 0.0 ==> r.throttle == 0.0
    ensures c.throttle > 1.0 ==> r.throttle == 1.0
    ensures c.rudder < -30.0 ==> r.rudder == -30.0
    ensures c.rudder > 30.0 ==> r.rudder == 30.0
  {
    Command(
      Clamp(-20.0, 20.0, c.pitch),
      Clamp(-30.0, 30.0, c.roll),
      Clamp(0.0, 1.0, c.throttle),
      Clamp(-30.0, 30.0, c.rudder))
  }

  /** Clamping twice is clamping once. */
  lemma {:induction false} ClampCommandIdempotent(c: Command)
    ensures ClampCommand(ClampCommand(c)) == ClampCommand(c)
  {
  }

  /** Each output field depends only on the matching input field. */
  lemma {:induction false} ClampCommandFieldwise(a: Command, b: Command)
    ensures a.pitch == b.pitch ==> ClampCommand(a).pitch == ClampCommand(b).pitch
    ensures a.roll == b.roll ==> ClampCommand(a).roll == ClampCommand(b).roll
    ensures a.throttle == b.throttle ==> ClampCommand(a).throttle == ClampCommand(b).throttle
    ensures a.rudder == b.rudder ==> ClampCommand(a).rudder == ClampCommand(b).rudder
  {
  }
}
