/**
 * The safety guardrails (`safety/SafetyGuardrails.java`): stateless checks
 * that keep a requested altitude, heading or airspeed inside hard limits and
 * clamp surface deflections.  Their warning and error log lines are left
 * out; `ProtectBank` reports whether it would log the critical-bank error.
 */
module Safety {
  import opened Numeric
  import opened Headings

  const MinAltitude: real := 500.0
  const MaxAltitude: real := 45000.0
  const MinAirspeed: real := 65.0
  const MaxBank: real := 30.0

  /** `validateAltitude`: at least 500 ft above the ground, then at most 45000 ft. */
  function ValidateAltitude(requested: real, groundAltitude: real): (r: real)
    ensures r <= MaxAltitude
    ensures groundAltitude + MinAltitude <= MaxAltitude ==> groundAltitude + MinAltitude <= r
    ensures groundAltitude + MinAltitude <= requested <= MaxAltitude ==> r == requested
    ensures requested < groundAltitude + MinAltitude ==> r == Min(groundAltitude + MinAltitude, MaxAltitude)
    ensures MaxAltitude < requested ==> r == MaxAltitude
  {
    var safeAlt := if requested < groundAltitude + MinAltitude then groundAltitude + MinAltitude else requested;
    Min(safeAlt, MaxAltitude)
  }

  /** `Math.min`. */
  function Min(a: real, b: real): (r: real)
    ensures r <= a && r <= b && (r == a || r == b)
  {
    if a <= b then a else b
  }

  /** A validated altitude is validated again to itself. */
  lemma {:induction false} ValidateAltitudeIdempotent(requested: real, groundAltitude: real)
    ensures ValidateAltitude(ValidateAltitude(requested, groundAltitude), groundAltitude)
            == ValidateAltitude(requested, groundAltitude)
  {
  }

  /** Asking for more never yields less. */
  lemma {:induction false} ValidateAltitudeMonotone(r1: real, r2: real, groundAltitude: real)
    requires r1 <= r2
    ensures ValidateAltitude(r1, groundAltitude) <= ValidateAltitude(r2, groundAltitude)
  {
  }

  /** `validateHeading`, the same normalisation as the shell's. */
  function ValidateHeading(requested: real): real {
    NormalizeHeading(requested)
  }

  /** A validated heading lies in [0, 360), keeps the bearing, and is its own validation. */
  lemma {:induction false} ValidateHeadingSpec(requested: real)
    ensures 0.0 <= ValidateHeading(requested) < 360.0
    ensures WholeTurns(requested - ValidateHeading(requested))
    ensures ValidateHeading(ValidateHeading(requested)) == ValidateHeading(requested)
  {
    NormalizeHeadingSpec(requested);
    NormalizeHeadingIdempotent(requested);
  }

  /** `validateAirspeed`: never below 65 kt. */
  function ValidateAirspeed(requested: real): (r: real)
    ensures MinAirspeed <= r && requested <= r
    ensures MinAirspeed <= requested ==> r == requested
    ensures requested < MinAirspeed ==> r == MinAirspeed
  {
    if requested < MinAirspeed then MinAirspeed else requested
  }

  /** `clampAileron`. */
  function ClampAileron(aileron: real): (r: real)
    ensures -1.0 <= r <= 1.0
    ensures -1.0 <= aileron <= 1.0 ==> r == aileron
    ensures aileron < -1.0 ==> r == -1.0
    ensures 1.0 < aileron ==> r == 1.0
  {
    Clamp(-1.0, 1.0, aileron)
  }

  /** `clampElevator`. */
  function ClampElevator(elevator: real): (r: real)
    ensures -1.0 <= r <= 1.0
    ensures -1.0 <= elevator <= 1.0 ==> r == elevator
    ensures elevator < -1.0 ==> r == -1.0
    ensures 1.0 < elevator ==> r == 1.0
  {
    Clamp(-1.0, 1.0, elevator)
  }

  /** `clampThrottle`. */
  function ClampThrottle(throttle: real): (r: real)
    ensures 0.0 <= r <= 1.0
    ensures 0.0 <= throttle <= 1.0 ==> r == throttle
    ensures throttle < 0.0 ==> r == 0.0
    ensures 1.0 < throttle ==> r == 1.0
  {
    Clamp(0.0, 1.0, throttle)
  }

  /** What `protectBank` returns, and whether it logs the emergency-levelling error. */
  datatype BankCheck = BankCheck(bank: real, critical: bool)

  /** `protectBank`: the bank is passed through; beyond 35 degrees either way it is critical. */
  function ProtectBank(currentBank: real): (r: BankCheck)
    ensures r.bank == currentBank
    ensures r.critical <==> (currentBank < -(MaxBank + 5.0) || MaxBank + 5.0 < currentBank)
  {
    var magnitude := if currentBank < 0.0 then -currentBank else currentBank;
    BankCheck(currentBank, magnitude > MaxBank + 5.0)
  }
}
