/**
 * Arithmetic shared by the control laws: the `Math.max(lo, Math.min(hi, x))`
 * clamp used throughout, Java's truncating conversions, and angles that differ
 * by whole turns.  Java `double` is modelled as `real`; rounding is not.
 */
module Numeric {

  /** `Math.max(lo, Math.min(hi, x))`, the clamp every controller applies. */
  function Clamp(lo: real, hi: real, x: real): (r: real)
    ensures lo <= hi ==> lo <= r <= hi
    ensures lo <= x <= hi ==> r == x
    ensures x < lo ==> r == lo
    ensures lo <= hi < x ==> r == hi
  {
    var m := if x < hi then x else hi;
    if m < lo then lo else m
  }

  lemma {:induction false} ClampIdempotent(lo: real, hi: real, x: real)
    requires lo <= hi
    ensures Clamp(lo, hi, Clamp(lo, hi, x)) == Clamp(lo, hi, x)
  {
  }

  lemma {:induction false} ClampMonotone(lo: real, hi: real, x: real, y: real)
    requires x <= y
    ensures Clamp(lo, hi, x) <= Clamp(lo, hi, y)
  {
  }

  /** Java's `(long)` / `(int)` cast of a finite value: truncation toward zero. */
  function Trunc(x: real): (t: int)
    ensures 0.0 <= x ==> 0 <= t && t as real <= x < t as real + 1.0
    ensures x < 0.0 ==> t <= 0 && t as real - 1.0 < x <= t as real
  {
    if x >= 0.0 then x.Floor else -((-x).Floor)
  }

  /** `d` is a whole number of turns of 360 degrees. */
  predicate WholeTurns(d: real) {
    (d / 360.0).Floor as real == d / 360.0
  }

  lemma {:induction false} WholeTurnsOfInt(k: int)
    ensures WholeTurns(360.0 * k as real)
  {
    assert (360.0 * k as real) / 360.0 == k as real;
  }

  lemma {:induction false} WholeTurnsShift(d: real, k: int)
    ensures WholeTurns(d) <==> WholeTurns(d + 360.0 * k as real)
  {
    var x := d / 360.0;
    assert (d + 360.0 * k as real) / 360.0 == x + k as real;
    assert (x + k as real).Floor == x.Floor + k;
  }

  lemma {:induction false} WholeTurnsSum(a: real, b: real)
    requires WholeTurns(a) && WholeTurns(b)
    ensures WholeTurns(a + b)
  {
    var k := (b / 360.0).Floor;
    assert b == 360.0 * k as real;
    WholeTurnsShift(a, k);
  }

  lemma {:induction false} WholeTurnsNeg(a: real)
    requires WholeTurns(a)
    ensures WholeTurns(-a)
  {
    var k := (a / 360.0).Floor;
    assert -a == 360.0 * (-k) as real;
    WholeTurnsOfInt(-k);
  }
}
