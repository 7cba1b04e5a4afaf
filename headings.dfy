/**
 * Heading arithmetic.  The shell and the safety guardrails normalise a
 * heading into [0, 360) with Java's `%` followed by `+ 360` for negative
 * remainders; the TECS module wraps a heading error into [-180, 180] with two
 * while loops.  All three keep the bearing: the result differs from the input
 * by whole turns.
 */
module Headings {
  import opened Numeric

  /** Java's `h % 360.0`: the remainder of truncated division, with the sign of `h`. */
  function Rem360(h: real): (r: real)
    ensures -360.0 < r < 360.0
    ensures 0.0 <= h ==> 0.0 <= r
    ensures h < 0.0 ==> r <= 0.0
    ensures WholeTurns(h - r)
  {
    var t := Trunc(h / 360.0);
    WholeTurnsOfInt(t);
    h - 360.0 * t as real
  }

  /** `normalizeHeading` / `validateHeading`: `h % 360`, plus 360 when negative. */
  function NormalizeHeading(h: real): real {
    var r := Rem360(h);
    if r < 0.0 then r + 360.0 else r
  }

  /** The result lies in [0, 360) and points the same way as the input. */
  lemma {:induction false} NormalizeHeadingSpec(h: real)
    ensures 0.0 <= NormalizeHeading(h) < 360.0
    ensures WholeTurns(h - NormalizeHeading(h))
  {
    var r := Rem360(h);
    if r < 0.0 {
      WholeTurnsShift(h - r, -1);
      assert h - (r + 360.0) == (h - r) + 360.0 * (-1) as real;
    }
  }

  /** A heading already in [0, 360) is left as it is. */
  lemma {:induction false} NormalizeHeadingFixesRange(h: real)
    requires 0.0 <= h < 360.0
    ensures NormalizeHeading(h) == h
  {
    assert Trunc(h / 360.0) == 0;
  }

  lemma {:induction false} NormalizeHeadingIdempotent(h: real)
    ensures NormalizeHeading(NormalizeHeading(h)) == NormalizeHeading(h)
  {
    NormalizeHeadingSpec(h);
    NormalizeHeadingFixesRange(NormalizeHeading(h));
  }

  /** Two readings of the same bearing normalise to the same heading. */
  lemma {:induction false} NormalizeHeadingSameBearing(a: real, b: real)
    requires WholeTurns(a - b)
    ensures NormalizeHeading(a) == NormalizeHeading(b)
  {
    NormalizeHeadingSpec(a);
    NormalizeHeadingSpec(b);
    var na, nb := NormalizeHeading(a), NormalizeHeading(b);
    // na - nb = (a - b) - (a - na) + (b - nb) is a whole number of turns in (-360, 360)
    WholeTurnsNeg(a - na);
    WholeTurnsSum(a - b, -(a - na));
    WholeTurnsSum(a - b - (a - na), b - nb);
    assert na - nb == (a - b) - (a - na) + (b - nb);
    var k := ((na - nb) / 360.0).Floor;
    assert na - nb == 360.0 * k as real;
  }

  /** The first TECS loop: `while (e > 180) e -= 360`. */
  function SubtractTurns(e: real): (r: real)
    ensures r <= 180.0
    ensures e > 180.0 ==> -180.0 < r
    ensures e <= 180.0 ==> r == e
    ensures WholeTurns(e - r)
    decreases if e > 180.0 then (e - 180.0).Floor + 1 else 0
  {
    if e > 180.0 then
      var r := SubtractTurns(e - 360.0);
      WholeTurnsShift(e - 360.0 - r, 1);
      r
    else
      WholeTurnsOfInt(0);
      e
  }

  /** The second TECS loop: `while (e < -180) e += 360`. */
  function AddTurns(e: real): (r: real)
    ensures -180.0 <= r
    ensures e < -180.0 ==> r < 180.0
    ensures e >= -180.0 ==> r == e
    ensures WholeTurns(e - r)
    decreases if e < -180.0 then (-180.0 - e).Floor + 1 else 0
  {
    if e < -180.0 then
      var r := AddTurns(e + 360.0);
      WholeTurnsShift(e + 360.0 - r, -1);
      r
    else
      WholeTurnsOfInt(0);
      e
  }

  /** The heading error after both TECS loops. */
  function WrapHeadingError(e: real): real {
    AddTurns(SubtractTurns(e))
  }

  /**
   * The wrapped error lies in [-180, 180] and differs from the raw error by
   * whole turns; an error already in range is untouched.
   */
  lemma {:induction false} WrapHeadingErrorSpec(e: real)
    ensures -180.0 <= WrapHeadingError(e) <= 180.0
    ensures WholeTurns(e - WrapHeadingError(e))
    ensures -180.0 <= e <= 180.0 ==> WrapHeadingError(e) == e
  {
    var s := SubtractTurns(e);
    WholeTurnsSum(e - s, s - AddTurns(s));
  }

  /**
   * The shared fact behind all three: the normalised heading and the wrapped
   * error are both the input moved by whole turns, so normalising either
   * recovers the normalised input.
   */
  lemma {:induction false} WrapAndNormalizeAgree(e: real)
    ensures NormalizeHeading(WrapHeadingError(e)) == NormalizeHeading(e)
  {
    WrapHeadingErrorSpec(e);
    var w := WrapHeadingError(e);
    WholeTurnsNeg(e - w);
    assert w - e == -(e - w);
    NormalizeHeadingSameBearing(w, e);
  }
}
