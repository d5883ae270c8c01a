/**
 * Java doubles and the rounding work-around `NetcdfCRS.nice`.
 * Finite doubles are modelled as exact reals (no binary rounding); NaN and the
 * two infinities are kept as separate values because the source tests for NaN.
 */
module Numerics {

  datatype Double = NaN | PosInf | NegInf | Finite(v: real)

  /** The tolerance `NetcdfCRS.EPS`. */
  const EPS: real := 0.0000000001

  function Abs(x: real): real { if x < 0.0 then -x else x }

  /**
   * `Math.rint`: the integer nearest to `x`, the even one when `x` lies
   * exactly half-way between two integers.
   */
  function Rint(x: real): (r: int)
    ensures -0.5 <= x - r as real <= 0.5
    ensures Abs(x - r as real) == 0.5 ==> r % 2 == 0
    ensures x == x.Floor as real ==> r == x.Floor
  {
    var f := x.Floor;
    var d := x - f as real;
    if d < 0.5 then f
    else if d > 0.5 then f + 1
    else if f % 2 == 0 then f
    else f + 1
  }

  /** The multiple k/360. */
  function Frac360(k: int): real { k as real / 360.0 }

  /** True when `v` is an exact multiple of 1/360. */
  ghost predicate Is360th(v: real) {
    exists k: int :: v == Frac360(k)
  }

  /**
   * `NetcdfCRS.nice`: snaps a value to the nearest multiple of 1/360 when it
   * is within EPS/360 of it, otherwise returns it unchanged. NaN and the
   * infinities go through unchanged (the tolerance test is false for them).
   */
  function Nice(x: Double): (r: Double)
    ensures r == x || (x.Finite? && r.Finite? && Is360th(r.v) && Abs(x.v - r.v) <= EPS / 360.0)
    ensures !x.Finite? ==> r == x
  {
    match x
    case Finite(v) =>
      var tf := v * 360.0;
      var ti := Rint(tf);
      if Abs(tf - ti as real) <= EPS then Finite(Frac360(ti)) else x
    case _ => x
  }

  /** A value within EPS of a multiple k/360 (scaled by 360) is snapped to exactly k/360. */
  lemma NiceSnaps(v: real, k: int)
    requires Abs(v * 360.0 - k as real) <= EPS
    ensures Nice(Finite(v)) == Finite(Frac360(k))
  {
    var tf := v * 360.0;
    var ti := Rint(tf);
    assert -0.5 <= tf - ti as real <= 0.5;
    assert -1.0 < ti as real - k as real < 1.0;
    assert ti == k;
  }

  /** A value whose 360-fold is farther than EPS from every integer is left unchanged. */
  lemma NiceKeeps(v: real)
    requires forall k: int :: EPS / 360.0 < Abs(v - Frac360(k))
    ensures Nice(Finite(v)) == Finite(v)
  {
    var ti := Rint(v * 360.0);
    assert EPS / 360.0 < Abs(v - Frac360(ti));
    assert v * 360.0 - ti as real == 360.0 * (v - Frac360(ti));
  }

  /** `nice` is idempotent: a snapped value is a fixed point. */
  lemma NiceIdempotent(x: Double)
    ensures Nice(Nice(x)) == Nice(x)
  {
    if x.Finite? && Nice(x) != x {
      var k: int :| Nice(x).v == Frac360(k);
      assert Nice(x).v * 360.0 == k as real;
      NiceSnaps(Nice(x).v, k);
    }
  }

  /** The double closest to 1/3 (stored imprecisely in files) is snapped back to exactly 1/3. */
  lemma NiceOneThird(v: real)
    requires Abs(v - 1.0 / 3.0) <= 0.0000000000001
    ensures Nice(Finite(v)) == Finite(1.0 / 3.0)
  {
    assert Abs(v * 360.0 - 120.0) <= EPS;
    NiceSnaps(v, 120);
  }

  /** 0.123456789 is not near any multiple of 1/360 and is left unchanged. */
  lemma NiceKeepsExample()
    ensures Nice(Finite(0.123456789)) == Finite(0.123456789)
  {
    var tf := 0.123456789 * 360.0;
    assert tf == 44.44444404;
    assert tf.Floor == 44;
  }
}
