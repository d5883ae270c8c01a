/**
 * The netCDF axes the CRS wrapper consumes: read-only values provided by the
 * netCDF library, and the `NetcdfAxis` wrapper stored by `NetcdfCRS`.
 */
module Axes {
  import opened Wrappers
  import opened Numerics

  /** `ucar.nc2.constants.AxisType`. */
  datatype AxisType =
    | RunTime | Ensemble | Time | GeoX | GeoY | GeoZ | Lat | Lon | Height | Pressure
    | RadialAzimuth | RadialDistance | RadialElevation | Spectral | TimeOffset

  /**
   * A one-dimensional netCDF axis (`CoordinateAxis1D`): its type tag (null in
   * some files), its unit string, whether its values form an arithmetic
   * progression, the first value, the spacing and the number of values.
   */
  datatype CoordinateAxis = CoordinateAxis(
    axisType: Option<AxisType>,
    unitsString: string,
    regular: bool,
    start: Double,
    increment: Double,
    size: nat)

  /** An entry of a netCDF axis list; `None` stands for a null element. */
  type AxisRef = Option<CoordinateAxis>

  /** `NetcdfAxis`: the GeoAPI axis wrapping one netCDF axis (possibly null). */
  datatype NetcdfAxis = NetcdfAxis(delegate: AxisRef)

  /** True when the entry is a non-null axis whose type is `t1` or `t2`. */
  predicate HasType(a: AxisRef, t1: AxisType, t2: AxisType) {
    a.Some? && a.value.axisType.Some? && (a.value.axisType.value == t1 || a.value.axisType.value == t2)
  }

  /** The netCDF list `s` wrapped and put in reverse order, as `NetcdfCRS` stores it. */
  function Reversed(s: seq<AxisRef>): seq<NetcdfAxis> {
    if s == [] then [] else Reversed(s[1..]) + [NetcdfAxis(s[0])]
  }

  /** Reversal puts the k-th stored axis at position n-1-k of the netCDF list. */
  lemma {:induction false} ReversedAt(s: seq<AxisRef>, k: nat)
    requires k < |s|
    ensures |Reversed(s)| == |s| && Reversed(s)[k] == NetcdfAxis(s[|s| - 1 - k])
  {
    if |s| > 1 {
      ReversedAt(s[1..], if k < |s| - 1 then k else 0);
    }
  }

  /** Reversal preserves the length. */
  lemma {:induction false} ReversedLength(s: seq<AxisRef>)
    ensures |Reversed(s)| == |s|
  {
    if s != [] {
      ReversedLength(s[1..]);
    }
  }

  /** Reversing a concatenation concatenates the reversed parts in the opposite order. */
  lemma {:induction false} ReversedAppend(a: seq<AxisRef>, b: seq<AxisRef>)
    ensures Reversed(a + b) == Reversed(b) + Reversed(a)
  {
    if a == [] {
      assert a + b == b;
    } else {
      assert (a + b)[1..] == a[1..] + b;
      ReversedAppend(a[1..], b);
    }
  }

  /** Splitting the list at `l` splits the reversal at |s| - l. */
  lemma ReversedSplit(s: seq<AxisRef>, l: nat, u: nat)
    requires l <= u <= |s|
    ensures Reversed(s[..u]) == Reversed(s[l..u]) + Reversed(s[..l])
  {
    assert s[..u] == s[..l] + s[l..u];
    ReversedAppend(s[..l], s[l..u]);
  }

  /** A two-axis netCDF list, reversed. */
  lemma ReversedPair(a: AxisRef, b: AxisRef)
    ensures Reversed([a, b]) == [NetcdfAxis(b), NetcdfAxis(a)]
  {
    assert [a, b][1..] == [b];
    assert [b][1..] == [];
    assert Reversed([b]) == [NetcdfAxis(b)];
  }

  /** A four-axis netCDF list, reversed. */
  lemma ReversedFour(a: AxisRef, b: AxisRef, c: AxisRef, d: AxisRef)
    ensures Reversed([a, b, c, d]) == [NetcdfAxis(d), NetcdfAxis(c), NetcdfAxis(b), NetcdfAxis(a)]
  {
    assert [a, b, c, d][1..] == [b, c, d];
    assert [b, c, d][1..] == [c, d];
    ReversedPair(c, d);
  }
}
