/**
 * The grid-to-CRS transform of `NetcdfCRS.getGridToCRS(lower, upper)`: an affine
 * map from grid indices to CRS coordinates, available only when every axis in
 * the requested range is regular with a usable spacing.
 */
module GridTransform {
  import opened Wrappers
  import opened Numerics
  import opened Axes

  /** A square matrix, row by row (`SimpleMatrix`). */
  type Matrix = seq<seq<Double>>

  /** The transform the transform factory builds from an affine matrix. */
  datatype MathTransform = Affine(matrix: Matrix)

  /** `new SimpleMatrix(size)`: the identity matrix of the given size. */
  function Identity(size: nat): (m: Matrix)
    ensures |m| == size && forall r :: 0 <= r < size ==> |m[r]| == size
  {
    seq(size, r => seq(size, c => if r == c then Finite(1.0) else Finite(0.0)))
  }

  /** `SimpleMatrix.setElement`. */
  function SetElement(m: Matrix, row: nat, col: nat, v: Double): Matrix
    requires row < |m| && col < |m[row]|
  {
    m[row := m[row][col := v]]
  }

  /** An axis the transform can be built for: non-null, regular, with a non-zero, non-NaN increment. */
  predicate Gridded(a: NetcdfAxis) {
    a.delegate.Some? && a.delegate.value.regular &&
    a.delegate.value.increment != NaN && a.delegate.value.increment != Finite(0.0)
  }

  /**
   * The first axis of `[lo, hi)` the transform cannot be built for, if any; the
   * source checks the axes in increasing order and stops there.
   */
  function FirstUngridded(axes: seq<NetcdfAxis>, lo: nat, hi: nat): (r: Option<nat>)
    requires lo <= hi <= |axes|
    ensures r.None? <==> forall j :: lo <= j < hi ==> Gridded(axes[j])
    ensures r.Some? ==> lo <= r.value < hi && !Gridded(axes[r.value])
    ensures r.Some? ==> forall j :: lo <= j < r.value ==> Gridded(axes[j])
    decreases hi - lo
  {
    if lo == hi then None
    else if !Gridded(axes[lo]) then Some(lo)
    else FirstUngridded(axes, lo + 1, hi)
  }

  /**
   * Entry (r, c) of the (n+1)x(n+1) matrix for the n axes starting at `lo`:
   * the nice increment of axis lo+r on the diagonal, its nice start in the last
   * column, the identity elsewhere.
   */
  function Entry(axes: seq<NetcdfAxis>, lo: nat, n: nat, r: nat, c: nat): Double
    requires lo + n <= |axes| && r <= n && c <= n
    requires r < n ==> Gridded(axes[lo + r])
  {
    if r < n && c == r then Nice(axes[lo + r].delegate.value.increment)
    else if r < n && c == n then Nice(axes[lo + r].delegate.value.start)
    else if r == c then Finite(1.0)
    else Finite(0.0)
  }

  /** The whole matrix for the axes `[lo, hi)`. */
  function GridMatrix(axes: seq<NetcdfAxis>, lo: nat, hi: nat): Matrix
    requires lo <= hi <= |axes|
    requires forall j :: lo <= j < hi ==> Gridded(axes[j])
  {
    var n := hi - lo;
    seq(n + 1, r requires 0 <= r <= n => seq(n + 1, c requires 0 <= c <= n => Entry(axes, lo, n, r, c)))
  }

  /**
   * What `getGridToCRS(lo, hi)` returns for the stored axes: an illegal range
   * throws, an axis without a usable regular spacing gives no transform (a null
   * axis met first throws), otherwise the affine transform of the whole range.
   */
  function GridToCRSOf(axes: seq<NetcdfAxis>, lo: int, hi: int): (r: Result<Option<MathTransform>>)
    ensures r == Failure(IllegalArgument) <==> lo < 0 || hi > |axes| || hi < lo
    ensures r.Success? && r.value.Some? <==>
      0 <= lo <= hi <= |axes| && forall j :: lo <= j < hi ==> Gridded(axes[j])
    ensures 0 <= lo <= hi <= |axes| && FirstUngridded(axes, lo, hi).Some? ==>
      var j := FirstUngridded(axes, lo, hi).value;
      (axes[j].delegate.None? ==> r == Failure(NullPointer)) &&
      (axes[j].delegate.Some? ==> r == Success(None))
    ensures r.Success? && r.value.Some? ==>
      var m := r.value.value.matrix;
      var n := hi - lo;
      |m| == n + 1 && (forall i :: 0 <= i <= n ==> |m[i]| == n + 1) &&
      (forall i :: 0 <= i < n ==> m[i][i] == Nice(axes[lo + i].delegate.value.increment)) &&
      (forall i :: 0 <= i < n ==> m[i][n] == Nice(axes[lo + i].delegate.value.start)) &&
      m[n][n] == Finite(1.0) &&
      (forall i, j :: 0 <= i <= n && 0 <= j < n && i != j ==> m[i][j] == Finite(0.0)) &&
      (forall j :: 0 <= j < n ==> m[n][j] == Finite(0.0))
  {
    if lo < 0 || hi > |axes| || hi < lo then Failure(IllegalArgument)
    else
      match FirstUngridded(axes, lo, hi)
      case None => Success(Some(Affine(GridMatrix(axes, lo, hi))))
      case Some(j) => if axes[j].delegate.None? then Failure(NullPointer) else Success(None)
  }

  /**
   * Two regular axes (x, y) with spacing 0.1 starting at 0 give the matrix with
   * 0.1 on the diagonal and no offset.
   */
  lemma TenthDegreeGrid(x: CoordinateAxis, y: CoordinateAxis)
    requires y.regular && x.regular && y.increment == x.increment == Finite(0.1)
    requires y.start == x.start == Finite(0.0)
    ensures GridToCRSOf([NetcdfAxis(Some(x)), NetcdfAxis(Some(y))], 0, 2)
         == Success(Some(Affine([[Finite(0.1), Finite(0.0), Finite(0.0)],
                                 [Finite(0.0), Finite(0.1), Finite(0.0)],
                                 [Finite(0.0), Finite(0.0), Finite(1.0)]])))
  {
    NiceSnaps(0.1, 36);
    NiceSnaps(0.0, 0);
    var axes := [NetcdfAxis(Some(x)), NetcdfAxis(Some(y))];
    assert FirstUngridded(axes, 0, 2) == None;
    var m := GridMatrix(axes, 0, 2);
    assert m[0] == [Finite(0.1), Finite(0.0), Finite(0.0)];
    assert m[1] == [Finite(0.0), Finite(0.1), Finite(0.0)];
    assert m[2] == [Finite(0.0), Finite(0.0), Finite(1.0)];
    assert m == [m[0], m[1], m[2]];
  }
}
