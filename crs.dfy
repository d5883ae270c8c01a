/**
 * `NetcdfCRS` and its component subclasses: a GeoAPI coordinate reference system
 * over the axes of a netCDF coordinate system, stored in reverse order, with the
 * lazily computed grid-to-CRS transform and projection.
 */
module Crs {
  import opened Wrappers
  import opened Numerics
  import opened Axes
  import opened Classification
  import opened GridTransform

  /** `NetcdfEllipsoid.SPHERE`, the one datum of geographic and projected components. */
  datatype Ellipsoid = Sphere

  /** A netCDF projection, as the netCDF coordinate system provides it. */
  datatype ProjectionRef = ProjectionRef(name: string)

  /** `NetcdfProjection`: the GeoAPI conversion wrapping a netCDF projection. */
  datatype Projection = NetcdfProjection(netcdf: ProjectionRef, baseDatum: Ellipsoid)

  /**
   * The netCDF `CoordinateSystem`, as far as the wrapper reads it: its name, its
   * axes (slowest varying first), the two catch-all tests of the netCDF library
   * and its projection, if any.
   */
  datatype CoordinateSystem = CoordinateSystem(
    name: string,
    coordinateAxes: seq<AxisRef>,
    isLatLon: bool,
    isGeoXY: bool,
    projection: Option<ProjectionRef>)

  /** Which class of the source an instance belongs to, with that class's own final fields. */
  datatype Kind =
    | Plain
    | Geographic(datum: Ellipsoid)
    | Projected(datum: Ellipsoid)
    | Vertical(datumType: VerticalDatumType)
    | Temporal(origin: int)
    | Compound(components: seq<NetcdfCRS>)

  /** The component a group of the scan becomes. */
  function KindOf(c: Category): Kind {
    match c
    case VerticalGroup(dt) => Vertical(dt)
    case TemporalGroup(origin) => Temporal(origin)
    case GeographicGroup => Geographic(Sphere)
    case ProjectedGroup => Projected(Sphere)
  }

  /** The CRS `wrap` falls back to when it cannot split the axes itself. */
  function FallbackKind(cs: CoordinateSystem): Kind {
    if cs.isLatLon then Geographic(Sphere)
    else if cs.isGeoXY then Projected(Sphere)
    else Plain
  }

  /** The axes of the components, concatenated in order. */
  ghost function ComponentAxes(components: seq<NetcdfCRS>): seq<NetcdfAxis> {
    if components == [] then [] else components[0].Axes + ComponentAxes(components[1..])
  }

  /** The number of axes of the components, summed. */
  ghost function SumDimensions(components: seq<NetcdfCRS>): nat {
    if components == [] then 0 else |components[0].Axes| + SumDimensions(components[1..])
  }

  /** Appending a component appends its axes. */
  lemma {:induction false} ComponentAxesSnoc(components: seq<NetcdfCRS>, c: NetcdfCRS)
    ensures ComponentAxes(components + [c]) == ComponentAxes(components) + c.Axes
  {
    if components == [] {
      assert ComponentAxes([c]) == c.Axes + ComponentAxes([]);
    } else {
      assert (components + [c])[1..] == components[1..] + [c];
      ComponentAxesSnoc(components[1..], c);
    }
  }

  /** A compound's dimension is the sum of its components' dimensions. */
  lemma {:induction false} ComponentAxesLength(components: seq<NetcdfCRS>)
    ensures |ComponentAxes(components)| == SumDimensions(components)
  {
    if components != [] {
      ComponentAxesLength(components[1..]);
    }
  }

  /** `c` is the component built for group `g` of the netCDF list `list` of `cs`. */
  ghost predicate Built(c: NetcdfCRS, cs: CoordinateSystem, list: seq<AxisRef>, g: Group) {
    c.cs == cs && c.kind == KindOf(g.category) &&
    g.lo <= g.hi <= |list| && c.Axes == Reversed(list[g.lo..g.hi])
  }

  /** Components built group by group hold the axes of the groups, in group order. */
  lemma {:induction false} BuiltAxes(components: seq<NetcdfCRS>, cs: CoordinateSystem, list: seq<AxisRef>, gs: seq<Group>)
    requires |components| == |gs|
    requires forall k :: 0 <= k < |gs| ==> Built(components[k], cs, list, gs[k])
    ensures forall g :: g in gs ==> g.lo <= g.hi <= |list|
    ensures ComponentAxes(components) == GroupAxes(list, gs)
  {
    if gs != [] {
      assert Built(components[0], cs, list, gs[0]);
      BuiltAxes(components[1..], cs, list, gs[1..]);
    }
  }

  /** `groups` found so far, in front of the outcome of the rest of the scan. */
  function Then(groups: seq<Group>, rest: Outcome): Outcome {
    match rest
    case Split(gs) => Split(groups + gs)
    case _ => rest
  }

  lemma ThenPrepend(groups: seq<Group>, g: Group, rest: Outcome)
    ensures Then(groups, Prepend(g, rest)) == Then(groups + [g], rest)
  {
    if rest.Split? {
      assert groups + ([g] + rest.groups) == (groups + [g]) + rest.groups;
    }
  }

  lemma SingletonSlice(axes: seq<AxisRef>, i: nat)
    requires i < |axes|
    ensures axes[i..i + 1] == [axes[i]]
  {
  }

  /** A group found at the axis below `m` extends the groups found so far. */
  lemma ScanExtends(axes: seq<AxisRef>, n: nat, m: nat, dateOrigin: string -> Option<int>, groups: seq<Group>, g: Group)
    requires 0 < m <= n <= |axes|
    requires Classify(axes, n, dateOrigin) == Then(groups, Classify(axes, m, dateOrigin))
    requires Step(axes, m, dateOrigin) == Success(Some(g))
    ensures g.lo < m
    ensures Classify(axes, n, dateOrigin) == Then(groups + [g], Classify(axes, g.lo, dateOrigin))
  {
    ThenPrepend(groups, g, Classify(axes, g.lo, dateOrigin));
  }

  /** An exception at the axis below `m` is the outcome of the whole scan. */
  lemma ScanThrows(axes: seq<AxisRef>, n: nat, m: nat, dateOrigin: string -> Option<int>, groups: seq<Group>)
    requires 0 < m <= n <= |axes|
    requires Classify(axes, n, dateOrigin) == Then(groups, Classify(axes, m, dateOrigin))
    requires Step(axes, m, dateOrigin).Failure?
    ensures Classify(axes, n, dateOrigin) == Thrown(Step(axes, m, dateOrigin).error)
  {
  }

  /** An unclassifiable axis below `m` aborts the whole scan. */
  lemma ScanAborts(axes: seq<AxisRef>, n: nat, m: nat, dateOrigin: string -> Option<int>, groups: seq<Group>)
    requires 0 < m <= n <= |axes|
    requires Classify(axes, n, dateOrigin) == Then(groups, Classify(axes, m, dateOrigin))
    requires Step(axes, m, dateOrigin) == Success(None)
    ensures Classify(axes, n, dateOrigin) == Unsplit
  {
  }

  class NetcdfCRS {
    /** The wrapped netCDF coordinate system. */
    const cs: CoordinateSystem
    /** The axes, in the reverse of the netCDF order. */
    const axes: array<NetcdfAxis>
    /** The subclass of this instance, and its own fields. */
    const kind: Kind
    /** Cache of the full-range grid-to-CRS transform; `None` until one is found. */
    var gridToCRS: Option<MathTransform>
    /** For a projected CRS, the projection, created when first needed. */
    var projection: Option<Projection>

    /** The axes, as a value. */
    ghost const Axes: seq<NetcdfAxis>

    ghost predicate Valid()
      reads this, axes
    {
      axes[..] == Axes &&
      (kind.Vertical? || kind.Temporal? ==> |Axes| == 1) &&
      (kind.Compound? ==> Axes == ComponentAxes(kind.components)) &&
      (gridToCRS.Some? ==> GridToCRSOf(Axes, 0, |Axes|) == Success(gridToCRS)) &&
      (projection.Some? ==>
         kind.Projected? && cs.projection.Some? && projection.value == NetcdfProjection(cs.projection.value, kind.datum))
    }

    /** Wraps the netCDF axes `list` in a fresh array, in reverse order. */
    static method ReverseAxes(list: seq<AxisRef>) returns (a: array<NetcdfAxis>)
      ensures fresh(a) && a[..] == Reversed(list)
    {
      var dimension := |list|;
      a := new NetcdfAxis[dimension];
      for i := 0 to dimension
        invariant forall k :: dimension - i <= k < dimension ==> a[k] == NetcdfAxis(list[dimension - 1 - k])
      {
        a[(dimension - 1) - i] := NetcdfAxis(list[i]);
      }
      ReversedLength(list);
      forall k | 0 <= k < dimension
        ensures a[k] == Reversed(list)[k]
      {
        ReversedAt(list, k);
      }
    }

    /** A CRS over the given netCDF axes, kept in reverse order. */
    constructor (cs: CoordinateSystem, list: seq<AxisRef>)
      ensures Valid() && fresh(axes)
      ensures this.cs == cs && kind == Plain && Axes == Reversed(list)
      ensures gridToCRS.None? && projection.None?
    {
      this.cs := cs;
      var a := ReverseAxes(list);
      axes := a;
      Axes := a[..];
      kind := Plain;
      gridToCRS := None;
      projection := None;
    }

    /** The geographic component over the given netCDF axes. */
    constructor Geographic(datum: Ellipsoid, cs: CoordinateSystem, list: seq<AxisRef>)
      ensures Valid() && fresh(axes)
      ensures this.cs == cs && kind == Kind.Geographic(datum) && Axes == Reversed(list)
      ensures gridToCRS.None? && projection.None?
    {
      this.cs := cs;
      var a := ReverseAxes(list);
      axes := a;
      Axes := a[..];
      kind := Kind.Geographic(datum);
      gridToCRS := None;
      projection := None;
    }

    /** The projected component over the given netCDF axes; its projection is created later. */
    constructor Projected(datum: Ellipsoid, cs: CoordinateSystem, list: seq<AxisRef>)
      ensures Valid() && fresh(axes)
      ensures this.cs == cs && kind == Kind.Projected(datum) && Axes == Reversed(list)
      ensures gridToCRS.None? && projection.None?
    {
      this.cs := cs;
      var a := ReverseAxes(list);
      axes := a;
      Axes := a[..];
      kind := Kind.Projected(datum);
      gridToCRS := None;
      projection := None;
    }

    /** The vertical component over one axis; the datum type follows the axis type. */
    constructor Vertical(cs: CoordinateSystem, axis: CoordinateAxis)
      requires axis.axisType.Some?
      ensures Valid() && fresh(axes)
      ensures this.cs == cs && kind == Kind.Vertical(VerticalDatumTypeOf(axis.axisType.value))
      ensures Axes == Reversed([Some(axis)])
      ensures gridToCRS.None? && projection.None?
    {
      this.cs := cs;
      var a := ReverseAxes([Some(axis)]);
      axes := a;
      Axes := a[..];
      kind := Kind.Vertical(VerticalDatumTypeOf(axis.axisType.value));
      gridToCRS := None;
      projection := None;
    }

    /** The temporal component over one axis, whose unit gave the epoch `origin`. */
    constructor Temporal(cs: CoordinateSystem, axis: CoordinateAxis, origin: int)
      ensures Valid() && fresh(axes)
      ensures this.cs == cs && kind == Kind.Temporal(origin) && Axes == Reversed([Some(axis)])
      ensures gridToCRS.None? && projection.None?
    {
      this.cs := cs;
      var a := ReverseAxes([Some(axis)]);
      axes := a;
      Axes := a[..];
      kind := Kind.Temporal(origin);
      gridToCRS := None;
      projection := None;
    }

    /**
     * Builds the temporal component: the axis unit must parse as "<unit> since
     * <epoch>", otherwise construction fails with IllegalArgumentException.
     */
    static method NewTemporal(cs: CoordinateSystem, axis: CoordinateAxis, dateOrigin: string -> Option<int>)
      returns (r: Result<NetcdfCRS>)
      ensures dateOrigin(axis.unitsString).None? ==> r == Failure(IllegalArgument)
      ensures dateOrigin(axis.unitsString).Some? ==>
        r.Success? && r.value.Valid() && fresh(r.value) && r.value.cs == cs &&
        r.value.kind == Kind.Temporal(dateOrigin(axis.unitsString).value) && r.value.Axes == Reversed([Some(axis)])
    {
      var unit := dateOrigin(axis.unitsString);
      if unit.None? {
        return Failure(IllegalArgument);
      }
      var c := new NetcdfCRS.Temporal(cs, axis, unit.value);
      r := Success(c);
    }

    /** The compound CRS: the axes of the components concatenated, and the components in order. */
    constructor Compound(cs: CoordinateSystem, components: seq<NetcdfCRS>)
      requires forall c :: c in components ==> c.Valid()
      ensures Valid() && fresh(axes)
      ensures this.cs == cs && kind == Kind.Compound(components) && Axes == ComponentAxes(components)
      ensures gridToCRS.None? && projection.None?
    {
      this.cs := cs;
      var list: seq<NetcdfAxis> := [];
      for k := 0 to |components|
        invariant list == ComponentAxes(components[..k])
      {
        assert components[..k + 1] == components[..k] + [components[k]];
        ComponentAxesSnoc(components[..k], components[k]);
        assert components[k] in components;
        list := list + components[k].axes[..];
      }
      assert components[..|components|] == components;
      var a := new NetcdfAxis[|list|](j requires 0 <= j < |list| => list[j]);
      axes := a;
      Axes := list;
      kind := Kind.Compound(components);
      gridToCRS := None;
      projection := None;
    }

    /** `getCode`: the identifier code is the name of the netCDF coordinate system. */
    function GetCode(): string
      reads this
    {
      cs.name
    }

    /** `getDimension`: the number of axes. */
    function GetDimension(): (r: nat)
      reads this, axes
      requires Valid()
      ensures r == |Axes|
    {
      axes.Length
    }

    /** `getAxis`: the axis at the given dimension, in the reversed order. */
    function GetAxis(dimension: int): (r: Result<NetcdfAxis>)
      reads this, axes
      requires Valid()
      ensures r.Success? <==> 0 <= dimension < |Axes|
      ensures r.Success? ==> r.value == Axes[dimension]
      ensures r.Failure? ==> r.error == IndexOutOfBounds
    {
      if 0 <= dimension < axes.Length then Success(axes[dimension]) else Failure(IndexOutOfBounds)
    }

    /** `getSize`: the number of values of the axis at the given dimension. */
    function GetSize(dimension: int): (r: Result<nat>)
      reads this, axes
      requires Valid()
      ensures r.Success? <==> 0 <= dimension < |Axes| && Axes[dimension].delegate.Some?
      ensures r.Success? ==> r.value == Axes[dimension].delegate.value.size
      ensures r == Failure(IndexOutOfBounds) <==> !(0 <= dimension < |Axes|)
    {
      if !(0 <= dimension < axes.Length) then Failure(IndexOutOfBounds)
      else if axes[dimension].delegate.None? then Failure(NullPointer)
      else Success(axes[dimension].delegate.value.size)
    }

    /** `getLow`: grid indices start at zero, whatever the dimension. */
    function GetLow(dimension: int): int { 0 }

    /**
     * `getHigh`: the largest grid index along the given dimension, so that the
     * indices `[low, high]` number exactly the values of the axis.
     */
    function GetHigh(dimension: int): (r: Result<int>)
      reads this, axes
      requires Valid()
      ensures r.Success? <==> 0 <= dimension < |Axes| && Axes[dimension].delegate.Some?
      ensures r.Success? ==> r.value - GetLow(dimension) + 1 == Axes[dimension].delegate.value.size
      ensures r == Failure(IndexOutOfBounds) <==> !(0 <= dimension < |Axes|)
    {
      match GetSize(dimension)
      case Failure(e) => Failure(e)
      case Success(size) => Success(GetLow(dimension) + size - 1)
    }

    /**
     * `getGridToCRS(lower, upper)`: the affine transform for the axes of
     * `[lower, upper)`, no transform, or the exception of an illegal range.
     */
    method GetGridToCRSRange(lower: int, upper: int) returns (r: Result<Option<MathTransform>>)
      requires Valid()
      ensures r == GridToCRSOf(Axes, lower, upper)
    {
      if lower < 0 || upper > axes.Length || upper < lower {
        return Failure(IllegalArgument);
      }
      var numDimensions := upper - lower;
      var matrix := Identity(numDimensions + 1);
      for i := 0 to numDimensions
        invariant forall j :: lower <= j < lower + i ==> Gridded(Axes[j])
        invariant |matrix| == numDimensions + 1
        invariant forall row :: 0 <= row <= numDimensions ==> |matrix[row]| == numDimensions + 1
        invariant forall row, col :: 0 <= row <= numDimensions && 0 <= col <= numDimensions ==>
          matrix[row][col] == if row < i then Entry(Axes, lower, numDimensions, row, col)
                              else if row == col then Finite(1.0) else Finite(0.0)
      {
        var axis := axes[lower + i].delegate;
        if axis.None? {
          return Failure(NullPointer);
        }
        if !axis.value.regular {
          return Success(None);
        }
        var scale := axis.value.increment;
        if scale.NaN? || scale == Finite(0.0) {
          return Success(None);
        }
        matrix := SetElement(matrix, i, i, Nice(scale));
        matrix := SetElement(matrix, i, numDimensions, Nice(axis.value.start));
      }
      ghost var expected := GridMatrix(Axes, lower, upper);
      forall row | 0 <= row <= numDimensions
        ensures matrix[row] == expected[row]
      {
        assert |matrix[row]| == |expected[row]|;
      }
      assert matrix == expected;
      return Success(Some(Affine(matrix)));
    }

    /** `getGridToCRS()`: the transform over all dimensions, computed once and cached. */
    method GetGridToCRS() returns (r: Result<Option<MathTransform>>)
      requires Valid()
      modifies this`gridToCRS
      ensures Valid()
      ensures r == GridToCRSOf(Axes, 0, |Axes|)
      ensures gridToCRS == if r.Success? && r.value.Some? then r.value else old(gridToCRS)
    {
      if gridToCRS.None? {
        r := GetGridToCRSRange(0, axes.Length);
        if r.Success? {
          gridToCRS := r.value;
        }
      } else {
        r := Success(gridToCRS);
      }
    }

    /**
     * `getConversionFromBase` of a projected CRS: the projection of the netCDF
     * coordinate system, wrapped when first requested; IllegalStateException
     * when the netCDF coordinate system has none.
     */
    method GetConversionFromBase() returns (r: Result<Projection>)
      requires Valid() && kind.Projected?
      modifies this`projection
      ensures Valid()
      ensures cs.projection.None? ==> r == Failure(IllegalState)
      ensures cs.projection.Some? ==> r == Success(NetcdfProjection(cs.projection.value, kind.datum))
      ensures projection == if r.Success? then Some(r.value) else old(projection)
    {
      if projection.None? {
        var p := cs.projection;
        if p.None? {
          return Failure(IllegalState);
        }
        projection := Some(NetcdfProjection(p.value, kind.datum));
      }
      r := Success(projection.value);
    }
  
    /**
     * `wrap`: splits the axes of a netCDF coordinate system into geographic,
     * projected, vertical and temporal components, scanning from the last
     * netCDF axis down. One component is returned as is, several are wrapped
     * in a compound CRS in scan order; when the scan aborts (or finds no axis)
     * the whole system is wrapped as one geographic, projected or plain CRS.
     * `dateOrigin` parses temporal unit strings; a null system gives null.
     */
    static method Wrap(netcdfCS: Option<CoordinateSystem>, dateOrigin: string -> Option<int>)
      returns (r: Result<NetcdfCRS?>)
      ensures netcdfCS.None? ==> r == Success(null)
      ensures netcdfCS.Some? ==>
        var cs := netcdfCS.value;
        var list := cs.coordinateAxes;
        var o := Classify(list, |list|, dateOrigin);
        (o.Thrown? ==> r == Failure(o.error)) &&
        (!o.Thrown? ==>
           r.Success? && r.value != null && r.value.Valid() && fresh(r.value) &&
           r.value.cs == cs && r.value.Axes == Reversed(list)) &&
        (o.Unsplit? || o == Split([]) ==> r.Success? && r.value != null && r.value.kind == FallbackKind(cs)) &&
        (o.Split? && |o.groups| == 1 ==>
           r.Success? && r.value != null && r.value.kind == KindOf(o.groups[0].category)) &&
        (o.Split? && |o.groups| >= 2 ==>
           r.Success? && r.value != null && r.value.kind.Compound? &&
           |r.value.kind.components| == |o.groups| &&
           (forall k :: 0 <= k < |o.groups| ==> Built(r.value.kind.components[k], cs, list, o.groups[k])) &&
           (forall c :: c in r.value.kind.components ==> c.Valid()))
    {
      if netcdfCS.None? {
        return Success(null);
      }
      var cs := netcdfCS.value;
      var scan, groups := Scan(cs, dateOrigin);
      if scan.Failure? {
        return Failure(scan.error);
      }
      var c := Assemble(cs, scan.value, dateOrigin, groups);
      return Success(c);
    }

    /**
     * The loop of `wrap`: the components built from the last netCDF axis down,
     * in scan order, with the groups of axes they were built from; none when
     * an axis cannot be classified; or the exception a component throws.
     */
    static method Scan(cs: CoordinateSystem, dateOrigin: string -> Option<int>)
      returns (r: Result<seq<NetcdfCRS>>, ghost groups: seq<Group>)
      ensures var list := cs.coordinateAxes; var o := Classify(list, |list|, dateOrigin);
        (r.Failure? ==> o == Thrown(r.error)) &&
        (r.Success? ==> (o.Unsplit? && r.value == []) || o == Split(groups))
      ensures r.Success? ==> |r.value| == |groups|
      ensures r.Success? ==> forall k :: 0 <= k < |groups| ==> Built(r.value[k], cs, cs.coordinateAxes, groups[k])
      ensures r.Success? ==> forall c :: c in r.value ==> c.Valid() && fresh(c)
    {
      var components: seq<NetcdfCRS> := [];
      groups := [];
      var axes := cs.coordinateAxes;
      ghost var n := |axes|;
      var i := |axes|;
      ghost var aborted := false;
      while i > 0
        invariant 0 <= i <= n
        invariant !aborted ==> Classify(axes, n, dateOrigin) == Then(groups, Classify(axes, i, dateOrigin))
        invariant |components| == |groups|
        invariant forall k :: 0 <= k < |groups| ==> Built(components[k], cs, axes, groups[k])
        invariant forall c :: c in components ==> c.Valid() && fresh(c)
      {
        ghost var m := i;
        i := i - 1;
        var next, lower := ComponentAt(cs, i, dateOrigin);
        if next.Failure? {
          ScanThrows(axes, n, m, dateOrigin, groups);
          return Failure(next.error), groups;
        }
        if next.value.None? {
          // An axis the scan cannot classify: give up the split altogether.
          ScanAborts(axes, n, m, dateOrigin, groups);
          components := [];
          groups := [];
          aborted := true;
          break;
        }
        ghost var g := Step(axes, m, dateOrigin).value.value;
        ScanExtends(axes, n, m, dateOrigin, groups, g);
        i := lower;
        components, groups := components + [next.value.value], groups + [g];
      }
      r := Success(components);
    }

    /**
     * The body of the scan of `wrap` at the netCDF axis `i`: the component that
     * axis starts and the index of its lowest axis, no component when the axis
     * cannot be classified, or the exception building the component throws.
     */
    static method ComponentAt(cs: CoordinateSystem, i: nat, dateOrigin: string -> Option<int>)
      returns (r: Result<Option<NetcdfCRS>>, lower: nat)
      requires i < |cs.coordinateAxes|
      ensures var step := Step(cs.coordinateAxes, i + 1, dateOrigin);
        (step.Failure? ==> r == Failure(step.error)) &&
        (step == Success(None) ==> r == Success(None)) &&
        (step.Success? && step.value.Some? ==>
           r.Success? && r.value.Some? && r.value.value.Valid() && fresh(r.value.value) && lower == step.value.value.lo &&
           Built(r.value.value, cs, cs.coordinateAxes, step.value.value))
    {
      var datum := Sphere;
      var axes := cs.coordinateAxes;
      lower := i;
      var axis := axes[i];
      if axis.Some? {
        var axisType := axis.value.axisType;
        if axisType.Some? {
          SingletonSlice(axes, i);
          var t := axisType.value;
          if IsVertical(t) {
            var c := new NetcdfCRS.Vertical(cs, axis.value);
            return Success(Some(c)), i;
          } else if IsTemporal(t) {
            var temporal := NewTemporal(cs, axis.value, dateOrigin);
            if temporal.Failure? {
              return Failure(temporal.error), i;
            }
            return Success(Some(temporal.value)), i;
          } else if t == Lat || t == Lon {
            var upper := i + 1;
            var l := Lower(axes, i, Lat, Lon);
            if l.Failure? {
              return Failure(l.error), i;
            }
            var c := new NetcdfCRS.Geographic(datum, cs, axes[l.value..upper]);
            return Success(Some(c)), l.value;
          } else if t == GeoX || t == GeoY {
            var upper := i + 1;
            var l := Lower(axes, i, GeoX, GeoY);
            if l.Failure? {
              return Failure(l.error), i;
            }
            var c := new NetcdfCRS.Projected(datum, cs, axes[l.value..upper]);
            return Success(Some(c)), l.value;
          }
        }
      }
      r := Success(None);
    }

    /**
     * The end of `wrap`: no component means the fallback over all axes, one
     * component is returned as is, several become a compound CRS.
     */
    static method Assemble(cs: CoordinateSystem, components: seq<NetcdfCRS>, dateOrigin: string -> Option<int>,
                           ghost groups: seq<Group>)
      returns (r: NetcdfCRS)
      requires var list := cs.coordinateAxes; var o := Classify(list, |list|, dateOrigin);
        (o.Unsplit? && components == []) || o == Split(groups)
      requires |components| == |groups|
      requires forall k :: 0 <= k < |groups| ==> Built(components[k], cs, cs.coordinateAxes, groups[k])
      requires forall c :: c in components ==> c.Valid()
      ensures |components| == 1 ==> r == components[0]
      ensures |components| != 1 ==> fresh(r)
      ensures r.Valid() && r.cs == cs && r.Axes == Reversed(cs.coordinateAxes)
      ensures components == [] ==> r.kind == FallbackKind(cs)
      ensures |components| == 1 ==> r.kind == KindOf(groups[0].category)
      ensures |components| >= 2 ==> r.kind == Kind.Compound(components)
    {
      var datum := Sphere;
      var axes := cs.coordinateAxes;
      var n := |axes|;
      assert axes[0..n] == axes;
      var size := |components|;
      if size == 0 {
        if cs.isLatLon {
          r := new NetcdfCRS.Geographic(datum, cs, axes);
        } else if cs.isGeoXY {
          r := new NetcdfCRS.Projected(datum, cs, axes);
        } else {
          r := new NetcdfCRS(cs, axes);
        }
      } else if size == 1 {
        ClassifySplit(axes, n, dateOrigin);
        assert Built(components[0], cs, axes, groups[0]);
        r := components[0];
      } else {
        ClassifySplit(axes, n, dateOrigin);
        BuiltAxes(components, cs, axes, groups);
        TilingReverses(axes, groups, n);
        r := new NetcdfCRS.Compound(cs, components);
      }
    }
  }

  /**
   * The netCDF system (time, height, latitude, longitude) becomes a compound of
   * a geographic, a vertical and a temporal CRS of dimension 4, whose axes are
   * (longitude, latitude, height, time).
   */
  method WrapTimeHeightLatLon(cs: CoordinateSystem, time: CoordinateAxis, height: CoordinateAxis,
                              lat: CoordinateAxis, lon: CoordinateAxis, dateOrigin: string -> Option<int>, origin: int)
    returns (crs: NetcdfCRS)
    requires cs.coordinateAxes == [Some(time), Some(height), Some(lat), Some(lon)]
    requires time.axisType == Some(Time) && height.axisType == Some(Height)
    requires lat.axisType == Some(Lat) && lon.axisType == Some(Lon)
    requires dateOrigin(time.unitsString) == Some(origin)
    ensures crs.kind.Compound? && |crs.kind.components| == 3
    ensures crs.kind.components[0].kind == Geographic(Sphere)
    ensures crs.kind.components[1].kind == Vertical(Geoidal)
    ensures crs.kind.components[2].kind == Temporal(origin)
    ensures crs.Axes == [NetcdfAxis(Some(lon)), NetcdfAxis(Some(lat)), NetcdfAxis(Some(height)), NetcdfAxis(Some(time))]
  {
    TimeHeightLatLonGroups(time, height, lat, lon, dateOrigin, origin);
    var r := NetcdfCRS.Wrap(Some(cs), dateOrigin);
    crs := r.value;
    ReversedFour(Some(time), Some(height), Some(lat), Some(lon));
  }

  /**
   * The netCDF system (y, x) of two regular projected axes with spacing 0.1
   * starting at 0 is one projected CRS (no compound) whose grid-to-CRS matrix
   * has 0.1 on its diagonal and zero offsets.
   */
  method WrapProjectedGrid(cs: CoordinateSystem, y: CoordinateAxis, x: CoordinateAxis, dateOrigin: string -> Option<int>)
    returns (crs: NetcdfCRS, transform: Result<Option<MathTransform>>)
    requires cs.coordinateAxes == [Some(y), Some(x)]
    requires y.axisType == Some(GeoY) && x.axisType == Some(GeoX)
    requires y.regular && x.regular && y.increment == x.increment == Finite(0.1)
    requires y.start == x.start == Finite(0.0)
    ensures crs.kind == Projected(Sphere) && crs.Axes == [NetcdfAxis(Some(x)), NetcdfAxis(Some(y))]
    ensures transform == Success(Some(Affine([[Finite(0.1), Finite(0.0), Finite(0.0)],
                                              [Finite(0.0), Finite(0.1), Finite(0.0)],
                                              [Finite(0.0), Finite(0.0), Finite(1.0)]])))
  {
    YXGroup(y, x, dateOrigin);
    var r := NetcdfCRS.Wrap(Some(cs), dateOrigin);
    crs := r.value;
    ReversedPair(Some(y), Some(x));
    TenthDegreeGrid(x, y);
    transform := crs.GetGridToCRS();
  }

  /**
   * A netCDF system whose last axis is a time axis with an unparseable unit
   * cannot be wrapped: `wrap` throws IllegalArgumentException.
   */
  method WrapBadTimeUnit(cs: CoordinateSystem, dateOrigin: string -> Option<int>) returns (r: Result<NetcdfCRS?>)
    requires |cs.coordinateAxes| > 0
    requires BadTimeUnit(cs.coordinateAxes[|cs.coordinateAxes| - 1], dateOrigin)
    ensures r == Failure(IllegalArgument)
  {
    BadTopTimeUnitThrows(cs.coordinateAxes, dateOrigin);
    r := NetcdfCRS.Wrap(Some(cs), dateOrigin);
  }
}
