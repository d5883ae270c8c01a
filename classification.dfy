/**
 * The axis classification performed by `NetcdfCRS.wrap`: the netCDF axis list is
 * scanned once from its last (fastest varying) element down to its first, and cut
 * into groups that each become one CRS component. This module holds the scan as a
 * specification function, the imperative `lower` helper, and the properties of
 * the resulting groups.
 */
module Classification {
  import opened Wrappers
  import opened Axes

  /** `VerticalDatumType`, restricted to the four values the wrapper produces. */
  datatype VerticalDatumType = Barometric | Geoidal | Ellipsoidal | OtherSurface

  /** The datum type a `Vertical` component derives from its axis type. */
  function VerticalDatumTypeOf(t: AxisType): (r: VerticalDatumType)
    ensures r != OtherSurface <==> IsVertical(t)
  {
    match t
    case Pressure => Barometric
    case Height => Geoidal
    case GeoZ => Ellipsoidal
    case _ => OtherSurface
  }

  /** Axis types that make a one-axis vertical component. */
  predicate IsVertical(t: AxisType) { t == Pressure || t == Height || t == GeoZ }

  /** Axis types that make a one-axis temporal component. */
  predicate IsTemporal(t: AxisType) { t == Time || t == RunTime }

  /** The kind of component a group becomes, with what the component derives from its axis. */
  datatype Category =
    | VerticalGroup(datumType: VerticalDatumType)
    | TemporalGroup(origin: int)
    | GeographicGroup
    | ProjectedGroup

  /** The netCDF axes `[lo, hi)` of the input list, becoming one component. */
  datatype Group = Group(category: Category, lo: nat, hi: nat)

  /**
   * The outcome of the scan: the groups in the order they were built, the
   * all-or-nothing abort (an axis that cannot be classified), or an exception.
   */
  datatype Outcome = Split(groups: seq<Group>) | Unsplit | Thrown(error: Error)

  /** An entry that makes `lower` stop: a non-null axis whose type is neither `t1` nor `t2`. */
  predicate Stops(a: AxisRef, t1: AxisType, t2: AxisType) {
    a.Some? && !HasType(a, t1, t2)
  }

  /** Some axis below `upper` is null, and every axis between it and `upper` has type `t1` or `t2`. */
  ghost predicate NullBelowRun(axes: seq<AxisRef>, upper: nat, t1: AxisType, t2: AxisType)
    requires upper <= |axes|
  {
    exists l :: 0 <= l < upper && axes[l].None? && IsRun(axes, l + 1, upper, t1, t2)
  }

  /** Every axis of `[lo, hi)` has type `t1` or `t2`. */
  predicate IsRun(axes: seq<AxisRef>, lo: nat, hi: nat, t1: AxisType, t2: AxisType)
    requires hi <= |axes|
  {
    forall j :: lo <= j < hi ==> HasType(axes[j], t1, t2)
  }

  /**
   * `NetcdfCRS.lower` as a function. It walks down from `upper` while the axis
   * below has type `t1` or `t2`; a null axis met on the way throws, because
   * the source asks a null element for its type.
   */
  function LowerOf(axes: seq<AxisRef>, upper: nat, t1: AxisType, t2: AxisType): (r: Result<nat>)
    requires upper <= |axes|
    ensures r.Success? ==> r.value <= upper
    ensures r.Success? ==> IsRun(axes, r.value, upper, t1, t2)
    ensures r.Success? ==> r.value == 0 || Stops(axes[r.value - 1], t1, t2)
    ensures r.Failure? ==> r.error == NullPointer
    decreases upper
  {
    if upper == 0 then Success(0)
    else if axes[upper - 1].None? then Failure(NullPointer)
    else if HasType(axes[upper - 1], t1, t2) then LowerOf(axes, upper - 1, t1, t2)
    else Success(upper)
  }

  /** Above a `t1`/`t2` axis, a null below the run is a null below the shorter run. */
  lemma NullBelowRunShrinks(axes: seq<AxisRef>, upper: nat, t1: AxisType, t2: AxisType)
    requires 0 < upper <= |axes| && HasType(axes[upper - 1], t1, t2)
    requires NullBelowRun(axes, upper, t1, t2)
    ensures NullBelowRun(axes, upper - 1, t1, t2)
  {
    var l :| 0 <= l < upper && axes[l].None? && IsRun(axes, l + 1, upper, t1, t2);
    assert l < upper - 1 && IsRun(axes, l + 1, upper - 1, t1, t2);
  }

  /** A `t1`/`t2` axis on top of a run keeps the null below it. */
  lemma NullBelowRunGrows(axes: seq<AxisRef>, upper: nat, t1: AxisType, t2: AxisType)
    requires 0 < upper <= |axes| && HasType(axes[upper - 1], t1, t2)
    requires NullBelowRun(axes, upper - 1, t1, t2)
    ensures NullBelowRun(axes, upper, t1, t2)
  {
    var l :| 0 <= l < upper - 1 && axes[l].None? && IsRun(axes, l + 1, upper - 1, t1, t2);
    assert IsRun(axes, l + 1, upper, t1, t2);
  }

  /** A null axis just below `upper` is a null below the empty run. */
  lemma NullBelowRunAtTop(axes: seq<AxisRef>, upper: nat, t1: AxisType, t2: AxisType)
    requires 0 < upper <= |axes| && axes[upper - 1].None?
    ensures NullBelowRun(axes, upper, t1, t2)
  {
    assert IsRun(axes, upper, upper, t1, t2);
  }

  /** A non-null axis of another type ends the run: no null lies directly below it. */
  lemma NullBelowRunStops(axes: seq<AxisRef>, upper: nat, t1: AxisType, t2: AxisType)
    requires 0 < upper <= |axes| && Stops(axes[upper - 1], t1, t2)
    ensures !NullBelowRun(axes, upper, t1, t2)
  {
  }

  /** `lower` throws exactly when a null axis lies directly below the run of `t1`/`t2` axes. */
  lemma {:induction false} LowerOfFails(axes: seq<AxisRef>, upper: nat, t1: AxisType, t2: AxisType)
    requires upper <= |axes|
    ensures LowerOf(axes, upper, t1, t2).Failure? <==> NullBelowRun(axes, upper, t1, t2)
    decreases upper
  {
    if upper == 0 {
    } else if axes[upper - 1].None? {
      NullBelowRunAtTop(axes, upper, t1, t2);
    } else if HasType(axes[upper - 1], t1, t2) {
      LowerOfFails(axes, upper - 1, t1, t2);
      if NullBelowRun(axes, upper, t1, t2) {
        NullBelowRunShrinks(axes, upper, t1, t2);
      }
      if NullBelowRun(axes, upper - 1, t1, t2) {
        NullBelowRunGrows(axes, upper, t1, t2);
      }
    } else {
      NullBelowRunStops(axes, upper, t1, t2);
    }
  }

  /**
   * `NetcdfCRS.lower`: the lower end of the run of axes of type `t1` or `t2`
   * that ends just below `upper`.
   */
  method Lower(axes: seq<AxisRef>, upper: nat, t1: AxisType, t2: AxisType) returns (r: Result<nat>)
    requires upper <= |axes|
    ensures r == LowerOf(axes, upper, t1, t2)
  {
    var u: nat := upper;
    while u != 0
      invariant u <= upper
      invariant LowerOf(axes, upper, t1, t2) == LowerOf(axes, u, t1, t2)
    {
      var axis := axes[u - 1];
      if axis.None? {
        return Failure(NullPointer);
      }
      var axisType := axis.value.axisType;
      if axisType != Some(t1) && axisType != Some(t2) {
        break;
      }
      u := u - 1;
    }
    return Success(u);
  }

  /** Puts a group in front of the groups found further down the list. */
  function Prepend(g: Group, rest: Outcome): Outcome {
    match rest
    case Split(gs) => Split([g] + gs)
    case _ => rest
  }

  /**
   * One step of the scan of `wrap`, at the netCDF axis `n - 1`: the group that
   * axis starts, `None` when the axis cannot be classified (null axis, null
   * type or unhandled type), or the exception building the group throws.
   * `dateOrigin` parses a unit string of the form "<unit> since <epoch>" into
   * the epoch, or fails (the `DateUnit` constructor).
   */
  function Step(axes: seq<AxisRef>, n: nat, dateOrigin: string -> Option<int>): (r: Result<Option<Group>>)
    requires 0 < n <= |axes|
    ensures r.Success? && r.value.Some? ==> r.value.value.hi == n && Fits(axes, r.value.value, dateOrigin)
    ensures r.Success? && r.value.None? <==> Unclassifiable(axes[n - 1])
  {
    var axis := axes[n - 1];
    if axis.None? || axis.value.axisType.None? then Success(None)
    else
      var t := axis.value.axisType.value;
      if IsVertical(t) then
        Success(Some(Group(VerticalGroup(VerticalDatumTypeOf(t)), n - 1, n)))
      else if IsTemporal(t) then
        match dateOrigin(axis.value.unitsString)
        case None => Failure(IllegalArgument)
        case Some(origin) => Success(Some(Group(TemporalGroup(origin), n - 1, n)))
      else if t == Lat || t == Lon then RunGroup(axes, n, Lat, Lon, GeographicGroup)
      else if t == GeoX || t == GeoY then RunGroup(axes, n, GeoX, GeoY, ProjectedGroup)
      else Success(None)
  }

  /**
   * The group of a geographic or projected step: the run of `t1`/`t2` axes
   * that ends with the axis `n - 1`, down to where `lower` stops.
   */
  function RunGroup(axes: seq<AxisRef>, n: nat, t1: AxisType, t2: AxisType, c: Category): (r: Result<Option<Group>>)
    requires 0 < n <= |axes| && HasType(axes[n - 1], t1, t2)
    ensures r.Failure? ==> r.error == NullPointer
    ensures r.Success? ==>
      r.value.Some? && r.value.value.category == c && r.value.value.lo < r.value.value.hi == n &&
      IsRun(axes, r.value.value.lo, n, t1, t2) &&
      (r.value.value.lo == 0 || Stops(axes[r.value.value.lo - 1], t1, t2))
  {
    match LowerOf(axes, n - 1, t1, t2)
    case Failure(e) => Failure(e)
    case Success(l) => Success(Some(Group(c, l, n)))
  }

  /**
   * A scan step throws only IllegalArgumentException or NullPointerException,
   * the former exactly for a temporal axis whose unit does not parse.
   */
  lemma StepIllegalArgument(axes: seq<AxisRef>, n: nat, dateOrigin: string -> Option<int>)
    requires 0 < n <= |axes|
    ensures Step(axes, n, dateOrigin) == Failure(IllegalArgument) <==> BadTimeUnit(axes[n - 1], dateOrigin)
    ensures Step(axes, n, dateOrigin).Failure? ==>
      Step(axes, n, dateOrigin).error == IllegalArgument || Step(axes, n, dateOrigin).error == NullPointer
  {
  }

  /**
   * A scan step throws NullPointerException exactly when a null axis lies
   * directly below the Lat/Lon or GeoX/GeoY run the axis starts.
   */
  lemma StepNullPointer(axes: seq<AxisRef>, n: nat, dateOrigin: string -> Option<int>)
    requires 0 < n <= |axes|
    ensures Step(axes, n, dateOrigin) == Failure(NullPointer) <==> NullBelowAxis(axes, n)
  {
    if HasType(axes[n - 1], Lat, Lon) {
      LowerOfFails(axes, n - 1, Lat, Lon);
    } else if HasType(axes[n - 1], GeoX, GeoY) {
      LowerOfFails(axes, n - 1, GeoX, GeoY);
    }
  }

  /** The axis types `wrap` knows how to group. */
  predicate Handled(t: AxisType) {
    IsVertical(t) || IsTemporal(t) || t == Lat || t == Lon || t == GeoX || t == GeoY
  }

  /** An entry the scan of `wrap` cannot classify: a null axis, an axis without type, or an unhandled type. */
  predicate Unclassifiable(a: AxisRef) {
    a.None? || a.value.axisType.None? || !Handled(a.value.axisType.value)
  }

  /** A typed temporal axis whose unit string does not parse as "<unit> since <epoch>". */
  predicate BadTimeUnit(a: AxisRef, dateOrigin: string -> Option<int>) {
    a.Some? && a.value.axisType.Some? && IsTemporal(a.value.axisType.value) && dateOrigin(a.value.unitsString).None?
  }

  /**
   * The axis `n - 1` starts a Lat/Lon (GeoX/GeoY) run, and a null axis lies
   * directly below the run, where `lower` asks it for its type.
   */
  ghost predicate NullBelowAxis(axes: seq<AxisRef>, n: nat)
    requires 0 < n <= |axes|
  {
    (HasType(axes[n - 1], Lat, Lon) && NullBelowRun(axes, n - 1, Lat, Lon)) ||
    (HasType(axes[n - 1], GeoX, GeoY) && NullBelowRun(axes, n - 1, GeoX, GeoY))
  }

  /** The scan of `wrap` over the first `n` netCDF axes, from index n-1 down. */
  function Classify(axes: seq<AxisRef>, n: nat, dateOrigin: string -> Option<int>): (o: Outcome)
    requires n <= |axes|
    ensures o.Thrown? ==> o.error == IllegalArgument || o.error == NullPointer
    decreases n
  {
    if n == 0 then Split([])
    else
      StepIllegalArgument(axes, n, dateOrigin);
      match Step(axes, n, dateOrigin)
      case Failure(e) => Thrown(e)
      case Success(None) => Unsplit
      case Success(Some(g)) => Prepend(g, Classify(axes, g.lo, dateOrigin))
  }

  /** The groups cover `[0, n)` without gap or overlap, from the top down, none empty. */
  ghost predicate Tiling(gs: seq<Group>, n: nat) {
    (gs == [] ==> n == 0) &&
    (gs != [] ==> gs[0].hi == n && gs[|gs| - 1].lo == 0) &&
    (forall k :: 0 <= k < |gs| ==> gs[k].lo < gs[k].hi <= n) &&
    (forall k :: 0 < k < |gs| ==> gs[k].hi == gs[k - 1].lo)
  }

  /**
   * What a group says about its axes: a vertical or temporal group is one axis
   * of a matching type; a geographic (projected) group is a maximal run of
   * Lat/Lon (GeoX/GeoY) axes: the axis below it, if any, is a non-null axis
   * of another type.
   */
  ghost predicate Fits(axes: seq<AxisRef>, g: Group, dateOrigin: string -> Option<int>) {
    g.lo < g.hi <= |axes| &&
    match g.category
    case VerticalGroup(dt) =>
      g.hi == g.lo + 1 && axes[g.lo].Some? && axes[g.lo].value.axisType.Some? &&
      IsVertical(axes[g.lo].value.axisType.value) && dt == VerticalDatumTypeOf(axes[g.lo].value.axisType.value)
    case TemporalGroup(origin) =>
      g.hi == g.lo + 1 && axes[g.lo].Some? && axes[g.lo].value.axisType.Some? &&
      IsTemporal(axes[g.lo].value.axisType.value) && dateOrigin(axes[g.lo].value.unitsString) == Some(origin)
    case GeographicGroup =>
      IsRun(axes, g.lo, g.hi, Lat, Lon) && (g.lo == 0 || Stops(axes[g.lo - 1], Lat, Lon))
    case ProjectedGroup =>
      IsRun(axes, g.lo, g.hi, GeoX, GeoY) && (g.lo == 0 || Stops(axes[g.lo - 1], GeoX, GeoY))
  }

  /**
   * When the scan splits the list, the groups tile it from the end down and
   * each group is a contiguous, maximal run of compatible axes.
   */
  lemma {:induction false} ClassifySplit(axes: seq<AxisRef>, n: nat, dateOrigin: string -> Option<int>)
    requires n <= |axes|
    requires Classify(axes, n, dateOrigin).Split?
    ensures Tiling(Classify(axes, n, dateOrigin).groups, n)
    ensures forall g :: g in Classify(axes, n, dateOrigin).groups ==> Fits(axes, g, dateOrigin)
    decreases n
  {
    if n > 0 {
      var g := Step(axes, n, dateOrigin).value.value;
      var rest := Classify(axes, g.lo, dateOrigin);
      ClassifySplit(axes, g.lo, dateOrigin);
      var gs := [g] + rest.groups;
      assert Classify(axes, n, dateOrigin).groups == gs;
      assert forall k :: 0 < k < |gs| ==> gs[k] == rest.groups[k - 1];
    }
  }

  /** The axes of the components built from `gs`, in order: each group's axes reversed. */
  function GroupAxes(axes: seq<AxisRef>, gs: seq<Group>): seq<NetcdfAxis>
    requires forall g :: g in gs ==> g.lo <= g.hi <= |axes|
  {
    if gs == [] then [] else Reversed(axes[gs[0].lo..gs[0].hi]) + GroupAxes(axes, gs[1..])
  }

  /** Dropping the first group of a tiling of `[0, n)` leaves a tiling of `[0, lo)`. */
  lemma TilingTail(gs: seq<Group>, n: nat)
    requires Tiling(gs, n) && gs != []
    ensures Tiling(gs[1..], gs[0].lo)
  {
    var rest := gs[1..];
    assert forall k :: 0 <= k < |rest| ==> rest[k] == gs[k + 1];
    if rest != [] {
      assert rest[0].hi == gs[0].lo;
    }
    forall k | 0 <= k < |rest|
      ensures rest[k].hi <= gs[0].lo
    {
      TilingDescends(gs, n, 1, k + 1);
    }
  }

  /** In a tiling, later groups lie below earlier ones. */
  lemma {:induction false} TilingDescends(gs: seq<Group>, n: nat, i: nat, j: nat)
    requires Tiling(gs, n) && i <= j < |gs|
    ensures gs[j].hi <= gs[i].hi
    ensures i < j ==> gs[j].hi <= gs[i].lo
    decreases j - i
  {
    if i < j {
      TilingDescends(gs, n, i + 1, j);
    }
  }

  /** The components built from a tiling of `[0, n)` hold the first n netCDF axes reversed. */
  lemma {:induction false} TilingReverses(axes: seq<AxisRef>, gs: seq<Group>, n: nat)
    requires n <= |axes| && Tiling(gs, n)
    ensures forall g :: g in gs ==> g.lo <= g.hi <= |axes|
    ensures GroupAxes(axes, gs) == Reversed(axes[..n])
    decreases |gs|
  {
    if gs != [] {
      TilingTail(gs, n);
      TilingReverses(axes, gs[1..], gs[0].lo);
      ReversedSplit(axes, gs[0].lo, n);
    }
  }

  /** Every axis of `[0, n)` lies in exactly one group of a tiling. */
  lemma {:induction false} TilingCovers(gs: seq<Group>, n: nat, j: nat)
    requires Tiling(gs, n) && j < n
    ensures exists k :: 0 <= k < |gs| && gs[k].lo <= j < gs[k].hi
    ensures forall k1, k2 :: 0 <= k1 < |gs| && 0 <= k2 < |gs| && gs[k1].lo <= j < gs[k1].hi && gs[k2].lo <= j < gs[k2].hi ==> k1 == k2
    decreases |gs|
  {
    forall k1, k2 | 0 <= k1 < |gs| && 0 <= k2 < |gs| && gs[k1].lo <= j < gs[k1].hi && gs[k2].lo <= j < gs[k2].hi
      ensures k1 == k2
    {
      if k1 < k2 {
        TilingDescends(gs, n, k1, k2);
      } else if k2 < k1 {
        TilingDescends(gs, n, k2, k1);
      }
    }
    if gs[0].lo > j {
      TilingTail(gs, n);
      TilingCovers(gs[1..], gs[0].lo, j);
      var k :| 0 <= k < |gs| - 1 && gs[1..][k].lo <= j < gs[1..][k].hi;
      assert gs[k + 1].lo <= j < gs[k + 1].hi;
    } else {
      assert gs[0].lo <= j < gs[0].hi;
    }
  }

  /**
   * All or nothing: a null axis, an axis without type or an axis of an
   * unhandled type anywhere in the list means no split at all (the scan
   * aborts, or throws first).
   */
  lemma UnclassifiableAxisPreventsSplit(axes: seq<AxisRef>, dateOrigin: string -> Option<int>, j: nat)
    requires j < |axes|
    requires Unclassifiable(axes[j])
    ensures !Classify(axes, |axes|, dateOrigin).Split?
  {
    var o := Classify(axes, |axes|, dateOrigin);
    if o.Split? {
      ClassifySplit(axes, |axes|, dateOrigin);
      TilingCovers(o.groups, |axes|, j);
      var k :| 0 <= k < |o.groups| && o.groups[k].lo <= j < o.groups[k].hi;
      FitsClassified(axes, o.groups[k], dateOrigin, j);
    }
  }

  /**
   * Conversely, the scan aborts only because of an axis it cannot classify,
   * met at or below the top of the list.
   */
  lemma {:induction false} UnsplitHasUnclassifiable(axes: seq<AxisRef>, n: nat, dateOrigin: string -> Option<int>)
    requires n <= |axes|
    requires Classify(axes, n, dateOrigin) == Unsplit
    ensures exists j :: 0 <= j < n && Unclassifiable(axes[j])
    decreases n
  {
    var step := Step(axes, n, dateOrigin);
    if step == Success(None) {
      assert Unclassifiable(axes[n - 1]);
    } else {
      var g := step.value.value;
      UnsplitHasUnclassifiable(axes, g.lo, dateOrigin);
    }
  }

  /**
   * A time axis at the top of the list whose unit string does not parse makes
   * the scan throw IllegalArgumentException before anything else is built.
   */
  lemma BadTopTimeUnitThrows(axes: seq<AxisRef>, dateOrigin: string -> Option<int>)
    requires |axes| > 0 && BadTimeUnit(axes[|axes| - 1], dateOrigin)
    ensures Classify(axes, |axes|, dateOrigin) == Thrown(IllegalArgument)
  {
    StepIllegalArgument(axes, |axes|, dateOrigin);
  }

  /** Every axis inside a group is a non-null axis of a handled type. */
  lemma FitsClassified(axes: seq<AxisRef>, g: Group, dateOrigin: string -> Option<int>, j: nat)
    requires Fits(axes, g, dateOrigin) && g.lo <= j < g.hi
    ensures axes[j].Some? && axes[j].value.axisType.Some? && Handled(axes[j].value.axisType.value)
  {
  }

  /** A list made only of Lat/Lon axes becomes one geographic group, whatever its length. */
  lemma LatLonListIsOneGroup(axes: seq<AxisRef>, dateOrigin: string -> Option<int>)
    requires |axes| > 0
    requires forall j :: 0 <= j < |axes| ==> HasType(axes[j], Lat, Lon)
    ensures Classify(axes, |axes|, dateOrigin) == Split([Group(GeographicGroup, 0, |axes|)])
  {
    var n := |axes|;
    assert HasType(axes[n - 1], Lat, Lon);
    assert IsRun(axes, 0, n - 1, Lat, Lon);
    WholeRunLowers(axes, n - 1, Lat, Lon);
    var g := Group(GeographicGroup, 0, n);
    assert RunGroup(axes, n, Lat, Lon, GeographicGroup) == Success(Some(g));
    assert Step(axes, n, dateOrigin) == Success(Some(g));
    assert Classify(axes, 0, dateOrigin) == Split([]);
    assert [g] + [] == [g];
  }

  /** Below a run that reaches the start of the list, `lower` returns 0. */
  lemma WholeRunLowers(axes: seq<AxisRef>, upper: nat, t1: AxisType, t2: AxisType)
    requires upper <= |axes| && IsRun(axes, 0, upper, t1, t2)
    ensures LowerOf(axes, upper, t1, t2) == Success(0)
  {
    LowerOfFails(axes, upper, t1, t2);
  }

  /**
   * The netCDF list (time, height, latitude, longitude) is cut into a
   * geographic, a vertical and a temporal group, in that scan order.
   */
  lemma TimeHeightLatLonGroups(time: CoordinateAxis, height: CoordinateAxis, lat: CoordinateAxis,
                               lon: CoordinateAxis, dateOrigin: string -> Option<int>, origin: int)
    requires time.axisType == Some(Time) && height.axisType == Some(Height)
    requires lat.axisType == Some(Lat) && lon.axisType == Some(Lon)
    requires dateOrigin(time.unitsString) == Some(origin)
    ensures Classify([Some(time), Some(height), Some(lat), Some(lon)], 4, dateOrigin)
         == Split([Group(GeographicGroup, 2, 4), Group(VerticalGroup(Geoidal), 1, 2), Group(TemporalGroup(origin), 0, 1)])
  {
    var axes := [Some(time), Some(height), Some(lat), Some(lon)];
    assert LowerOf(axes, 3, Lat, Lon) == Success(2);
  }

  /** The netCDF list (latitude, longitude) is one geographic group. */
  lemma LatLonGroup(lat: CoordinateAxis, lon: CoordinateAxis, dateOrigin: string -> Option<int>)
    requires lat.axisType == Some(Lat) && lon.axisType == Some(Lon)
    ensures Classify([Some(lat), Some(lon)], 2, dateOrigin) == Split([Group(GeographicGroup, 0, 2)])
  {
    LatLonListIsOneGroup([Some(lat), Some(lon)], dateOrigin);
  }

  /** The netCDF list (y, x) of projected axes is one projected group. */
  lemma YXGroup(y: CoordinateAxis, x: CoordinateAxis, dateOrigin: string -> Option<int>)
    requires y.axisType == Some(GeoY) && x.axisType == Some(GeoX)
    ensures Classify([Some(y), Some(x)], 2, dateOrigin) == Split([Group(ProjectedGroup, 0, 2)])
  {
    assert LowerOf([Some(y), Some(x)], 1, GeoX, GeoY) == Success(0);
  }

  /**
   * A null netCDF axis directly below a latitude axis makes the scan throw:
   * `lower` asks the null element for its type.
   */
  lemma NullBelowLatitudeThrows(lat: CoordinateAxis, dateOrigin: string -> Option<int>)
    requires lat.axisType == Some(Lat)
    ensures Classify([None, Some(lat)], 2, dateOrigin) == Thrown(NullPointer)
  {
    assert LowerOf([None, Some(lat)], 1, Lat, Lon) == Failure(NullPointer);
  }

  /** A null netCDF axis met by the scan itself aborts it instead. */
  lemma NullAboveLatitudeAborts(lat: CoordinateAxis, dateOrigin: string -> Option<int>)
    requires lat.axisType == Some(Lat)
    ensures Classify([Some(lat), None], 2, dateOrigin) == Unsplit
  {
  }
}
