# netCDF coordinate systems as GeoAPI coordinate reference systems

This project models, in Dafny, the class `NetcdfCRS` of the GeoAPI netCDF
wrapper and its base class `NetcdfIdentifiedObject`. `NetcdfCRS` wraps a netCDF
`CoordinateSystem` as a GeoAPI coordinate reference system (CRS):

- **Axis order.** The CRS keeps its axes in the reverse of the netCDF order. The
  netCDF order is (time, height, latitude, longitude). The CRS order is
  (longitude, latitude, height, time).
- **`wrap`.** It scans the netCDF axes from the last one down. It groups them into
  components:
  - a run of latitude/longitude axes becomes one geographic component;
  - a run of GeoX/GeoY axes becomes one projected component;
  - each pressure, height or GeoZ axis becomes one vertical component;
  - each time or run-time axis becomes one temporal component.

  One component is returned as is. Several components become a compound CRS, in
  scan order. An axis that is null or untyped, or of any other type, stops the
  split. The whole system is then wrapped as one geographic, projected or plain CRS,
  according to the netCDF flags `isLatLon` and `isGeoXY`.
- **Accessors.** Dimension, axis, size, low and high grid indices, and the code of
  the wrapped system.
- **Grid-to-CRS transform.** The affine transform built from regular axes. Its
  scales and offsets are snapped by `nice` to the nearest multiple of 1/360 when
  360 times the value lies within 1e-10 of an integer, that is, when the value
  lies within 1e-10/360 of that multiple. The full-range transform is cached.
- **Projection.** A projected CRS creates its projection lazily.
- **`NetcdfIdentifiedObject`.** The code space "netCDF", the object as its own
  name, no identifiers, no alias, no WKT. Its `toString` is "netCDF:" followed by
  the trimmed code, quoted when it contains a space.

Modules:

- `Wrappers`: `Option`, `Result` and the Java exceptions as an `Error` value.
- `Numerics`: Java doubles as `NaN | PosInf | NegInf | Finite(real)`, `Math.rint`, `nice`.
- `Axes`: netCDF axis types, `CoordinateAxis1D` values, `NetcdfAxis`, and the reversal of axis lists.
- `Classification`: the scan of `wrap` as a function over the axis list. This includes `lower` and the datum type of a vertical axis.
- `GridTransform`: the affine matrix of `getGridToCRS(lower, upper)` as a specification function.
- `Crs`: the class `NetcdfCRS`.
  - Its subclasses (`Geographic`, `Projected`, `Vertical`, `Temporal`, `Compound`) are named constructors. A `Kind` value records which subclass an instance is.
  - Its methods are proved against the functions above.
- `Identified`: `NetcdfIdentifiedObject`.

A null Java reference is `None`; a thrown exception is `Failure(error)`.

Two observations follow from the model:

- `lower` does not check for null axes. A null netCDF axis directly below a
  latitude/longitude or GeoX/GeoY run therefore makes `wrap` throw a
  NullPointerException. A null axis reached by the scan itself aborts the split
  instead. The model keeps the code as written. The lemmas
  `Classification.NullBelowLatitudeThrows` and
  `Classification.NullAboveLatitudeAborts` show the two cases.
- The grid-to-CRS cache is refilled whenever it is still null. So a system with no
  transform recomputes it on every call. The model keeps this.

## Model

| member | source | states |
|---|---|---|
| Numerics.Rint | src/main/java/ucar/geoapi/NetcdfCRS.java:417 | `Math.rint`: the result is an integer within 1/2 of the argument; a half-way argument goes to the even integer, an integer to itself |
| Numerics.Nice | src/main/java/ucar/geoapi/NetcdfCRS.java:415-422 | `nice` either returns its argument or a multiple of 1/360 lying within 1e-10/360 of it; NaN and infinities are returned unchanged |
| Numerics.NiceSnaps | src/main/java/ucar/geoapi/NetcdfCRS.java:415-422 | a value whose product by 360 lies within 1e-10 of the integer k becomes exactly k/360 |
| Numerics.NiceKeeps | src/main/java/ucar/geoapi/NetcdfCRS.java:415-422 | a value farther than 1e-10/360 from every multiple of 1/360 is returned unchanged |
| Numerics.NiceIdempotent | src/main/java/ucar/geoapi/NetcdfCRS.java:415-422 | applying `nice` twice gives the same result as applying it once |
| Numerics.NiceOneThird | src/main/java/ucar/geoapi/NetcdfCRS.java:412-422 | a rounding error of up to 1e-13 around 1/3 is corrected to exactly 1/3 |
| Numerics.NiceKeepsExample | src/main/java/ucar/geoapi/NetcdfCRS.java:415-422 | 0.123456789 is not near a multiple of 1/360 and is kept |
| Axes.ReversedAt | src/main/java/ucar/geoapi/NetcdfCRS.java:43-48 | element k of the CRS axes wraps netCDF axis n-1-k |
| Axes.ReversedAppend | src/main/java/ucar/geoapi/NetcdfCRS.java:43-48 | reversing a concatenation reverses the order of the parts |
| Classification.VerticalDatumTypeOf | src/main/java/ucar/geoapi/NetcdfCRS.java:577-582 | Pressure, Height and GeoZ give barometric, geoidal and ellipsoidal datums; the result is "other surface" exactly for the other axis types |
| Classification.LowerOf | src/main/java/ucar/geoapi/NetcdfCRS.java:250-259 | `lower` gives the start of the longest run of t1/t2 axes ending just below `upper`; the axis below that start, if any, has another type; when it fails, it fails with NullPointerException |
| Classification.LowerOfFails | src/main/java/ucar/geoapi/NetcdfCRS.java:250-259 | `lower` throws exactly when a null axis lies directly below the run of t1/t2 axes ending just below `upper` |
| Classification.Lower | src/main/java/ucar/geoapi/NetcdfCRS.java:250-259 | the loop of `lower` computes `LowerOf` |
| Classification.Step | src/main/java/ucar/geoapi/NetcdfCRS.java:172-209 | one scan step of `wrap`: it yields no component exactly when the axis is null, untyped or of an unhandled type; a component it builds ends at the scanned axis and contains only axes that fit its category |
| Classification.StepIllegalArgument | src/main/java/ucar/geoapi/NetcdfCRS.java:184-187 | a scan step throws IllegalArgumentException exactly for a temporal axis whose unit has no date origin, and throws nothing but IllegalArgumentException or NullPointerException |
| Classification.StepNullPointer | src/main/java/ucar/geoapi/NetcdfCRS.java:189-202 | a scan step throws NullPointerException exactly when a null axis lies directly below the Lat/Lon or GeoX/GeoY run it starts |
| Classification.Classify | src/main/java/ucar/geoapi/NetcdfCRS.java:172-209 | the scan loop of `wrap`: it only ever throws IllegalArgumentException or NullPointerException; its other properties are stated by `ClassifySplit`, `TilingCovers`, `UnclassifiableAxisPreventsSplit` and `UnsplitHasUnclassifiable` |
| Classification.ClassifySplit | src/main/java/ucar/geoapi/NetcdfCRS.java:172-209 | when the scan succeeds, its components tile the netCDF axes from the top down, with no gap or overlap, and each fits its category |
| Classification.TilingReverses | src/main/java/ucar/geoapi/NetcdfCRS.java:135-142 | concatenating the axes of the tiling components gives the reversed netCDF axis list |
| Classification.TilingCovers | src/main/java/ucar/geoapi/NetcdfCRS.java:172-209 | every netCDF axis lies in exactly one component of a tiling |
| Classification.UnclassifiableAxisPreventsSplit | src/main/java/ucar/geoapi/NetcdfCRS.java:206-208 | an axis that is null, untyped or of an unhandled type never ends up in a split |
| Classification.UnsplitHasUnclassifiable | src/main/java/ucar/geoapi/NetcdfCRS.java:174-208 | the split is abandoned only when some scanned axis is null, untyped or of an unhandled type |
| Classification.BadTopTimeUnitThrows | src/main/java/ucar/geoapi/NetcdfCRS.java:488-496 | a last time axis whose unit does not parse makes the scan throw IllegalArgumentException |
| Classification.LatLonListIsOneGroup | src/main/java/ucar/geoapi/NetcdfCRS.java:189-195 | a list made only of latitude/longitude axes is one geographic component over all of them |
| Classification.TimeHeightLatLonGroups | src/main/java/ucar/geoapi/NetcdfCRS.java:43-48 | (time, height, lat, lon) splits into geographic (lat, lon), geoidal vertical (height) and temporal (time), in that order |
| Classification.LatLonGroup | src/main/java/ucar/geoapi/NetcdfCRS.java:189-195 | (lat, lon) is one geographic component |
| Classification.YXGroup | src/main/java/ucar/geoapi/NetcdfCRS.java:196-202 | (y, x) is one projected component |
| Classification.NullBelowLatitudeThrows | src/main/java/ucar/geoapi/NetcdfCRS.java:250-253 | (null, lat) makes the scan throw NullPointerException |
| Classification.NullAboveLatitudeAborts | src/main/java/ucar/geoapi/NetcdfCRS.java:172-208 | (lat, null) aborts the split without an exception |
| GridTransform.FirstUngridded | src/main/java/ucar/geoapi/NetcdfCRS.java:393-401 | the first axis of the range that is null, irregular, or has a NaN or zero increment; `None` exactly when every axis qualifies |
| GridTransform.GridToCRSOf | src/main/java/ucar/geoapi/NetcdfCRS.java:387-410 | IllegalArgumentException exactly for a range outside [0, dimension]; otherwise a transform exactly when every axis is regular with a usable increment; when some axis is not, the first such axis decides: null throws NullPointerException, otherwise no transform (null); the matrix has `nice(increment)` on the diagonal, `nice(start)` in the last column, and identity elsewhere |
| GridTransform.TenthDegreeGrid | src/main/java/ucar/geoapi/NetcdfCRS.java:387-422 | two regular axes of spacing 0.1 from 0 give the 3×3 matrix diag(0.1, 0.1, 1) |
| Crs.ComponentAxesLength | src/main/java/ucar/geoapi/NetcdfCRS.java:135-142 | the dimension of a compound is the sum of its components' dimensions |
| Crs.ComponentAxesSnoc | src/main/java/ucar/geoapi/NetcdfCRS.java:138-140 | adding a component appends its axes |
| Crs.BuiltAxes | src/main/java/ucar/geoapi/NetcdfCRS.java:135-142 | the concatenated axes of the built components are their groups' reversed netCDF axes |
| Crs.NetcdfCRS.ReverseAxes | src/main/java/ucar/geoapi/NetcdfCRS.java:120-129 | the loop fills a fresh array with the netCDF axes in reverse order |
| Crs.NetcdfCRS.constructor | src/main/java/ucar/geoapi/NetcdfCRS.java:120-129 | a plain CRS over the reversed axes, with empty caches |
| Crs.NetcdfCRS.Geographic | src/main/java/ucar/geoapi/NetcdfCRS.java:638-641 | a geographic CRS over the reversed axes, with the given datum |
| Crs.NetcdfCRS.Projected | src/main/java/ucar/geoapi/NetcdfCRS.java:692-695 | a projected CRS over the reversed axes, with the given datum and no projection yet |
| Crs.NetcdfCRS.Vertical | src/main/java/ucar/geoapi/NetcdfCRS.java:575-583 | a one-axis vertical CRS whose datum type follows the axis type |
| Crs.NetcdfCRS.Temporal | src/main/java/ucar/geoapi/NetcdfCRS.java:488-497 | a one-axis temporal CRS with the given origin |
| Crs.NetcdfCRS.NewTemporal | src/main/java/ucar/geoapi/NetcdfCRS.java:488-497 | IllegalArgumentException exactly when the unit string has no date origin; otherwise a temporal CRS at that origin |
| Crs.NetcdfCRS.Compound | src/main/java/ucar/geoapi/NetcdfCRS.java:135-142 | a compound CRS whose axes are the components' axes concatenated in order, and whose components are those given |
| Crs.NetcdfCRS.GetDimension | src/main/java/ucar/geoapi/NetcdfCRS.java:293-295 | the number of axes |
| Crs.NetcdfCRS.GetAxis | src/main/java/ucar/geoapi/NetcdfCRS.java:317-319 | the axis at a dimension in range; IndexOutOfBoundsException exactly otherwise |
| Crs.NetcdfCRS.GetSize | src/main/java/ucar/geoapi/NetcdfCRS.java:330-332 | the length of the axis; IndexOutOfBoundsException exactly for a dimension out of range |
| Crs.NetcdfCRS.GetHigh | src/main/java/ucar/geoapi/NetcdfCRS.java:348-355 | [low, high] holds exactly as many indices as the axis has values; IndexOutOfBoundsException exactly for a dimension out of range |
| Crs.NetcdfCRS.GetGridToCRSRange | src/main/java/ucar/geoapi/NetcdfCRS.java:387-410 | the loop over the range computes `GridToCRSOf` |
| Crs.NetcdfCRS.GetGridToCRS | src/main/java/ucar/geoapi/NetcdfCRS.java:366-371 | returns the full-range transform; caches it when there is one; the cache always agrees with `GridToCRSOf` |
| Crs.NetcdfCRS.GetConversionFromBase | src/main/java/ucar/geoapi/NetcdfCRS.java:729-738 | IllegalStateException when the netCDF system has no projection; otherwise the wrapped projection on the CRS datum, cached |
| Crs.NetcdfCRS.Wrap | src/main/java/ucar/geoapi/NetcdfCRS.java:156-239 | null gives null. Otherwise, when the scan throws, the exception. Otherwise a valid fresh CRS whose axes are the reversed netCDF axes: the fallback kind when nothing was split, the single component itself, or a compound of the components in scan order, each built from its group of axes |
| Crs.NetcdfCRS.Scan | src/main/java/ucar/geoapi/NetcdfCRS.java:170-209 | the loop of `wrap`: it throws exactly the exception the scan `Classify` throws; it returns no components when the scan aborts, and otherwise one fresh, valid component per group of the split, in scan order, each built from its group of axes |
| Crs.NetcdfCRS.ComponentAt | src/main/java/ucar/geoapi/NetcdfCRS.java:173-205 | the switch body: it builds the component `Step` describes, with its lowest axis index, or none, or the exception |
| Crs.NetcdfCRS.Assemble | src/main/java/ucar/geoapi/NetcdfCRS.java:210-238 | the size switch: the fallback for zero components, the component itself for one, a compound for several; the result always covers all reversed axes |
| Crs.WrapTimeHeightLatLon | src/main/java/ucar/geoapi/NetcdfCRS.java:43-48 | (time, height, lat, lon) wraps as a compound of geographic, geoidal vertical and temporal components, with axes (lon, lat, height, time) |
| Crs.WrapProjectedGrid | src/main/java/ucar/geoapi/NetcdfCRS.java:196-202 | a regular (y, x) system wraps as one projected CRS whose grid-to-CRS matrix is diag(0.1, 0.1, 1) |
| Crs.WrapBadTimeUnit | src/main/java/ucar/geoapi/NetcdfCRS.java:184-187 | a system whose last axis is a time axis with an unparseable unit makes `wrap` throw IllegalArgumentException |
| Identified.ConstantAccessors | src/main/java/ucar/geoapi/NetcdfIdentifiedObject.java:63-115 | code space "netCDF", the object is its own name, no identifiers, no alias |
| Identified.LeadingBlanks | src/main/java/ucar/geoapi/NetcdfIdentifiedObject.java:192 | the leading characters `trim` removes are all blank, and the next one is not |
| Identified.TrailingBlanks | src/main/java/ucar/geoapi/NetcdfIdentifiedObject.java:192 | the trailing characters `trim` removes are all blank, and the one before them is not |
| Identified.Trim | src/main/java/ucar/geoapi/NetcdfIdentifiedObject.java:192 | `trim` gives a slice of the string that neither starts nor ends with a blank |
| Identified.TrimIdempotent | src/main/java/ucar/geoapi/NetcdfIdentifiedObject.java:192 | trimming twice gives the same result as trimming once |
| Identified.ToString | src/main/java/ucar/geoapi/NetcdfIdentifiedObject.java:189-202 | "netCDF:" followed by the trimmed code, in double quotes exactly when the code contains a space |

## Left out

- `Temporal.complete` (NetcdfCRS.java:511-527) is modelled as the identity. It reads the netCDF dataset and logs, which is I/O.
- `DateUnit` parsing is the parameter `dateOrigin` of `Wrap`. The unit of the temporal axis (NetcdfCRS.java:498) is not modelled. `NetcdfAxis` is reduced to its delegate.
- The `MathTransformFactory` is assumed to succeed, so the IllegalStateException at NetcdfCRS.java:407-408 is not modelled. The transform is the matrix itself.
- `SimpleMatrix` is assumed to start as the identity matrix.
- Doubles are modelled as reals. IEEE rounding of `value * 360` and `ti / 360` is not modelled.
- `NetcdfProjection` and `NetcdfEllipsoid` are reduced to their inputs. The netCDF flags `isLatLon` and `isGeoXY` are booleans of the system.
- The ClassCastException for an axis that is not one-dimensional is not modelled. Every axis is a `CoordinateAxis1D` value.
- `synchronized`, serialization, and `getVersion`, `getAuthority`, `getScope`, `getAnchorPoint`, `getRealizationEpoch` and `getRemarks` are left out. They are constants or package lookups that say nothing about the CRS.
- `getDomainOfValidity` is left out. The base version (NetcdfIdentifiedObject.java:127-129) returns the constant whole-world extent. The override in `Projected` (NetcdfCRS.java:744-746) calls `getConversionFromBase`, so without a projection it throws the IllegalStateException that `GetConversionFromBase` models. Past that call it only hands the projection's domain to the projection library, which is not part of this model.
- The accessors that return `this` or one of its final fields: `getCoordinateSystem`, `getDatum`, `getComponents`, `getBaseCRS`, `getOrigin`, `getVerticalDatumType`. The model keeps those fields in `Kind` and has no accessor methods for them.
- Crs.NetcdfCRS.Vertical: requires a typed axis. `wrap` only builds vertical components from typed axes, and the Java constructor would throw NullPointerException on an untyped one.
- Crs.NetcdfCRS.GetSize: a null delegate gives NullPointerException. The model assumes `NetcdfAxis.length()` dereferences the delegate, because that file is not part of this model.
- `GetLow` and `GetCode` carry no contract of their own. They return 0 and the name of the netCDF system.
- Identified.ToString: lengths count Unicode scalar values, while Java's `String.length()` counts UTF-16 code units; for names with characters outside the Basic Multilingual Plane the two lengths differ.
