# geojson_tool in Dafny

This project models the two computations at the core of geojson_tool, a
command-line program. The program reads a GeoJSON feature collection, writes
a bounding-box summary and can also rasterize the polygons into a greyscale
image.

- **Extent scanner** (`extent.dfy`, module `ExtentScanner`). This covers the
  `Feature` accumulator, `setMinMax` and `scanFeatures`.
  - `Feature` is a class whose fields are updated in place:
    `minLon`, `minLat`, `maxLon`, `maxLat`, `dLon`, `dLat`, `count`, `scale`,
    `pgmFile`, `pgmWidth` and `pgmHeight`. They stand for the Go fields
    `MinLon`, `MinLat`, …, `PGMHeight`.
  - The scan is proved equal to a fold of `Step` over the points it visits.
    `Step` is one `setMinMax`, on values. `Visited` and `VisitedAll` say which
    points are visited:
    - every point of a LineString;
    - every point of every line of a MultiLineString;
    - the outer ring of a Polygon;
    - the outer ring of the first polygon of a MultiPolygon;
    - nothing for any other geometry kind.
  - The scan starts from the `±MaxFloat64` sentinels. `DLon` and `DLat` are
    derived once, after the loop.
- **Rasterizer** (`raster.dfy`, module `Rasterizer`). This covers the
  pixel-marking loops of `outputPGM`.
  - A grid of `pgmWidth` × `pgmHeight` bytes starts at 0. It is indexed
    `img[x, y]`, as `SetGray(x, y)` is.
  - For every Polygon feature, nested `x`/`y` loops set to 255 each pixel
    whose sample point `(MinLon + x·Scale, MaxLat − y·Scale)` the polygon
    contains.
  - The point-in-polygon test (`planar.PolygonContains`) is a function-valued
    parameter, `contains`.
  - The specification is `Covered`: a pixel is 255 exactly when some Polygon
    feature contains its sample point.
- **main** (`tool.dfy`, module `Tool`). This covers the flow from the scan to
  the rasterizer, including the `DLon == 0` guard that aborts with "Zero width!".
- `geojson.dfy` (module `GeoJson`) holds the geometry datatype, points with
  real coordinates and the constant `MaxFloat64`.

Facts about the code that the model keeps:

- outputPGM tests every Polygon feature for every pixel and writes 255 again
  when a later feature also contains the sample point; there is no `break`
  (geojson_tool.go:92-113). The grid is the same as if testing stopped at the
  first match (`CoveredIffSome`, `CoveredOrderIndependent`).
- main checks only `DLon == 0` (geojson_tool.go:205), so a negative `DLon`
  passes the guard.
  - An empty collection, or one with only unsupported geometries, keeps the
    sentinels. Its `DLon` is then negative, so it passes the guard and
    reaches outputPGM. `Tool.Run` states this.
  - In float64 that `DLon` is −Inf, and what happens next depends on
    `int(math.Ceil(NaN))` (geojson_tool.go:87-88). With reals it is −2·MaxFloat64.
- The count is the number of points stored in the rings visited, so a closed
  square ring (first point repeated at the end) counts 5.

## Model

| member | source | states |
|---|---|---|
| `ExtentScanner.Min` | geojson_tool.go:65-67 | the new minimum is at most both the old value and the coordinate, and is one of them |
| `ExtentScanner.Max` | geojson_tool.go:68-70 | the new maximum is at least both the old value and the coordinate, and is one of them |
| `ExtentScanner.Step` | geojson_tool.go:63-79 | one setMinMax on values: the point lies in the new box, the box only grows, each bound is the old bound or the point's coordinate, and the count rises by exactly 1 |
| `ExtentScanner.Feature.constructor` | geojson_tool.go:194 | `&Feature{}`: every field is zero |
| `ExtentScanner.Feature.SetMinMax` | geojson_tool.go:63-79 | after the call, MinLon ≤ lon ≤ MaxLon and MinLat ≤ lat ≤ MaxLat; Mins never rise and Maxes never fall; Count rises by exactly 1; the accumulated fields equal `Step` of the old ones; every other field is unchanged |
| `ExtentScanner.Feature.SetMinMaxAll` | geojson_tool.go:173-175 | calling setMinMax on each point of a line leaves the fields equal to the fold of `Step` over the line from the old fields; the other fields are unchanged |
| `ExtentScanner.Feature.ScanGeometry` | geojson_tool.go:152-184 | one iteration of the scan folds exactly the visited points of that geometry into the fields: all of a LineString, all lines of a MultiLineString, `mp[0]` of a Polygon, `mp[0][0]` of a MultiPolygon, nothing otherwise |
| `ExtentScanner.ScanFeatures` | geojson_tool.go:138-190 | the result is a new Feature equal to the fold over all visited points from the sentinels; Count is the number of visited points and every visited point is inside the box; Count = 0 leaves the sentinels; DLon = MaxLon − MinLon and DLat = MaxLat − MinLat, both ≥ 0 once a point was visited |
| `ExtentScanner.ScanCount` | geojson_tool.go:77 | the count after scanning is the starting count plus the number of points scanned |
| `ExtentScanner.ScanEncloses` | geojson_tool.go:148-186 | scanning only moves the bounds outward, and every scanned point lies within the final box |
| `ExtentScanner.ScanAttained` | geojson_tool.go:65-76 | each final bound is its starting value or a coordinate of some scanned point |
| `ExtentScanner.ScanMonotone` | geojson_tool.go:148-186 | scanning a set of points that contains all points of another gives a box enclosing that one's box |
| `ExtentScanner.ScanOrderIndependent` | geojson_tool.go:148-186 | any permutation of the visited points gives the same extent and count |
| `ExtentScanner.ScanConcat` | geojson_tool.go:148-186 | scanning `a + b` equals scanning `b` from the result of scanning `a`, so the scan can be split per geometry and resumed |
| `ExtentScanner.ScanUnsupportedOnly` | geojson_tool.go:139-186 | an empty collection, or one of unsupported geometry kinds only, visits no point and returns exactly the sentinels with Count = 0 |
| `ExtentScanner.ScanBoundsAttained` | geojson_tool.go:139-188 | when Count > 0 and the visited coordinates are finite float64 values, MinLon ≤ MaxLon and MinLat ≤ MaxLat, and each of the four bounds equals a coordinate of some visited point |
| `Rasterizer.CoveredIffSome` | geojson_tool.go:92-116 | a sample point is marked after the feature loop exactly when some Polygon feature contains it |
| `Rasterizer.CoveredOrderIndependent` | geojson_tool.go:92-116 | any permutation of the features marks the same points |
| `Rasterizer.CoveredIgnoresNonPolygon` | geojson_tool.go:94-97 | inserting a LineString, MultiLineString, MultiPolygon or unsupported feature anywhere changes no pixel |
| `Rasterizer.CoveredAppend` | geojson_tool.go:92-116 | the features of `a + b` mark a point exactly when those of `a` or those of `b` do |
| `Rasterizer.OutputPGM` | geojson_tool.go:81-116 | Scale, PGMWidth and PGMHeight are stored and the accumulated fields are unchanged; the new grid is PGMWidth × PGMHeight; every pixel is 0 or 255, and 255 exactly when some Polygon feature contains `(MinLon + x·Scale, MaxLat − y·Scale)` |
| `Tool.Run` | geojson_tool.go:192-211 | the Feature is the scan of the loaded collection, or zero when none is loaded; no -pgm means no raster; "Zero width!" exactly when -pgm is set and DLon = 0, and so always when nothing was loaded; an empty collection passes the guard with DLon < 0; otherwise the raster is the grid `OutputPGM` promises and PGMFile is recorded; without a raster Scale, PGMFile, PGMWidth and PGMHeight stay zero, as main then serialises them |

## Left out

- Loading and decoding the file (`loadGeoJson`, geojson_tool.go:49-61) is file I/O and an external decoder. The model takes the decoded geometries as a sequence. A decode error is ignored in the source and is not modelled.
- Feature properties and ids are dropped. Only each feature's geometry is kept.
- Writing PGM and PNG (geojson_tool.go:118-134) and the JSON and YAML summaries (geojson_tool.go:213-232) are library codecs and file I/O.
- Flag parsing and globals (geojson_tool.go:25-37, 193) are left out. The flags `-pgm`, `-width` and `-file` reach the model as parameters: `pgmFile`, the given `scale` and grid size, and an `Option` input.
- The progress ticker and all printing (geojson_tool.go:82, 91, 101-106, 114, 147, 172, 180, 199-202) have no effect on the Feature or the grid.
- Floating point is left out. Coordinates are reals, so NaN, ±Inf, overflow and rounding are not modelled.
  - A comparison with NaN and the −Inf that `DLon` becomes for an empty scan are not captured.
  - `ScanBoundsAttained` asks for finite coordinates, because in float64 every finite value lies within ±MaxFloat64.
- The float computations of `Scale = DLon / width`, `PGMWidth = int(Ceil(DLon / Scale))` and `PGMHeight = int(Ceil(DLat / Scale))` (geojson_tool.go:85-88, 208) are not modelled. These values are parameters of `OutputPGM` and `Tool.Run`. The grid size is a `nat`, so the out-of-range `int` conversions are not captured.
- `planar.PolygonContains` is a foreign library. It is the parameter `contains`, with no property assumed.
- `Count` is a Go `int`. Here it is a `nat` with no 64-bit overflow.
- A Polygon with no rings, or a MultiPolygon with no polygons or with an empty first polygon, makes `scanFeatures` panic with an index out of range (geojson_tool.go:170, 178). The model requires scanned geometries to be non-empty (`Scannable`).
- The source also panics when a geometry reports type "Polygon" but is not an `orb.Polygon`. Decoding GeoJSON never produces one, and `Geometry` has no such kind.
- The memory layout of `image.Gray` (row-major `Pix` with a stride) is not modelled. The grid is a two-dimensional array indexed as `SetGray(x, y)`.
