/** The geometries of a decoded GeoJSON feature collection, as the tool sees them. */
module GeoJson {

  /** An orb.Point: longitude first, latitude second. Coordinates are mathematical reals. */
  datatype Point = Point(lon: real, lat: real)

  /** A sequence of points; in a polygon the first ring is the outer boundary, the others are holes. */
  type Ring = seq<Point>

  /**
   * The geometry of one feature. The four kinds the tool inspects are listed
   * explicitly; every other GeoJSON kind (Point, MultiPoint, GeometryCollection)
   * is `Unsupported` and is skipped by both the scanner and the rasterizer.
   */
  datatype Geometry =
    | LineString(points: seq<Point>)
    | MultiLineString(lines: seq<seq<Point>>)
    | Polygon(rings: seq<Ring>)
    | MultiPolygon(polygons: seq<seq<Ring>>)
    | Unsupported(kind: string)

  /** math.MaxFloat64, the largest finite float64, written out exactly: (2^53 - 1) * 2^971. */
  const MaxFloat64: real := 179769313486231570814527423731704356798070567525844996598917476803157260780028538760589558632766878171540458953514382464234321326889464182768467546703537516986049910576551282076245490090389328944075868508455133942304583236903222948165808559332123348274797826204144723168738177180919299881250404026184124858368.0

  /** A point whose coordinates are finite float64 values. */
  predicate Finite(p: Point) {
    -MaxFloat64 <= p.lon <= MaxFloat64 && -MaxFloat64 <= p.lat <= MaxFloat64
  }
}
