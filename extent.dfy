/**
 * The extent scanner: the Feature accumulator, setMinMax and scanFeatures.
 *
 * The specification side folds `Step` (one setMinMax on values) over the
 * points a feature collection visits; the imperative side is the Feature
 * class whose fields the scan updates in place, proved equal to that fold.
 */
module ExtentScanner {
  import opened GeoJson

  /** The fields of a Feature that the scan accumulates. */
  datatype Extent = Extent(minLon: real, minLat: real, maxLon: real, maxLat: real, count: nat)

  /** The accumulator scanFeatures starts from: inverted ±MaxFloat64 bounds and no points. */
  const Sentinels: Extent := Extent(MaxFloat64, MaxFloat64, -MaxFloat64, -MaxFloat64, 0)

  /** A Min field after setMinMax (geojson_tool.go:65-67, 71-73): the smaller of the old value and the coordinate, and one of them. */
  function Min(a: real, b: real): (r: real)
    ensures r <= a && r <= b
    ensures r == a || r == b
  {
    if b < a then b else a
  }

  /** A Max field after setMinMax (geojson_tool.go:68-70, 74-76): the larger of the old value and the coordinate, and one of them. */
  function Max(a: real, b: real): (r: real)
    ensures r >= a && r >= b
    ensures r == a || r == b
  {
    if b > a then b else a
  }

  /** The point lies in the extent's box [minLon, maxLon] x [minLat, maxLat]. */
  predicate Within(e: Extent, p: Point) {
    e.minLon <= p.lon <= e.maxLon && e.minLat <= p.lat <= e.maxLat
  }

  /** The box of `outer` contains the box of `inner`: no Min above, no Max below. */
  predicate Encloses(outer: Extent, inner: Extent) {
    outer.minLon <= inner.minLon && outer.minLat <= inner.minLat &&
    outer.maxLon >= inner.maxLon && outer.maxLat >= inner.maxLat
  }

  /** One call of setMinMax, on values. */
  function Step(e: Extent, p: Point): (r: Extent)
    ensures Within(r, p)
    ensures Encloses(r, e)
    ensures r.count == e.count + 1
    ensures (r.minLon == e.minLon || r.minLon == p.lon) && (r.minLat == e.minLat || r.minLat == p.lat)
    ensures (r.maxLon == e.maxLon || r.maxLon == p.lon) && (r.maxLat == e.maxLat || r.maxLat == p.lat)
  {
    Extent(Min(e.minLon, p.lon), Min(e.minLat, p.lat), Max(e.maxLon, p.lon), Max(e.maxLat, p.lat), e.count + 1)
  }

  /** setMinMax applied to the points in order, starting from `e`. */
  function ScanPoints(e: Extent, pts: seq<Point>): (r: Extent)
    decreases |pts|
  {
    if pts == [] then e else Step(ScanPoints(e, pts[..|pts| - 1]), pts[|pts| - 1])
  }

  /**
   * The geometries scanFeatures can visit without an index out of range:
   * a Polygon needs its outer ring, a MultiPolygon a first polygon with an outer ring.
   */
  predicate Scannable(g: Geometry) {
    match g
    case Polygon(rings) => |rings| > 0
    case MultiPolygon(polygons) => |polygons| > 0 && |polygons[0]| > 0
    case _ => true
  }

  predicate AllScannable(fcs: seq<Geometry>) {
    forall i :: 0 <= i < |fcs| ==> Scannable(fcs[i])
  }

  /** The points of the lines, line after line. */
  function Concat(lines: seq<seq<Point>>): (pts: seq<Point>) {
    if lines == [] then [] else Concat(lines[..|lines| - 1]) + lines[|lines| - 1]
  }

  /**
   * The points scanFeatures visits in one geometry: all points of a LineString,
   * all points of all lines of a MultiLineString, the outer ring of a Polygon,
   * the outer ring of the first polygon of a MultiPolygon, nothing otherwise.
   */
  function Visited(g: Geometry): (pts: seq<Point>)
    requires Scannable(g)
  {
    match g
    case LineString(points) => points
    case MultiLineString(lines) => Concat(lines)
    case Polygon(rings) => rings[0]
    case MultiPolygon(polygons) => polygons[0][0]
    case Unsupported(_) => []
  }

  /** The points scanFeatures visits in the whole collection, feature after feature. */
  function VisitedAll(fcs: seq<Geometry>): (pts: seq<Point>)
    requires AllScannable(fcs)
  {
    if fcs == [] then [] else VisitedAll(fcs[..|fcs| - 1]) + Visited(fcs[|fcs| - 1])
  }

  /** The extent scanFeatures computes for the collection. */
  function Scan(fcs: seq<Geometry>): (r: Extent)
    requires AllScannable(fcs)
  {
    ScanPoints(Sentinels, VisitedAll(fcs))
  }

  /** Scanning one more point is one more Step. */
  lemma ScanSnoc(e: Extent, pts: seq<Point>, p: Point)
    ensures ScanPoints(e, pts + [p]) == Step(ScanPoints(e, pts), p)
  {
    assert (pts + [p])[..|pts|] == pts;
  }

  /** The count is the number of points scanned. */
  lemma {:induction false} ScanCount(e: Extent, pts: seq<Point>)
    ensures ScanPoints(e, pts).count == e.count + |pts|
  {
    if pts != [] {
      ScanCount(e, pts[..|pts| - 1]);
    }
  }

  /** Scanning only moves the bounds outward, and every scanned point ends up inside them. */
  lemma {:induction false} ScanEncloses(e: Extent, pts: seq<Point>)
    ensures Encloses(ScanPoints(e, pts), e)
    ensures forall k :: 0 <= k < |pts| ==> Within(ScanPoints(e, pts), pts[k])
  {
    if pts != [] {
      var front := pts[..|pts| - 1];
      ScanEncloses(e, front);
      assert forall k :: 0 <= k < |front| ==> pts[k] == front[k];
    }
  }

  /** Each bound after the scan is its starting value or a coordinate of a scanned point. */
  predicate Attained(r: Extent, e: Extent, pts: seq<Point>) {
    (r.minLon == e.minLon || exists k :: 0 <= k < |pts| && pts[k].lon == r.minLon) &&
    (r.minLat == e.minLat || exists k :: 0 <= k < |pts| && pts[k].lat == r.minLat) &&
    (r.maxLon == e.maxLon || exists k :: 0 <= k < |pts| && pts[k].lon == r.maxLon) &&
    (r.maxLat == e.maxLat || exists k :: 0 <= k < |pts| && pts[k].lat == r.maxLat)
  }

  lemma {:induction false} ScanAttained(e: Extent, pts: seq<Point>)
    ensures Attained(ScanPoints(e, pts), e, pts)
  {
    if pts != [] {
      var n := |pts| - 1;
      var front := pts[..n];
      ScanAttained(e, front);
      assert forall k :: 0 <= k < |front| ==> pts[k] == front[k];
      assert pts[n] == pts[|pts| - 1];
    }
  }

  /** Scanning a set of points that includes all of `b`'s gives a box at least as large as scanning `b`. */
  lemma ScanMonotone(e: Extent, a: seq<Point>, b: seq<Point>)
    requires forall k :: 0 <= k < |b| ==> b[k] in a
    ensures Encloses(ScanPoints(e, a), ScanPoints(e, b))
  {
    ScanEncloses(e, a);
    ScanAttained(e, b);
  }

  /**
   * The result does not depend on the order of the points: any permutation of
   * the visited points gives the same extent.
   */
  lemma ScanOrderIndependent(e: Extent, a: seq<Point>, b: seq<Point>)
    requires multiset(a) == multiset(b)
    ensures ScanPoints(e, a) == ScanPoints(e, b)
  {
    assert |a| == |multiset(a)| == |multiset(b)| == |b|;
    forall k | 0 <= k < |b| ensures b[k] in a {
      assert b[k] in multiset(b);
    }
    forall k | 0 <= k < |a| ensures a[k] in b {
      assert a[k] in multiset(a);
    }
    ScanMonotone(e, a, b);
    ScanMonotone(e, b, a);
    ScanCount(e, a);
    ScanCount(e, b);
  }

  /** Scanning one run of points after another equals scanning them together, so the scan can be split and resumed. */
  lemma {:induction false} ScanConcat(e: Extent, a: seq<Point>, b: seq<Point>)
    ensures ScanPoints(e, a + b) == ScanPoints(ScanPoints(e, a), b)
  {
    if b == [] {
      assert a + b == a;
    } else {
      var front := b[..|b| - 1];
      ScanConcat(e, a, front);
      assert a + b == (a + front) + [b[|b| - 1]];
      ScanSnoc(e, a + front, b[|b| - 1]);
    }
  }

  /**
   * A collection with no LineString, MultiLineString, Polygon or MultiPolygon
   * visits no point and leaves the sentinels in place.
   */
  lemma {:induction false} ScanUnsupportedOnly(fcs: seq<Geometry>)
    requires forall i :: 0 <= i < |fcs| ==> fcs[i].Unsupported?
    ensures AllScannable(fcs) && VisitedAll(fcs) == [] && Scan(fcs) == Sentinels
  {
    if fcs != [] {
      ScanUnsupportedOnly(fcs[..|fcs| - 1]);
    }
  }

  /**
   * Once a finite point has been visited, each box is non-empty and each of
   * its four bounds is a coordinate of some visited point.
   */
  lemma ScanBoundsAttained(fcs: seq<Geometry>)
    requires AllScannable(fcs)
    requires forall k :: 0 <= k < |VisitedAll(fcs)| ==> Finite(VisitedAll(fcs)[k])
    requires Scan(fcs).count > 0
    ensures Scan(fcs).minLon <= Scan(fcs).maxLon && Scan(fcs).minLat <= Scan(fcs).maxLat
    ensures exists k :: 0 <= k < |VisitedAll(fcs)| && VisitedAll(fcs)[k].lon == Scan(fcs).minLon
    ensures exists k :: 0 <= k < |VisitedAll(fcs)| && VisitedAll(fcs)[k].lat == Scan(fcs).minLat
    ensures exists k :: 0 <= k < |VisitedAll(fcs)| && VisitedAll(fcs)[k].lon == Scan(fcs).maxLon
    ensures exists k :: 0 <= k < |VisitedAll(fcs)| && VisitedAll(fcs)[k].lat == Scan(fcs).maxLat
  {
    var pts := VisitedAll(fcs);
    ScanCount(Sentinels, pts);
    ScanEncloses(Sentinels, pts);
    ScanAttained(Sentinels, pts);
    assert Within(Scan(fcs), pts[0]) && Finite(pts[0]);
  }

  /** The scan's accumulator, updated in place as scanFeatures does with its *Feature. */
  class Feature {
    var minLon: real
    var minLat: real
    var maxLon: real
    var maxLat: real
    var dLon: real
    var dLat: real
    var count: nat
    var scale: real
    var pgmFile: string
    var pgmWidth: int
    var pgmHeight: int

    /** `&Feature{}`: every field at its zero value. */
    constructor ()
      ensures minLon == 0.0 && minLat == 0.0 && maxLon == 0.0 && maxLat == 0.0
      ensures dLon == 0.0 && dLat == 0.0 && count == 0
      ensures scale == 0.0 && pgmFile == "" && pgmWidth == 0 && pgmHeight == 0
    {
      minLon, minLat, maxLon, maxLat := 0.0, 0.0, 0.0, 0.0;
      dLon, dLat, count := 0.0, 0.0, 0;
      scale, pgmFile, pgmWidth, pgmHeight := 0.0, "", 0, 0;
    }

    /** The accumulated fields as an Extent value. */
    function Bounds(): Extent
      reads this
    {
      Extent(minLon, minLat, maxLon, maxLat, count)
    }

    /** True when the fields the scan does not accumulate have the given values. */
    predicate SameDerived(dLon0: real, dLat0: real, scale0: real, pgmFile0: string, pgmWidth0: int, pgmHeight0: int)
      reads this
    {
      dLon == dLon0 && dLat == dLat0 && scale == scale0 &&
      pgmFile == pgmFile0 && pgmWidth == pgmWidth0 && pgmHeight == pgmHeight0
    }

    /** setMinMax: widen the box to take in (lon, lat) and count the point. */
    method SetMinMax(lon: real, lat: real)
      modifies this
      ensures Bounds() == Step(old(Bounds()), Point(lon, lat))
      ensures minLon <= lon <= maxLon && minLat <= lat <= maxLat
      ensures minLon <= old(minLon) && minLat <= old(minLat) && maxLon >= old(maxLon) && maxLat >= old(maxLat)
      ensures count == old(count) + 1
      ensures SameDerived(old(dLon), old(dLat), old(scale), old(pgmFile), old(pgmWidth), old(pgmHeight))
    {
      if lon < minLon {
        minLon := lon;
      }
      if lon > maxLon {
        maxLon := lon;
      }
      if lat < minLat {
        minLat := lat;
      }
      if lat > maxLat {
        maxLat := lat;
      }
      count := count + 1;
    }

    /** setMinMax on each point of one line or ring, in order (the inner loops at geojson_tool.go:154-156, 164-166, 173-175, 181-183). */
    method SetMinMaxAll(ls: seq<Point>)
      modifies this
      ensures Bounds() == ScanPoints(old(Bounds()), ls)
      ensures SameDerived(old(dLon), old(dLat), old(scale), old(pgmFile), old(pgmWidth), old(pgmHeight))
    {
      ghost var start := Bounds();
      for j := 0 to |ls|
        invariant Bounds() == ScanPoints(start, ls[..j])
        invariant SameDerived(old(dLon), old(dLat), old(scale), old(pgmFile), old(pgmWidth), old(pgmHeight))
      {
        SetMinMax(ls[j].lon, ls[j].lat);
        ScanSnoc(start, ls[..j], ls[j]);
        assert ls[..j + 1] == ls[..j] + [ls[j]];
      }
      assert ls[..|ls|] == ls;
    }

    /** The body of scanFeatures' loop for one geometry: setMinMax on each point it visits. */
    method ScanGeometry(g: Geometry)
      requires Scannable(g)
      modifies this
      ensures Bounds() == ScanPoints(old(Bounds()), Visited(g))
      ensures SameDerived(old(dLon), old(dLat), old(scale), old(pgmFile), old(pgmWidth), old(pgmHeight))
    {
      match g {
        case LineString(ls) =>
          SetMinMaxAll(ls);
        case MultiLineString(mls) =>
          ghost var start := Bounds();
          assert mls[..0] == [];
          for k := 0 to |mls|
            invariant Bounds() == ScanPoints(start, Concat(mls[..k]))
            invariant SameDerived(old(dLon), old(dLat), old(scale), old(pgmFile), old(pgmWidth), old(pgmHeight))
          {
            SetMinMaxAll(mls[k]);
            assert mls[..k + 1][..k] == mls[..k];
            ScanConcat(start, Concat(mls[..k]), mls[k]);
          }
          assert mls[..|mls|] == mls;
        case MultiPolygon(mp) =>
          SetMinMaxAll(mp[0][0]);
        case Polygon(mp) =>
          SetMinMaxAll(mp[0]);
        case Unsupported(_) =>
      }
    }
  }

  /**
   * scanFeatures: visit the points of every supported geometry in order,
   * starting from the sentinels, then derive DLon and DLat once.
   */
  method ScanFeatures(fcs: seq<Geometry>) returns (f: Feature)
    requires AllScannable(fcs)
    ensures fresh(f)
    ensures f.Bounds() == Scan(fcs)
    ensures f.count == |VisitedAll(fcs)|
    ensures forall k :: 0 <= k < |VisitedAll(fcs)| ==> Within(f.Bounds(), VisitedAll(fcs)[k])
    ensures f.count == 0 ==> f.Bounds() == Sentinels
    ensures f.dLon == f.maxLon - f.minLon && f.dLat == f.maxLat - f.minLat
    ensures f.count > 0 ==> 0.0 <= f.dLon && 0.0 <= f.dLat
    ensures f.scale == 0.0 && f.pgmFile == "" && f.pgmWidth == 0 && f.pgmHeight == 0
  {
    f := new Feature();
    f.minLat, f.minLon, f.maxLat, f.maxLon := MaxFloat64, MaxFloat64, -MaxFloat64, -MaxFloat64;
    var i := 0;
    while i < |fcs|
      invariant 0 <= i <= |fcs|
      invariant f.Bounds() == Scan(fcs[..i])
      invariant f.SameDerived(0.0, 0.0, 0.0, "", 0, 0)
    {
      f.ScanGeometry(fcs[i]);
      assert fcs[..i + 1][..i] == fcs[..i];
      ScanConcat(Sentinels, VisitedAll(fcs[..i]), Visited(fcs[i]));
      i := i + 1;
    }
    assert fcs[..|fcs|] == fcs;
    f.dLat := f.maxLat - f.minLat;
    f.dLon := f.maxLon - f.minLon;
    ScanCount(Sentinels, VisitedAll(fcs));
    ScanEncloses(Sentinels, VisitedAll(fcs));
  }
}
