/**
 * The pixel-marking loops of outputPGM: for every Polygon feature, every
 * pixel whose sample point the polygon contains is set to 255.
 */
module Rasterizer {
  import opened GeoJson
  import opened ExtentScanner

  /** One byte of an image.Gray pixel buffer. */
  newtype byte = x: int | 0 <= x < 256

  /** planar.PolygonContains, supplied by the caller: does the polygon (outer ring, then holes) contain the point? */
  type Contains = (seq<Ring>, Point) -> bool

  /** The world point sampled for pixel column x, row y: row 0 is the northern edge, and Scale is used in both directions. */
  function SamplePoint(minLon: real, maxLat: real, scale: real, x: int, y: int): (p: Point) {
    Point(minLon + x as real * scale, maxLat - y as real * scale)
  }

  /** The feature marks the point: it is a Polygon and contains it. Other geometry kinds never mark. */
  predicate Hits(g: Geometry, contains: Contains, p: Point) {
    g.Polygon? && contains(g.rings, p)
  }

  /** Some feature of the collection marks the point; defined feature by feature, as the loop runs. */
  predicate Covered(fcs: seq<Geometry>, contains: Contains, p: Point)
    decreases |fcs|
  {
    fcs != [] && (Covered(fcs[..|fcs| - 1], contains, p) || Hits(fcs[|fcs| - 1], contains, p))
  }

  /** The grey value of a pixel whose sample point is p. */
  function PixelValue(fcs: seq<Geometry>, contains: Contains, p: Point): (v: byte) {
    if Covered(fcs, contains, p) then 255 else 0
  }

  /** A point is covered exactly when some Polygon feature of the collection contains it. */
  lemma {:induction false} CoveredIffSome(fcs: seq<Geometry>, contains: Contains, p: Point)
    ensures Covered(fcs, contains, p) <==> exists i :: 0 <= i < |fcs| && Hits(fcs[i], contains, p)
  {
    if fcs != [] {
      var n := |fcs| - 1;
      var front := fcs[..n];
      CoveredIffSome(front, contains, p);
      if Covered(fcs, contains, p) {
        if Covered(front, contains, p) {
          var i :| 0 <= i < |front| && Hits(front[i], contains, p);
          assert fcs[i] == front[i];
        } else {
          assert Hits(fcs[n], contains, p);
        }
      } else {
        forall i | 0 <= i < |fcs| ensures !Hits(fcs[i], contains, p) {
          if i < n {
            assert fcs[i] == front[i];
          }
        }
      }
    }
  }

  /** The grid does not depend on the order of the features: a permutation covers the same points. */
  lemma CoveredOrderIndependent(a: seq<Geometry>, b: seq<Geometry>, contains: Contains, p: Point)
    requires multiset(a) == multiset(b)
    ensures Covered(a, contains, p) == Covered(b, contains, p)
  {
    CoveredIffSome(a, contains, p);
    CoveredIffSome(b, contains, p);
    if Covered(a, contains, p) {
      var i :| 0 <= i < |a| && Hits(a[i], contains, p);
      assert a[i] in multiset(b);
      var j :| 0 <= j < |b| && b[j] == a[i];
    }
    if Covered(b, contains, p) {
      var j :| 0 <= j < |b| && Hits(b[j], contains, p);
      assert b[j] in multiset(a);
      var i :| 0 <= i < |a| && a[i] == b[j];
    }
  }

  /** Inserting a LineString, MultiLineString, MultiPolygon or unsupported feature changes no pixel. */
  lemma CoveredIgnoresNonPolygon(a: seq<Geometry>, g: Geometry, b: seq<Geometry>, contains: Contains, p: Point)
    requires !g.Polygon?
    ensures Covered(a + [g] + b, contains, p) == Covered(a + b, contains, p)
  {
    var with, without := a + [g] + b, a + b;
    CoveredIffSome(with, contains, p);
    CoveredIffSome(without, contains, p);
    if Covered(with, contains, p) {
      var i :| 0 <= i < |with| && Hits(with[i], contains, p);
      if i < |a| {
        assert without[i] == with[i];
      } else {
        assert i > |a|;
        assert without[i - 1] == with[i];
      }
    }
    if Covered(without, contains, p) {
      var i :| 0 <= i < |without| && Hits(without[i], contains, p);
      if i < |a| {
        assert with[i] == without[i];
      } else {
        assert with[i + 1] == without[i];
      }
    }
  }

  /** Covering by two collections one after the other is covering by either. */
  lemma CoveredAppend(a: seq<Geometry>, b: seq<Geometry>, contains: Contains, p: Point)
    ensures Covered(a + b, contains, p) == (Covered(a, contains, p) || Covered(b, contains, p))
  {
    CoveredIffSome(a + b, contains, p);
    CoveredIffSome(a, contains, p);
    CoveredIffSome(b, contains, p);
    if Covered(a + b, contains, p) {
      var i :| 0 <= i < |a + b| && Hits((a + b)[i], contains, p);
      if i >= |a| {
        assert (a + b)[i] == b[i - |a|];
      }
    }
    if Covered(a, contains, p) {
      var i :| 0 <= i < |a| && Hits(a[i], contains, p);
      assert (a + b)[i] == a[i];
    }
    if Covered(b, contains, p) {
      var i :| 0 <= i < |b| && Hits(b[i], contains, p);
      assert (a + b)[|a| + i] == b[i];
    }
  }

  /**
   * The feature loop of outputPGM. Scale and the grid size are stored in the
   * Feature, a zeroed grid is allocated, and every Polygon feature sets to 255
   * each pixel whose sample point it contains. Pixels are never cleared.
   */
  method OutputPGM(f: Feature, fcs: seq<Geometry>, contains: Contains, scale: real, pgmWidth: nat, pgmHeight: nat)
    returns (img: array2<byte>)
    modifies f
    ensures f.scale == scale && f.pgmWidth == pgmWidth && f.pgmHeight == pgmHeight
    ensures f.Bounds() == old(f.Bounds()) && f.dLon == old(f.dLon) && f.dLat == old(f.dLat) && f.pgmFile == old(f.pgmFile)
    ensures fresh(img) && img.Length0 == pgmWidth && img.Length1 == pgmHeight
    ensures forall x, y :: 0 <= x < img.Length0 && 0 <= y < img.Length1 ==>
      (img[x, y] == 255 <==> Covered(fcs, contains, SamplePoint(f.minLon, f.maxLat, scale, x, y))) &&
      (img[x, y] == 0 || img[x, y] == 255)
  {
    f.scale := scale;
    f.pgmWidth, f.pgmHeight := pgmWidth, pgmHeight;
    img := new byte[pgmWidth, pgmHeight]((x, y) => 0);
    var minLon, maxLat := f.minLon, f.maxLat;
    var i := 0;
    while i < |fcs|
      modifies img
      invariant 0 <= i <= |fcs|
      invariant forall x, y :: 0 <= x < pgmWidth && 0 <= y < pgmHeight ==>
        img[x, y] == PixelValue(fcs[..i], contains, SamplePoint(minLon, maxLat, scale, x, y))
    {
      assert fcs[..i + 1][..i] == fcs[..i];
      match fcs[i] {
        case LineString(_) =>
        case MultiLineString(_) =>
        case MultiPolygon(_) =>
        case Polygon(mp) =>
          var x := 0;
          while x < pgmWidth
            invariant 0 <= x <= pgmWidth
            invariant forall x', y :: 0 <= x' < x && 0 <= y < pgmHeight ==>
              img[x', y] == PixelValue(fcs[..i + 1], contains, SamplePoint(minLon, maxLat, scale, x', y))
            invariant forall x', y :: x <= x' < pgmWidth && 0 <= y < pgmHeight ==>
              img[x', y] == PixelValue(fcs[..i], contains, SamplePoint(minLon, maxLat, scale, x', y))
          {
            var y := 0;
            while y < pgmHeight
              invariant 0 <= y <= pgmHeight
              invariant forall x', y' :: 0 <= x' < x && 0 <= y' < pgmHeight ==>
                img[x', y'] == PixelValue(fcs[..i + 1], contains, SamplePoint(minLon, maxLat, scale, x', y'))
              invariant forall y' :: 0 <= y' < y ==>
                img[x, y'] == PixelValue(fcs[..i + 1], contains, SamplePoint(minLon, maxLat, scale, x, y'))
              invariant forall x', y' :: x <= x' < pgmWidth && 0 <= y' < pgmHeight && (x' != x || y <= y') ==>
                img[x', y'] == PixelValue(fcs[..i], contains, SamplePoint(minLon, maxLat, scale, x', y'))
            {
              if contains(mp, SamplePoint(minLon, maxLat, scale, x, y)) {
                img[x, y] := 255;
              }
              y := y + 1;
            }
            x := x + 1;
          }
        case Unsupported(_) =>
      }
      i := i + 1;
    }
    assert fcs[..|fcs|] == fcs;
  }
}
