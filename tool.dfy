/**
 * The control flow of main that links the two components: scan the loaded
 * collection, refuse a zero-width extent, then rasterize.
 */
module Tool {
  import opened GeoJson
  import opened ExtentScanner
  import opened Rasterizer

  datatype Option<T> = None | Some(value: T)

  /** How main continues after the scan. */
  datatype Outcome =
    | NoRaster                  // -pgm is empty: no image is made
    | ZeroWidth                 // log.Fatal("Zero width!"): the process exits
    | Raster(img: array2<byte>) // the marked grid handed to the PGM/PNG encoders

  /**
   * main from loading to rasterizing. `input` is None when -file is empty (no
   * collection is loaded and the Feature keeps its zero value). `pgmFile` is
   * the -pgm flag. `scale`, `pgmWidth` and `pgmHeight` are the results of the
   * floating-point computations from DLon, DLat and -width.
   */
  method Run(input: Option<seq<Geometry>>, pgmFile: string, contains: Contains, scale: real, pgmWidth: nat, pgmHeight: nat)
    returns (f: Feature, out: Outcome)
    requires input.Some? ==> AllScannable(input.value)
    ensures fresh(f)
    ensures input.Some? ==> f.Bounds() == Scan(input.value)
    ensures input.Some? ==> f.dLon == f.maxLon - f.minLon && f.dLat == f.maxLat - f.minLat
    ensures input.None? ==> f.Bounds() == Extent(0.0, 0.0, 0.0, 0.0, 0) && f.dLon == 0.0 && f.dLat == 0.0
    ensures out.NoRaster? <==> pgmFile == ""
    ensures out.ZeroWidth? <==> pgmFile != "" && f.dLon == 0.0
    ensures input.None? && pgmFile != "" ==> out.ZeroWidth?
    ensures input == Some([]) && pgmFile != "" ==> out.Raster? && f.dLon < 0.0
    ensures !out.Raster? ==> f.scale == 0.0 && f.pgmFile == "" && f.pgmWidth == 0 && f.pgmHeight == 0
    ensures out.Raster? ==>
      input.Some? && fresh(out.img) && f.pgmFile == pgmFile && f.scale == scale &&
      f.pgmWidth == pgmWidth && f.pgmHeight == pgmHeight &&
      out.img.Length0 == pgmWidth && out.img.Length1 == pgmHeight &&
      forall x, y :: 0 <= x < pgmWidth && 0 <= y < pgmHeight ==>
        (out.img[x, y] == 255 <==> Covered(input.value, contains, SamplePoint(f.minLon, f.maxLat, scale, x, y))) &&
        (out.img[x, y] == 0 || out.img[x, y] == 255)
  {
    var fcs: seq<Geometry> := [];
    if input.Some? {
      fcs := input.value;
      f := ScanFeatures(fcs);
    } else {
      f := new Feature();
    }
    if pgmFile == "" {
      out := NoRaster;
      return;
    }
    if f.dLon == 0.0 {
      out := ZeroWidth;
      return;
    }
    var img := OutputPGM(f, fcs, contains, scale, pgmWidth, pgmHeight);
    f.pgmFile := pgmFile;
    out := Raster(img);
  }
}
