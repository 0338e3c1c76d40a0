/**
 * Sentinel-1 RTC products from ASF and from the Planetary Computer
 * (`s1_rtc_product.py`): the sensor mode and pixel size read from the
 * product name, the name derived from the quicklook, the orbit direction,
 * the raw band paths taken from the STAC assets and the extent.
 *
 * Both reader classes set the sensor mode the same way; the model has one
 * product class for the name-based setup.  Files are not read: the
 * quicklook file name, the footprint and the STAC assets are parameters.
 */
module S1Rtc {
  import opened Wrappers
  import opened Strings
  import opened Dates

  // ---------------------------------------------------------------------
  // Sensor mode and resolution
  // ---------------------------------------------------------------------

  /** `S1SensorMode`: the Sentinel-1 acquisition modes. */
  datatype S1SensorMode = SM | IW | EW | WV

  function ModeValue(m: S1SensorMode): string
  {
    match m
    case SM => "SM"
    case IW => "IW"
    case EW => "EW"
    case WV => "WV"
  }

  /** `S1SensorMode.from_value(text)`: the mode with that value, `None` for any other text. */
  function FromValue(text: string): (r: Option<S1SensorMode>)
    ensures r.Some? ==> ModeValue(r.value) == text
    ensures r.None? ==> forall m: S1SensorMode :: ModeValue(m) != text
  {
    if text == "SM" then Some(SM)
    else if text == "IW" then Some(IW)
    else if text == "EW" then Some(EW)
    else if text == "WV" then Some(WV)
    else None
  }

  /** The mono-swath strip map beams, all read as SM. */
  const MONO_SWATH: seq<string> := ["S1", "S2", "S3", "S4", "S5", "S6"]

  /**
   * The sensor mode of a product name: its second field, a mono-swath beam
   * read as SM.  A name with fewer than two fields raises IndexError, an
   * unknown mode InvalidProductError.
   */
  function ModeOfName(name: string): (r: Result<S1SensorMode>)
  {
    var fields := SplitName(name);
    if |fields| < 2 then Err(IndexError)
    else
      var mode := if fields[1] in MONO_SWATH then "SM" else fields[1];
      match FromValue(mode)
      case None => Err(InvalidProductError)
      case Some(m) => Ok(m)
  }

  /**
   * The mode of a name is known exactly when its second field names a mode
   * or a mono-swath beam; beams S1 to S6 all give SM.
   */
  lemma ModeOfNameCases(name: string)
    ensures |SplitName(name)| < 2 <==> ModeOfName(name) == Err(IndexError)
    ensures |SplitName(name)| >= 2 && SplitName(name)[1] in MONO_SWATH ==> ModeOfName(name) == Ok(SM)
    ensures |SplitName(name)| >= 2 && SplitName(name)[1] !in MONO_SWATH ==>
      (ModeOfName(name).Ok? <==> exists m: S1SensorMode :: ModeValue(m) == SplitName(name)[1])
    ensures ModeOfName(name).Ok? ==> SplitName(name)[1] == ModeValue(ModeOfName(name).value) || SplitName(name)[1] in MONO_SWATH
    ensures ModeOfName(name).Err? ==> ModeOfName(name).error in {IndexError, InvalidProductError}
  {
  }

  /** The default resolution of each mode, in metres. */
  function DefaultResolution(m: S1SensorMode): real
  {
    match m
    case SM => 9.0
    case IW => 20.0
    case EW => 50.0
    case WV => 51.0
  }

  /** The table, increasing from SM to WV. */
  lemma DefaultResolutionTable()
    ensures DefaultResolution(SM) == 9.0 && DefaultResolution(IW) == 20.0
    ensures DefaultResolution(EW) == 50.0 && DefaultResolution(WV) == 51.0
    ensures forall a: S1SensorMode, b: S1SensorMode :: a != b ==> DefaultResolution(a) != DefaultResolution(b)
  {
  }

  /**
   * The pixel size of a product name: the last two characters of its fifth
   * field read with `parseFloat` (`float`, `None` when it fails).  Fewer
   * than five fields raise IndexError, a text that is no number
   * InvalidProductError.
   */
  function PixelSizeOf(name: string, parseFloat: string -> Option<real>): (r: Result<real>)
    ensures |SplitName(name)| < 5 <==> r == Err(IndexError)
    ensures r.Err? ==> r.error in {IndexError, InvalidProductError}
  {
    var fields := SplitName(name);
    if |fields| < 5 then Err(IndexError)
    else
      var size := parseFloat(TakeLast(fields[4], 2));
      if size.None? then Err(InvalidProductError) else Ok(size.value)
  }

  /** `float` on a text of decimal digits gives its value. */
  ghost predicate ReadsDigits(parseFloat: string -> Option<real>)
  {
    forall s: string :: |s| > 0 && (forall i :: 0 <= i < |s| ==> IsDigit(s[i])) ==> parseFloat(s) == Some(DigitsValue(s) as real)
  }

  /** A fifth field ending in two digits, such as `RTC30`, gives that number as the pixel size. */
  lemma PixelSizeOfDigits(name: string, parseFloat: string -> Option<real>)
    requires ReadsDigits(parseFloat)
    requires |SplitName(name)| >= 5 && |SplitName(name)[4]| >= 2
    requires IsDigit(TakeLast(SplitName(name)[4], 2)[0]) && IsDigit(TakeLast(SplitName(name)[4], 2)[1])
    ensures PixelSizeOf(name, parseFloat) == Ok(DigitsValue(TakeLast(SplitName(name)[4], 2)) as real)
    ensures PixelSizeOf(name, parseFloat).value <= 99.0
  {
    var t := TakeLast(SplitName(name)[4], 2);
    assert forall i :: 0 <= i < |t| ==> IsDigit(t[i]);
    assert t[..1][..0] == [];
    assert t[..1][0] == t[0];
    assert DigitsValue(t[..1]) == DigitValue(t[0]);
    assert DigitsValue(t) == 10 * DigitValue(t[0]) + DigitValue(t[1]);
  }

  // ---------------------------------------------------------------------
  // The product
  // ---------------------------------------------------------------------

  /** `S1RtcAsfProduct` / `S1RtcMpcStacProduct` with the fields their name-based setup assigns. */
  class S1RtcProduct {
    const name: string
    var sensorMode: Option<S1SensorMode>
    var pixelSize: real
    var resolution: real

    constructor(name: string)
      ensures this.name == name && sensorMode.None?
    {
      this.name := name;
      sensorMode := None;
      pixelSize := 0.0;
      resolution := 0.0;
    }

    /**
     * `_set_sensor_mode`: a mode read from the name is stored; an unknown
     * one stores no mode and raises InvalidProductError; a name too short
     * raises IndexError before anything is stored.
     */
    method SetSensorMode() returns (o: Outcome)
      modifies this
      ensures ModeOfName(name).Ok? ==> o == Success && sensorMode == Some(ModeOfName(name).value)
      ensures ModeOfName(name) == Err(IndexError) ==> o == Failure(IndexError) && sensorMode == old(sensorMode)
      ensures ModeOfName(name) == Err(InvalidProductError) ==> o == Failure(InvalidProductError) && sensorMode.None?
      ensures pixelSize == old(pixelSize) && resolution == old(resolution)
    {
      var fields := SplitName(name);
      if |fields| < 2 {
        return Failure(IndexError);
      }
      var mode := fields[1];
      if mode in MONO_SWATH {
        mode := "SM";
      }
      sensorMode := FromValue(mode);
      if sensorMode.None? {
        return Failure(InvalidProductError);
      }
      return Success;
    }

    /**
     * `_set_pixel_size` of the ASF reader: the pixel size from the name,
     * then the resolution of the sensor mode; without a mode the lookup
     * raises KeyError after the pixel size is stored.
     */
    method SetPixelSize(parseFloat: string -> Option<real>) returns (o: Outcome)
      modifies this
      ensures PixelSizeOf(name, parseFloat).Err? ==>
        o == Failure(PixelSizeOf(name, parseFloat).error) && pixelSize == old(pixelSize) && resolution == old(resolution)
      ensures PixelSizeOf(name, parseFloat).Ok? ==> pixelSize == PixelSizeOf(name, parseFloat).value
      ensures PixelSizeOf(name, parseFloat).Ok? && sensorMode.Some? ==>
        o == Success && resolution == DefaultResolution(sensorMode.value)
      ensures PixelSizeOf(name, parseFloat).Ok? && sensorMode.None? ==> o == Failure(KeyError) && resolution == old(resolution)
      ensures sensorMode == old(sensorMode)
    {
      var size := PixelSizeOf(name, parseFloat);
      if size.Err? {
        return Failure(size.error);
      }
      pixelSize := size.value;
      if sensorMode.None? {
        return Failure(KeyError);
      }
      resolution := DefaultResolution(sensorMode.value);
      return Success;
    }

    /**
     * `get_datetime` of both readers: the stored datetime when set;
     * otherwise the name field `sensingField` (`ASF_SENSING_FIELD` or
     * `MPC_SENSING_FIELD`) read with `strptime(…, "%Y%m%dT%H%M%S")`.  A name
     * with too few fields raises IndexError, a field that is no datetime
     * ValueError.
     */
    function GetDatetime(stored: Option<DateTime>, sensingField: nat, asDatetime: bool): (r: Result<DateValue>)
      reads this
      ensures stored.Some? ==> r == Ok(Rendered(stored.value, asDatetime))
      ensures stored.None? && |SplitName(name)| <= sensingField ==> r == Err(IndexError)
      ensures stored.None? && |SplitName(name)| > sensingField ==>
        r == (if Parse(SplitName(name)[sensingField]).Some? then Ok(Rendered(Parse(SplitName(name)[sensingField]).value, asDatetime))
              else Err(ValueError))
    {
      var date :- if stored.Some? then Ok(stored.value)
                  else
                    var fields := SplitName(name);
                    if |fields| <= sensingField then Err(IndexError)
                    else if Parse(fields[sensingField]).None? then Err(ValueError)
                    else Ok(Parse(fields[sensingField]).value);
      Ok(Rendered(date, asDatetime))
    }

    /**
     * The text form reads back as the datetime form; read from the name, it
     * is a real calendar datetime.
     */
    lemma GetDatetimeTextParses(stored: Option<DateTime>, sensingField: nat)
      requires stored.Some? ==> Valid(stored.value)
      requires GetDatetime(stored, sensingField, true).Ok?
      ensures Valid(GetDatetime(stored, sensingField, true).value.dt)
      ensures GetDatetime(stored, sensingField, false).Ok?
      ensures Parse(GetDatetime(stored, sensingField, false).value.text) == Some(GetDatetime(stored, sensingField, true).value.dt)
    {
      ParseFormat(GetDatetime(stored, sensingField, true).value.dt);
    }
  }

  /** The name field holding the sensing time: the third for ASF, the fifth for the Planetary Computer. */
  const ASF_SENSING_FIELD: nat := 2
  const MPC_SENSING_FIELD: nat := 4

  // ---------------------------------------------------------------------
  // Name, orbit direction and band paths
  // ---------------------------------------------------------------------

  /**
   * `_get_name_constellation_specific` of the ASF reader, on the quicklook's
   * file name: every `_rgb` is removed when the name holds `rgb`.
   */
  function QuicklookName(fileName: string): (r: string)
    ensures !Contains(fileName, "rgb") ==> r == fileName
  {
    if Contains(fileName, "rgb") then ReplaceAll(fileName, "_rgb", "")
    else fileName
  }

  /** The quicklook `<name>_rgb.png` gives back the product name, when the name holds no `_rgb`. */
  lemma QuicklookNameDropsSuffix(base: string)
    requires !Contains(base, "_rgb")
    ensures QuicklookName(base + "_rgb") == base
  {
    var s := base + "_rgb";
    assert OccursAt(s, "rgb", |base| + 1);
    OccursAtContains(s, "rgb", |base| + 1);
    assert OccursAt(s, "_rgb", |base|);
    forall i: nat | i < |base|
      ensures !OccursAt(s, "_rgb", i)
    {
      RgbNotBefore(base, i);
    }
    ReplaceAllFirst(s, "_rgb", "", |base|);
    assert s[..|base|] == base;
    assert s[|base| + 4..] == "";
  }

  /** No `_rgb` of `base + "_rgb"` starts inside `base`: the only `_` of the pattern is its first character. */
  lemma RgbNotBefore(base: string, i: nat)
    requires !Contains(base, "_rgb") && i < |base|
    ensures !OccursAt(base + "_rgb", "_rgb", i)
  {
    var s, pat := base + "_rgb", "_rgb";
    if i + 4 <= |base| {
      assert s[i..i + 4] == base[i..i + 4];
      if OccursAt(base, pat, i) {
        OccursAtContains(base, pat, i);
      }
    } else if i + 4 <= |s| {
      var k := |base| - i;
      assert s[i..i + 4][k] == s[|base|] == '_';
      assert pat[k] != '_';
    }
  }

  /** `OrbitDirection`. */
  datatype OrbitDirection = ASCENDING | DESCENDING | UNKNOWN

  /** `get_orbit_direction` of the ASF reader: ASF products carry no orbit direction. */
  function AsfOrbitDirection(): (r: OrbitDirection)
    ensures r != ASCENDING && r != DESCENDING
  {
    UNKNOWN
  }

  /** The SAR polarisation bands whose assets the Planetary Computer reader looks up. */
  datatype SarBand = VV | VH | HH | HV

  /** `band.name.lower()`: the asset key of a band. */
  function AssetKey(b: SarBand): string
  {
    match b
    case VV => "vv"
    case VH => "vh"
    case HH => "hh"
    case HV => "hv"
  }

  /**
   * `get_raw_band_paths` of the Planetary Computer reader: the signed href
   * of each listed band that has an asset; a band without one is skipped.
   */
  method RawBandPaths(bandList: seq<SarBand>, assets: map<string, string>, sign: string -> string)
    returns (paths: map<SarBand, string>)
    ensures paths.Keys == set b | b in bandList && AssetKey(b) in assets
    ensures forall b :: b in paths ==> AssetKey(b) in assets && paths[b] == sign(assets[AssetKey(b)])
  {
    paths := map[];
    var i := 0;
    while i < |bandList|
      invariant 0 <= i <= |bandList|
      invariant paths.Keys == set b | b in bandList[..i] && AssetKey(b) in assets
      invariant forall b :: b in paths ==> AssetKey(b) in assets && paths[b] == sign(assets[AssetKey(b)])
    {
      var band := bandList[i];
      assert bandList[..i + 1] == bandList[..i] + [band];
      if AssetKey(band) in assets {
        paths := paths[band := sign(assets[AssetKey(band)])];
      }
      i := i + 1;
    }
    assert bandList[..i] == bandList;
  }

  // ---------------------------------------------------------------------
  // Extent
  // ---------------------------------------------------------------------

  datatype Point = Point(x: real, y: real)

  /** A footprint: the vertices of all its geometries, and its CRS. */
  datatype Footprint = Footprint(vertices: seq<Point>, crs: string)

  /** `box(minx, miny, maxx, maxy)` */
  datatype Box = Box(minx: real, miny: real, maxx: real, maxy: real)

  /** The extent: one box geometry in the footprint's CRS (no box for an empty footprint). */
  datatype Extent = Extent(box: Option<Box>, crs: string)

  function Min(a: real, b: real): real { if a <= b then a else b }
  function Max(a: real, b: real): real { if a >= b then a else b }

  predicate Inside(p: Point, b: Box)
  {
    b.minx <= p.x <= b.maxx && b.miny <= p.y <= b.maxy
  }

  /** `total_bounds`: the smallest box holding every vertex. */
  function TotalBounds(pts: seq<Point>): Option<Box>
  {
    if |pts| == 0 then None
    else
      var p := pts[0];
      match TotalBounds(pts[1..])
      case None => Some(Box(p.x, p.y, p.x, p.y))
      case Some(b) => Some(Box(Min(p.x, b.minx), Min(p.y, b.miny), Max(p.x, b.maxx), Max(p.y, b.maxy)))
  }

  /** `extent`: the bounding box of the footprint, keeping its CRS. */
  function ExtentOf(fp: Footprint): (r: Extent)
    ensures r.crs == fp.crs
  {
    Extent(TotalBounds(fp.vertices), fp.crs)
  }

  /** The bounds hold every vertex. */
  lemma {:induction false} TotalBoundsContain(pts: seq<Point>)
    ensures TotalBounds(pts).Some? <==> |pts| > 0
    ensures TotalBounds(pts).Some? ==> forall k :: 0 <= k < |pts| ==> Inside(pts[k], TotalBounds(pts).value)
  {
    if |pts| > 0 {
      TotalBoundsContain(pts[1..]);
      assert forall k :: 1 <= k < |pts| ==> pts[k] == pts[1..][k - 1];
    }
  }

  /** Each side of the bounds touches a vertex, so no smaller box holds them all. */
  lemma {:induction false} TotalBoundsTight(pts: seq<Point>)
    requires |pts| > 0
    ensures TotalBounds(pts).Some?
    ensures exists k :: 0 <= k < |pts| && pts[k].x == TotalBounds(pts).value.minx
    ensures exists k :: 0 <= k < |pts| && pts[k].y == TotalBounds(pts).value.miny
    ensures exists k :: 0 <= k < |pts| && pts[k].x == TotalBounds(pts).value.maxx
    ensures exists k :: 0 <= k < |pts| && pts[k].y == TotalBounds(pts).value.maxy
  {
    var rest := pts[1..];
    if |rest| > 0 {
      TotalBoundsTight(rest);
      var b := TotalBounds(rest).value;
      var a :| 0 <= a < |rest| && rest[a].x == b.minx;
      var c :| 0 <= c < |rest| && rest[c].y == b.miny;
      var d :| 0 <= d < |rest| && rest[d].x == b.maxx;
      var e :| 0 <= e < |rest| && rest[e].y == b.maxy;
      assert pts[a + 1] == rest[a] && pts[c + 1] == rest[c] && pts[d + 1] == rest[d] && pts[e + 1] == rest[e];
    } else {
      assert pts[0].x == TotalBounds(pts).value.minx;
    }
  }

  /** The extent's box holds the whole footprint and each of its sides touches it. */
  lemma ExtentIsBoundingBox(fp: Footprint)
    requires |fp.vertices| > 0
    ensures ExtentOf(fp).box.Some?
    ensures forall k :: 0 <= k < |fp.vertices| ==> Inside(fp.vertices[k], ExtentOf(fp).box.value)
    ensures exists k :: 0 <= k < |fp.vertices| && fp.vertices[k].x == ExtentOf(fp).box.value.minx
    ensures exists k :: 0 <= k < |fp.vertices| && fp.vertices[k].y == ExtentOf(fp).box.value.maxy
  {
    TotalBoundsContain(fp.vertices);
    TotalBoundsTight(fp.vertices);
  }
}
