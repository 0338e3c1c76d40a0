/**
 * The shared Sentinel-3 reader (`S3Product`, eoreader/products/optical/s3_product.py):
 * product enumerations, placeholder substitution in pre-processed member
 * names, the footprint ring and CRS pixel taken from the tie-point grid, the
 * clean-or-preprocess band path choice, the band-loading plan, the
 * acquisition datetime and the condensed name.
 *
 * Reading NetCDF and XML files, reprojection and the UTM lookup are outside
 * the model: their results enter as parameters.
 */
module S3Optical {
  import opened Wrappers
  import opened Strings
  import opened Bands
  import opened Rasters
  import opened Dates

  /** `S3ProductType` */
  datatype S3ProductType = OLCI_EFR | SLSTR_RBT

  function ProductTypeValue(t: S3ProductType): string
  {
    match t
    case OLCI_EFR => "OL_1_EFR___"
    case SLSTR_RBT => "SL_1_RBT___"
  }

  /** `S3Instrument` */
  datatype S3Instrument = OLCI | SLSTR

  function InstrumentValue(i: S3Instrument): string
  {
    match i
    case OLCI => "S3_OLCI"
    case SLSTR => "S3_SLSTR"
  }

  /** `S3DataType`: the member name and its value differ. */
  datatype S3DataType = EFR | RBT

  function DataTypeName(d: S3DataType): string
  {
    match d
    case EFR => "EFR"
    case RBT => "RBT"
  }

  function DataTypeValue(d: S3DataType): string
  {
    match d
    case EFR => "EFR___"
    case RBT => "RBT__"
  }

  // ---------------------------------------------------------------------
  // `_replace`: placeholder substitution
  // ---------------------------------------------------------------------

  /** One `(search, replacement)` entry; a `None` replacement is skipped. */
  type Substitution = (string, Option<string>)

  predicate SearchesNonEmpty(subs: seq<Substitution>)
  {
    forall k :: 0 <= k < |subs| ==> |subs[k].0| > 0
  }

  /** Apply one entry: replace every occurrence, unless the replacement is `None`. */
  function Apply(s: string, sub: Substitution): string
    requires |sub.0| > 0
  {
    if sub.1.Some? then ReplaceAll(s, sub.0, sub.1.value) else s
  }

  /** The entries applied one after the other, in order. */
  function ApplyAll(s: string, subs: seq<Substitution>): string
    requires SearchesNonEmpty(subs)
    decreases |subs|
  {
    if |subs| == 0 then s else ApplyAll(Apply(s, subs[0]), subs[1..])
  }

  /**
   * The `{band}` replacement: an optical band goes through the band map
   * (an unmapped band gives `None`), a raw string is used as it is.
   */
  function BandReplacement(bandNames: BandMap, band: Option<BandArg>): (r: Option<string>)
    ensures band.None? ==> r.None?
    ensures band.Some? && band.value.Raw? ==> r == Some(band.value.name)
    ensures band.Some? && band.value.Obn? ==>
      (r.Some? <==> band.value.band in bandNames) && (r.Some? ==> r.value == bandNames[band.value.band])
  {
    match band
    case None => None
    case Some(Raw(name)) => Some(name)
    case Some(Obn(b)) => if b in bandNames then Some(bandNames[b]) else None
  }

  /** The substitution table, in the order the entries are applied. */
  function Substitutions(bandNames: BandMap, band: Option<BandArg>, suffix: Option<string>, view: Option<string>): (subs: seq<Substitution>)
    ensures SearchesNonEmpty(subs) && |subs| == 3
  {
    [("{band}", BandReplacement(bandNames, band)), ("{suffix}", suffix), ("{view}", view)]
  }

  /** `_replace`: each placeholder with a replacement is substituted, in table order. */
  method Replace(ppm: string, bandNames: BandMap, band: Option<BandArg>, suffix: Option<string>, view: Option<string>)
    returns (r: string)
    ensures r == ApplyAll(ppm, Substitutions(bandNames, band, suffix, view))
  {
    var subs := Substitutions(bandNames, band, suffix, view);
    r := ppm;
    var k := 0;
    while k < |subs|
      invariant 0 <= k <= |subs|
      invariant ApplyAll(ppm, subs) == ApplyAll(r, subs[k..])
    {
      assert subs[k..][1..] == subs[k + 1..];
      var (search, replacement) := subs[k];
      if replacement.Some? {
        r := ReplaceAll(r, search, replacement.value);
      }
      k := k + 1;
    }
  }

  /** With no replacement given, nothing is substituted. */
  lemma {:induction false} ApplyAllNone(s: string, subs: seq<Substitution>)
    requires SearchesNonEmpty(subs)
    requires forall k :: 0 <= k < |subs| ==> subs[k].1.None?
    ensures ApplyAll(s, subs) == s
    decreases |subs|
  {
    if |subs| > 0 {
      ApplyAllNone(s, subs[1..]);
    }
  }

  /** A string holding no searched pattern comes back unchanged. */
  lemma {:induction false} ApplyAllAbsent(s: string, subs: seq<Substitution>)
    requires SearchesNonEmpty(subs)
    requires forall k :: 0 <= k < |subs| ==> !Contains(s, subs[k].0)
    ensures ApplyAll(s, subs) == s
    decreases |subs|
  {
    if |subs| > 0 {
      if subs[0].1.Some? {
        ReplaceAllAbsent(s, subs[0].0, subs[0].1.value);
      }
      ApplyAllAbsent(s, subs[1..]);
    }
  }

  /**
   * Without band, suffix or view, and for an unmapped optical band with
   * neither suffix nor view, the member is returned as it is: placeholders
   * with a `None` replacement stay in place.
   */
  lemma ReplaceWithoutReplacements(ppm: string, bandNames: BandMap, band: Option<BandArg>)
    requires band.None? || (band.value.Obn? && band.value.band !in bandNames)
    ensures ApplyAll(ppm, Substitutions(bandNames, band, None, None)) == ppm
  {
    ApplyAllNone(ppm, Substitutions(bandNames, band, None, None));
  }

  // ---------------------------------------------------------------------
  // Tie-point grid: footprint ring and CRS pixel
  // ---------------------------------------------------------------------

  /** A `(lon, lat)` vertex. */
  type Vertex = (real, real)

  /** Both tie grids are `h` by `w`. */
  predicate TieShape(lat: Grid<real>, lon: Grid<real>, h: nat, w: nat)
  {
    HasShape(lat, h, w) && HasShape(lon, h, w)
  }

  /** Top row, left to right. */
  function TopLeg(lat: Grid<real>, lon: Grid<real>, h: nat, w: nat): (r: seq<Vertex>)
    requires TieShape(lat, lon, h, w) && h > 0 && w > 0
    ensures |r| == w && forall j :: 0 <= j < w ==> r[j] == (lon[0][j], lat[0][j])
  {
    seq(w, j requires 0 <= j < w => (lon[0][j], lat[0][j]))
  }

  /** Right column, top to bottom. */
  function RightLeg(lat: Grid<real>, lon: Grid<real>, h: nat, w: nat): (r: seq<Vertex>)
    requires TieShape(lat, lon, h, w) && h > 0 && w > 0
    ensures |r| == h && forall i :: 0 <= i < h ==> r[i] == (lon[i][w - 1], lat[i][w - 1])
  {
    seq(h, i requires 0 <= i < h => (lon[i][w - 1], lat[i][w - 1]))
  }

  /** Bottom row, right to left. */
  function BottomLeg(lat: Grid<real>, lon: Grid<real>, h: nat, w: nat): (r: seq<Vertex>)
    requires TieShape(lat, lon, h, w) && h > 0 && w > 0
    ensures |r| == w && forall j :: 0 <= j < w ==> r[j] == (lon[h - 1][w - 1 - j], lat[h - 1][w - 1 - j])
  {
    seq(w, j requires 0 <= j < w => (lon[h - 1][w - 1 - j], lat[h - 1][w - 1 - j]))
  }

  /** Left column, bottom to top. */
  function LeftLeg(lat: Grid<real>, lon: Grid<real>, h: nat, w: nat): (r: seq<Vertex>)
    requires TieShape(lat, lon, h, w) && h > 0 && w > 0
    ensures |r| == h && forall i :: 0 <= i < h ==> r[i] == (lon[h - 1 - i][0], lat[h - 1 - i][0])
  {
    seq(h, i requires 0 <= i < h => (lon[h - 1 - i][0], lat[h - 1 - i][0]))
  }

  /** The boundary walk: the four legs one after the other. */
  function Ring(lat: Grid<real>, lon: Grid<real>, h: nat, w: nat): seq<Vertex>
    requires TieShape(lat, lon, h, w) && h > 0 && w > 0
  {
    TopLeg(lat, lon, h, w) + RightLeg(lat, lon, h, w) + BottomLeg(lat, lon, h, w) + LeftLeg(lat, lon, h, w)
  }

  /**
   * The ring has `2w + 2h` vertices, visits the four corners at the ends of
   * the legs and closes on its first vertex.
   */
  lemma RingShape(lat: Grid<real>, lon: Grid<real>, h: nat, w: nat)
    requires TieShape(lat, lon, h, w) && h > 0 && w > 0
    ensures var r := Ring(lat, lon, h, w);
      && |r| == 2 * w + 2 * h
      && r[0] == (lon[0][0], lat[0][0])
      && r[w - 1] == r[w] == (lon[0][w - 1], lat[0][w - 1])
      && r[w + h - 1] == r[w + h] == (lon[h - 1][w - 1], lat[h - 1][w - 1])
      && r[2 * w + h - 1] == r[2 * w + h] == (lon[h - 1][0], lat[h - 1][0])
      && r[|r| - 1] == r[0]
  {
    var t, ri, b, l := TopLeg(lat, lon, h, w), RightLeg(lat, lon, h, w), BottomLeg(lat, lon, h, w), LeftLeg(lat, lon, h, w);
    var r := Ring(lat, lon, h, w);
    assert r[w - 1] == t[w - 1] && r[w] == ri[0];
    assert r[w + h - 1] == ri[h - 1] && r[w + h] == b[0];
    assert r[2 * w + h - 1] == b[w - 1] && r[2 * w + h] == l[0];
    assert r[|r| - 1] == l[h - 1];
  }

  /**
   * `footprint` before the polygon is built and reprojected: the vertex list
   * of the tie grid's boundary.  Grids of different shapes fail the shape
   * assertion, and an empty grid fails the first index.
   */
  method FootprintVertices(lat: Grid<real>, lon: Grid<real>, h: nat, w: nat) returns (r: Result<seq<Vertex>>)
    requires HasShape(lat, h, w)
    requires |lon| > 0 ==> HasShape(lon, |lon|, |lon[0]|)
    ensures !(|lon| == h && (h == 0 || |lon[0]| == w)) ==> r == Err(AssertionError)
    ensures TieShape(lat, lon, h, w) && (h == 0 || w == 0) ==> r == Err(IndexError)
    ensures TieShape(lat, lon, h, w) && h > 0 && w > 0 ==> r.Ok?
    ensures TieShape(lat, lon, h, w) && h > 0 && w > 0 ==> r == Ok(Ring(lat, lon, h, w))
  {
    if !(|lon| == h && (h == 0 || |lon[0]| == w)) {
      return Err(AssertionError);
    }
    if h == 0 || w == 0 {
      return Err(IndexError);
    }
    ghost var t, ri, b, l := TopLeg(lat, lon, h, w), RightLeg(lat, lon, h, w), BottomLeg(lat, lon, h, w), LeftLeg(lat, lon, h, w);
    var vertex: seq<Vertex> := [];
    var j := 0;
    while j < w
      invariant 0 <= j <= w && vertex == t[..j]
    {
      vertex := vertex + [(lon[0][j], lat[0][j])];
      j := j + 1;
    }
    assert vertex == t;
    var i := 0;
    while i < h
      invariant 0 <= i <= h && vertex == t + ri[..i]
    {
      vertex := vertex + [(lon[i][w - 1], lat[i][w - 1])];
      i := i + 1;
    }
    assert vertex == t + ri;
    j := w;
    while j > 0
      invariant 0 <= j <= w && vertex == t + ri + b[..w - j]
    {
      j := j - 1;
      vertex := vertex + [(lon[h - 1][j], lat[h - 1][j])];
    }
    assert vertex == t + ri + b;
    i := h;
    while i > 0
      invariant 0 <= i <= h && vertex == t + ri + b + l[..h - i]
    {
      i := i - 1;
      vertex := vertex + [(lon[i][0], lat[i][0])];
    }
    assert vertex == t + ri + b + l;
    return Ok(vertex);
  }

  /**
   * `crs` before the UTM lookup: the `(lat, lon)` of the middle tie pixel,
   * at row `int(h / 2)` and column `int(w / 2)`.
   */
  function CrsPixel(lat: Grid<real>, lon: Grid<real>, h: nat, w: nat): (r: Result<(real, real)>)
    requires HasShape(lat, h, w)
    requires |lon| > 0 ==> HasShape(lon, |lon|, |lon[0]|)
    ensures !(|lon| == h && (h == 0 || |lon[0]| == w)) ==> r == Err(AssertionError)
    ensures TieShape(lat, lon, h, w) && (h == 0 || w == 0) ==> r == Err(IndexError)
    ensures TieShape(lat, lon, h, w) && h > 0 && w > 0 ==> r.Ok?
    ensures r.Ok? ==> exists i, j :: 0 <= i < h && 0 <= j < w && 2 * i <= h < 2 * i + 2 && 2 * j <= w < 2 * j + 2
                                     && r.value == (lat[i][j], lon[i][j])
  {
    if !(|lon| == h && (h == 0 || |lon[0]| == w)) then Err(AssertionError)
    else if h == 0 || w == 0 then Err(IndexError)
    else
      var midY, midX := h / 2, w / 2;
      Ok((lat[midY][midX], lon[midY][midX]))
  }

  // ---------------------------------------------------------------------
  // Band paths and the loading plan
  // ---------------------------------------------------------------------

  /** The clean band file when it exists, otherwise the result of pre-processing. */
  function ChosenPath(band: BandArg, cleanPath: BandArg -> string, isFile: string -> bool, preprocess: BandArg -> string): (p: string)
    ensures isFile(cleanPath(band)) ==> p == cleanPath(band)
    ensures !isFile(cleanPath(band)) ==> p == preprocess(band)
  {
    var clean := cleanPath(band);
    if isFile(clean) then clean else preprocess(band)
  }

  /** `get_band_paths`: one entry per requested band. */
  method GetBandPaths(bandList: seq<BandArg>, cleanPath: BandArg -> string, isFile: string -> bool, preprocess: BandArg -> string)
    returns (paths: map<BandArg, string>)
    ensures paths.Keys == set b | b in bandList
    ensures forall b :: b in paths ==> paths[b] == ChosenPath(b, cleanPath, isFile, preprocess)
  {
    paths := map[];
    var k := 0;
    while k < |bandList|
      invariant 0 <= k <= |bandList|
      invariant paths.Keys == set b | b in bandList[..k]
      invariant forall b :: b in paths ==> paths[b] == ChosenPath(b, cleanPath, isFile, preprocess)
    {
      var band := bandList[k];
      var clean := cleanPath(band);
      if isFile(clean) {
        paths := paths[band := clean];
      } else {
        paths := paths[band := preprocess(band)];
      }
      assert bandList[..k + 1] == bandList[..k] + [band];
      k := k + 1;
    }
    assert bandList[..k] == bandList;
  }

  /** The `bands` argument of `_load_bands`: one band or a list. */
  datatype BandsArg = Single(band: BandArg) | Many(bands: seq<BandArg>)

  /** Python truthiness of the `bands` argument (an empty string is falsy). */
  predicate Truthy(bands: BandsArg)
  {
    match bands
    case Single(Raw(name)) => |name| > 0
    case Single(Obn(_)) => true
    case Many(bs) => |bs| > 0
  }

  /** The paths and the resolution `_load_bands` goes on to read with, or nothing. */
  datatype LoadPlan = NoBands | Load(bands: seq<BandArg>, resolution: Option<real>)

  /** `_load_bands` up to the band reading, given `_resolution_from_size`. */
  function LoadBandsPlan(bands: BandsArg, resolution: Option<real>, size: Option<(nat, nat)>, fromSize: ((nat, nat)) -> real): (p: LoadPlan)
    ensures p.NoBands? <==> !Truthy(bands)
    ensures p.Load? && bands.Single? ==> p.bands == [bands.band]
    ensures p.Load? && bands.Many? ==> p.bands == bands.bands
    ensures p.Load? && resolution.None? && size.Some? ==> p.resolution == Some(fromSize(size.value))
    ensures p.Load? && (resolution.Some? || size.None?) ==> p.resolution == resolution
  {
    if !Truthy(bands) then NoBands
    else
      var list := if bands.Single? then [bands.band] else bands.bands;
      var res := if resolution.None? && size.Some? then Some(fromSize(size.value)) else resolution;
      Load(list, res)
  }

  // ---------------------------------------------------------------------
  // Datetime and condensed name
  // ---------------------------------------------------------------------

  /**
   * `get_datetime` as written: the stored datetime when set, otherwise the
   * metadata `start_time` read with `parseStart` (the `strptime` call,
   * `None` when the text does not match, which raises ValueError).  A
   * missing `start_time` makes `findtext` return `None`, and `strptime`
   * then raises TypeError: the `except TypeError` around `findtext` never
   * catches it.
   */
  function GetDatetimeAsWritten(stored: Option<DateTime>, startTime: Option<string>, parseStart: string -> Option<DateTime>, asDatetime: bool): (r: Result<DateValue>)
    ensures stored.None? && startTime.None? ==> r == Err(TypeError)
  {
    var date :- if stored.Some? then Ok(stored.value)
                else if startTime.None? then Err(TypeError)
                else if parseStart(startTime.value).None? then Err(ValueError)
                else Ok(parseStart(startTime.value).value);
    Ok(Rendered(date, asDatetime))
  }

  /** The acquisition datetime, with a missing `start_time` reported as InvalidProductError. */
  function GetDatetime(stored: Option<DateTime>, startTime: Option<string>, parseStart: string -> Option<DateTime>, asDatetime: bool): (r: Result<DateValue>)
    ensures stored.Some? ==> r == Ok(Rendered(stored.value, asDatetime))
    ensures stored.None? && startTime.None? ==> r == Err(InvalidProductError)
    ensures stored.None? && startTime.Some? && parseStart(startTime.value).None? ==> r == Err(ValueError)
    ensures stored.None? && startTime.Some? && parseStart(startTime.value).Some? ==>
      r == Ok(Rendered(parseStart(startTime.value).value, asDatetime))
    ensures r.Ok? && asDatetime ==> r.value.AsDateTime?
    ensures r.Ok? && !asDatetime ==> r.value.AsText?
  {
    var date :- if stored.Some? then Ok(stored.value)
                else if startTime.None? then Err(InvalidProductError)
                else if parseStart(startTime.value).None? then Err(ValueError)
                else Ok(parseStart(startTime.value).value);
    Ok(Rendered(date, asDatetime))
  }

  /** The text form of a valid datetime reads back as that datetime. */
  lemma GetDatetimeTextRoundTrip(stored: DateTime, startTime: Option<string>, parseStart: string -> Option<DateTime>)
    requires Valid(stored)
    ensures GetDatetime(Some(stored), startTime, parseStart, false) == Ok(AsText(Format(stored)))
    ensures Parse(GetDatetime(Some(stored), startTime, parseStart, false).value.text) == Some(stored)
  {
    ParseFormat(stored);
  }

  /** Where the two versions differ: only a missing `start_time`. */
  lemma GetDatetimeMissingStart(parseStart: string -> Option<DateTime>, asDatetime: bool)
    ensures GetDatetimeAsWritten(None, None, parseStart, asDatetime) == Err(TypeError)
    ensures GetDatetime(None, None, parseStart, asDatetime) == Err(InvalidProductError)
  {
  }

  /** `_get_condensed_name`: `{date}_{platform name}_{data type name}`. */
  function CondensedName(date: string, platformName: string, dataType: Option<S3DataType>): (r: Result<string>)
    ensures dataType.None? ==> r == Err(AttributeError)
    ensures r.Ok? ==> date + "_" <= r.value && r.value[|date| + 1..] == platformName + "_" + DataTypeName(dataType.value)
  {
    if dataType.None? then Err(AttributeError)
    else Ok(date + "_" + platformName + "_" + DataTypeName(dataType.value))
  }

  /** A date without `_` is the first `_`-separated field of the condensed name. */
  lemma CondensedNameFirstField(date: string, platformName: string, dataType: S3DataType)
    requires '_' !in date
    ensures CondensedName(date, platformName, Some(dataType)).Ok?
    ensures FirstField(CondensedName(date, platformName, Some(dataType)).value, '_') == date
  {
    var rest := platformName + "_" + DataTypeName(dataType);
    assert CondensedName(date, platformName, Some(dataType)).value == date + "_" + rest;
    FirstFieldAtSeparator(date, rest, '_');
  }

  /** The datetime text heads the condensed name, as its first `_`-separated field. */
  lemma CondensedNameDate(dt: DateTime, platformName: string, dataType: S3DataType)
    requires Valid(dt)
    ensures CondensedName(Format(dt), platformName, Some(dataType)).Ok?
    ensures FirstField(CondensedName(Format(dt), platformName, Some(dataType)).value, '_') == Format(dt)
  {
    FormatHasNoUnderscore(dt);
    CondensedNameFirstField(Format(dt), platformName, dataType);
  }

  lemma FormatHasNoUnderscore(dt: DateTime)
    ensures '_' !in Format(dt)
  {
    FormatCharacters(dt);
  }
}
