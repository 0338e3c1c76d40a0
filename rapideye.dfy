/**
 * RapidEye products (`re_product.py`): the band table, the exo-atmospheric
 * irradiance table, the product type read from the metadata, the
 * radiometric scale factor search, the DN to reflectance conversion, the
 * band paths and the acquisition datetime.
 *
 * The metadata file is not read here: its `productType` and
 * `acquisitionDate` texts and its `bandSpecificMetadata` entries are
 * parameters.
 */
module RapidEye {
  import opened Wrappers
  import opened Strings
  import opened Bands
  import opened Rasters
  import opened Dates

  // ---------------------------------------------------------------------
  // Product types and bands
  // ---------------------------------------------------------------------

  /** `ReProductType`: the processing levels. */
  datatype ReProductType = L1B | L3A

  function TypeValue(t: ReProductType): string
  {
    match t
    case L1B => "RapidEye Basic Scene Product"
    case L3A => "RapidEye Ortho Tile Product"
  }

  /** `getattr(ReProductType, s)`: the member whose name is `s`, if any. */
  function TypeNamed(s: string): Option<ReProductType>
  {
    if s == "L1B" then Some(L1B)
    else if s == "L3A" then Some(L3A)
    else None
  }

  /** The attributes of a `SpectralBand` that `_map_bands` sets. */
  datatype SpectralBand = SpectralBand(name: string, id: nat, gsd: real, wvMin: nat, wvMax: nat)

  /** The ground sampling distance of every RapidEye band, in metres. */
  const BAND_GSD: real := 6.5

  /** `_get_resolution`: the default product resolution, in metres. */
  const RESOLUTION: real := 5.0

  /** The band map `_map_bands` installs; NIR and NARROW_NIR are the same band. */
  function BandTable(): map<OpticalBand, SpectralBand>
  {
    var nir := SpectralBand("NIR", 5, BAND_GSD, 760, 850);
    map[
      BLUE := SpectralBand("Blue", 1, BAND_GSD, 440, 510),
      GREEN := SpectralBand("Green", 2, BAND_GSD, 520, 590),
      RED := SpectralBand("Red", 3, BAND_GSD, 630, 685),
      VRE_1 := SpectralBand("Red Edge", 4, BAND_GSD, 690, 730),
      NIR := nir,
      NARROW_NIR := nir]
  }

  /**
   * The five sensor bands, numbered 1 to 5, all at 6.5 m; the only two
   * names sharing a number are NIR and NARROW_NIR.
   */
  lemma BandTableShape()
    ensures BandTable().Keys == {BLUE, GREEN, RED, VRE_1, NIR, NARROW_NIR}
    ensures BandTable()[NIR] == BandTable()[NARROW_NIR] && BandTable()[NIR].id == 5
    ensures forall b :: b in BandTable() ==> BandTable()[b].gsd == BAND_GSD && 1 <= BandTable()[b].id <= 5
    ensures forall b :: b in BandTable() ==> BandTable()[b].wvMin < BandTable()[b].wvMax
    ensures forall a, b :: a in BandTable() && b in BandTable() && a != b && BandTable()[a].id == BandTable()[b].id ==>
      {a, b} == {NIR, NARROW_NIR}
  {
  }

  /** `_RE_EAI`: the exo-atmospheric irradiance of each band. */
  function EaiTable(): map<OpticalBand, real>
  {
    map[BLUE := 1997.8, GREEN := 1863.5, RED := 1560.4, VRE_1 := 1395.0, NIR := 1124.4, NARROW_NIR := 1124.4]
  }

  /** Every mapped band has a positive irradiance, and NIR and NARROW_NIR share theirs. */
  lemma EaiCoversBands()
    ensures EaiTable().Keys == BandTable().Keys
    ensures forall b :: b in EaiTable() ==> EaiTable()[b] > 0.0
    ensures EaiTable()[NIR] == EaiTable()[NARROW_NIR] == 1124.4
  {
  }

  // ---------------------------------------------------------------------
  // Radiometric scale factor
  // ---------------------------------------------------------------------

  /** One `bandSpecificMetadata` entry, its texts already read as numbers. */
  datatype BandMetadata = BandMetadata(bandNumber: int, radiometricScaleFactor: real)

  /** The scale factor of the first entry numbered `id`, `None` when there is none. */
  function FirstScaleFactor(entries: seq<BandMetadata>, id: int): Option<real>
  {
    if |entries| == 0 then None
    else if entries[0].bandNumber == id then Some(entries[0].radiometricScaleFactor)
    else FirstScaleFactor(entries[1..], id)
  }

  /**
   * `FirstScaleFactor` finds a factor exactly when some entry carries the
   * number, and the factor is that of the earliest such entry.
   */
  lemma {:induction false} FirstScaleFactorIsFirst(entries: seq<BandMetadata>, id: int)
    ensures FirstScaleFactor(entries, id).None? <==> forall k :: 0 <= k < |entries| ==> entries[k].bandNumber != id
    ensures FirstScaleFactor(entries, id).Some? ==>
      exists k :: 0 <= k < |entries| && entries[k].bandNumber == id
        && entries[k].radiometricScaleFactor == FirstScaleFactor(entries, id).value
        && forall j :: 0 <= j < k ==> entries[j].bandNumber != id
    decreases |entries|
  {
    if |entries| > 0 && entries[0].bandNumber != id {
      var rest := entries[1..];
      FirstScaleFactorIsFirst(rest, id);
      assert forall k :: 1 <= k < |entries| ==> entries[k] == rest[k - 1];
      if FirstScaleFactor(rest, id).Some? {
        var k :| 0 <= k < |rest| && rest[k].bandNumber == id
          && rest[k].radiometricScaleFactor == FirstScaleFactor(rest, id).value
          && forall j :: 0 <= j < k ==> rest[j].bandNumber != id;
        assert entries[k + 1] == rest[k];
        assert forall j :: 0 <= j < k + 1 ==> entries[j].bandNumber != id by {
          forall j | 0 <= j < k + 1
            ensures entries[j].bandNumber != id
          {
            if j > 0 {
              assert entries[j] == rest[j - 1];
            }
          }
        }
      }
    }
  }

  /** The metadata walk of `_dn_to_toa_rad`, stopping at the first entry for band `id`. */
  method FindScaleFactor(entries: seq<BandMetadata>, id: int) returns (coef: Option<real>)
    ensures coef == FirstScaleFactor(entries, id)
  {
    coef := None;
    var i := 0;
    while i < |entries|
      invariant 0 <= i <= |entries|
      invariant FirstScaleFactor(entries[i..], id) == FirstScaleFactor(entries, id)
    {
      assert entries[i..][1..] == entries[i + 1..];
      if entries[i].bandNumber == id {
        coef := Some(entries[i].radiometricScaleFactor);
        return;
      }
      i := i + 1;
    }
  }

  /** A grid times a possibly undefined coefficient. */
  function MulGrid(c: Num, g: Grid<Num>): (r: Grid<Num>)
    ensures SameShape(r, g)
    ensures forall i, j :: 0 <= i < |r| && 0 <= j < |r[i]| ==> r[i][j] == Mul(c, g[i][j])
  {
    seq(|g|, i requires 0 <= i < |g| => seq(|g[i]|, j requires 0 <= j < |g[i]| => Mul(c, g[i][j])))
  }

  /** `np.pi` as a float64. */
  const PI: real := 3.141592653589793

  /**
   * `_toa_rad_to_toa_refl`'s coefficient `π / (eai · dt · cos(sza))`, where
   * `dt` is the square of the Sun-Earth distance variation and `cosSunZenith`
   * the cosine of the mean solar zenith angle; a zero divisor leaves it
   * undefined.
   */
  function ToaReflCoeff(band: OpticalBand, dt: real, cosSunZenith: real): Num
    requires band in EaiTable()
  {
    Div(Val(PI), Val(EaiTable()[band] * dt * cosSunZenith))
  }

  /** `_toa_rad_to_toa_refl`: the radiance times the band's coefficient; a band without irradiance raises KeyError. */
  function ToaRadToToaRefl(rad: Grid<Num>, band: OpticalBand, dt: real, cosSunZenith: real): (r: Result<Grid<Num>>)
    ensures r.Ok? <==> band in EaiTable()
    ensures r.Err? ==> r.error == KeyError
    ensures r.Ok? ==> SameShape(r.value, rad)
    ensures r.Ok? ==> forall i, j :: 0 <= i < |rad| && 0 <= j < |rad[i]| ==>
      r.value[i][j] == Mul(ToaReflCoeff(band, dt, cosSunZenith), rad[i][j])
  {
    if band !in EaiTable() then Err(KeyError)
    else Ok(MulGrid(ToaReflCoeff(band, dt, cosSunZenith), rad))
  }

  lemma PositiveProduct(x: real, y: real)
    requires x > 0.0 && y > 0.0
    ensures x * y > 0.0
  {
  }

  /** With a positive `dt` and cosine and a non-negative radiance, the reflectance is defined and non-negative. */
  lemma ReflectanceNonNegative(rad: Grid<Num>, band: OpticalBand, dt: real, cosSunZenith: real, i: nat, j: nat)
    requires band in EaiTable() && dt > 0.0 && cosSunZenith > 0.0
    requires i < |rad| && j < |rad[i]| && rad[i][j].Val? && rad[i][j].v >= 0.0
    ensures ToaRadToToaRefl(rad, band, dt, cosSunZenith).Ok?
    ensures ToaRadToToaRefl(rad, band, dt, cosSunZenith).value[i][j].Val?
    ensures ToaRadToToaRefl(rad, band, dt, cosSunZenith).value[i][j].v >= 0.0
  {
    EaiCoversBands();
    var d := EaiTable()[band] * dt * cosSunZenith;
    PositiveProduct(EaiTable()[band], dt);
    PositiveProduct(EaiTable()[band] * dt, cosSunZenith);
    var c := ToaReflCoeff(band, dt, cosSunZenith);
    assert c == Val(PI / d);
    assert PI / d > 0.0;
  }

  // ---------------------------------------------------------------------
  // Datetime
  // ---------------------------------------------------------------------

  /**
   * `get_datetime`: the stored datetime when set; otherwise the metadata
   * `acquisitionDate` cut at its first '.' and read with `parse` (the
   * `strptime(…, "%Y-%m-%dT%H:%M:%S")` call, `None` when it fails).  A
   * missing or empty date raises InvalidProductError.
   */
  function GetDatetime(stored: Option<DateTime>, acquisitionDate: Option<string>, parse: string -> Option<DateTime>, asDatetime: bool): (r: Result<DateValue>)
    ensures stored.None? && (acquisitionDate.None? || acquisitionDate.value == "") ==> r == Err(InvalidProductError)
    ensures stored.None? && acquisitionDate.Some? && acquisitionDate.value != "" ==>
      (r.Ok? <==> parse(FirstField(acquisitionDate.value, '.')).Some?)
    ensures r.Err? ==> stored.None? && (r.error == InvalidProductError || r.error == ValueError)
    ensures r.Ok? ==> (asDatetime <==> r.value.AsDateTime?)
    ensures stored.Some? ==> r == Ok(Rendered(stored.value, asDatetime))
    ensures stored.None? && acquisitionDate.Some? && acquisitionDate.value != "" && parse(FirstField(acquisitionDate.value, '.')).Some? ==>
      r == Ok(Rendered(parse(FirstField(acquisitionDate.value, '.')).value, asDatetime))
  {
    var dt :- if stored.Some? then Ok(stored.value)
              else if acquisitionDate.None? || acquisitionDate.value == "" then Err(InvalidProductError)
              else
                var parsed := parse(FirstField(acquisitionDate.value, '.'));
                if parsed.None? then Err(ValueError) else Ok(parsed.value);
    Ok(Rendered(dt, asDatetime))
  }

  /** Whatever follows the first '.' of the acquisition date (the sub-seconds) is ignored. */
  lemma GetDatetimeIgnoresFraction(acquired: string, fraction: string, parse: string -> Option<DateTime>, asDatetime: bool)
    requires acquired != "" && '.' !in acquired
    ensures GetDatetime(None, Some(acquired + "." + fraction), parse, asDatetime) == GetDatetime(None, Some(acquired), parse, asDatetime)
    ensures GetDatetime(None, Some(acquired), parse, asDatetime) == GetDatetime(None, Some(acquired + "."), parse, asDatetime)
  {
    FirstFieldAtSeparator(acquired, fraction, '.');
    assert acquired + "." + fraction == acquired + ['.'] + fraction;
    FirstFieldAtSeparator(acquired, "", '.');
    assert acquired + "." == acquired + ['.'] + "";
    FirstFieldShape(acquired, '.');
  }

  /** The text form is the `%Y%m%dT%H%M%S` rendering of the datetime form, and reads back to it. */
  lemma GetDatetimeTextParses(stored: Option<DateTime>, acquisitionDate: Option<string>, parse: string -> Option<DateTime>)
    requires GetDatetime(stored, acquisitionDate, parse, true).Ok?
    requires Valid(GetDatetime(stored, acquisitionDate, parse, true).value.dt)
    ensures GetDatetime(stored, acquisitionDate, parse, false).Ok?
    ensures Parse(GetDatetime(stored, acquisitionDate, parse, false).value.text) == Some(GetDatetime(stored, acquisitionDate, parse, true).value.dt)
  {
    ParseFormat(GetDatetime(stored, acquisitionDate, parse, true).value.dt);
  }

  // ---------------------------------------------------------------------
  // Band paths
  // ---------------------------------------------------------------------

  /** `get_band_paths`: every requested band is read from the one stack. */
  method GetBandPaths(bandList: seq<OpticalBand>, stackPath: string) returns (paths: map<OpticalBand, string>)
    ensures paths.Keys == set b | b in bandList
    ensures forall b :: b in paths ==> paths[b] == stackPath
  {
    paths := map[];
    var i := 0;
    while i < |bandList|
      invariant 0 <= i <= |bandList|
      invariant paths.Keys == set b | b in bandList[..i]
      invariant forall b :: b in paths ==> paths[b] == stackPath
    {
      assert bandList[..i + 1] == bandList[..i] + [bandList[i]];
      paths := paths[bandList[i] := stackPath];
      i := i + 1;
    }
    assert bandList[..i] == bandList;
  }

  // ---------------------------------------------------------------------
  // The product
  // ---------------------------------------------------------------------

  /** `ReProduct` with the fields its type and band setup assign. */
  class ReProduct {
    var productType: Option<ReProductType>
    var bands: map<OpticalBand, SpectralBand>

    constructor()
      ensures productType.None? && bands == map[]
    {
      productType := None;
      bands := map[];
    }

    /** `_map_bands`: the RapidEye table is merged into the band map. */
    method MapBands()
      modifies this
      ensures bands == old(bands) + BandTable()
      ensures productType == old(productType)
    {
      bands := bands + BandTable();
    }

    /**
     * `_set_product_type` on the metadata's `productType` text: none or
     * empty raises InvalidProductError, a name that is no member raises
     * AttributeError, and L1B is stored, then NotImplementedError raised.
     */
    method SetProductType(prodType: Option<string>) returns (o: Outcome)
      modifies this
      ensures bands == old(bands)
      ensures prodType.None? || prodType.value == "" ==> o == Failure(InvalidProductError) && productType == old(productType)
      ensures prodType.Some? && prodType.value != "" && TypeNamed(prodType.value).None? ==>
        o == Failure(AttributeError) && productType == old(productType)
      ensures prodType == Some("L1B") ==> o == Failure(NotImplementedError) && productType == Some(L1B)
      ensures prodType == Some("L3A") ==> o == Success && productType == Some(L3A)
    {
      if prodType.None? || prodType.value == "" {
        return Failure(InvalidProductError);
      }
      var t := TypeNamed(prodType.value);
      if t.None? {
        return Failure(AttributeError);
      }
      productType := t;
      if t.value == L1B {
        return Failure(NotImplementedError);
      }
      return Success;
    }

    /**
     * `_dn_to_toa_rad`: the DN times the scale factor of the first metadata
     * entry numbered like the band.  No matching entry raises
     * InvalidProductError; the band's number is looked up on the first
     * entry, so an unmapped band raises KeyError unless there is none.
     */
    method DnToToaRad(dn: Grid<Num>, band: OpticalBand, entries: seq<BandMetadata>) returns (r: Result<Grid<Num>>)
      ensures |entries| == 0 ==> r == Err(InvalidProductError)
      ensures |entries| > 0 && band !in bands ==> r == Err(KeyError)
      ensures band in bands ==> (r.Ok? <==> exists k :: 0 <= k < |entries| && entries[k].bandNumber == bands[band].id)
      ensures band in bands && r.Err? ==> r.error == InvalidProductError
      ensures r.Ok? ==> band in bands && FirstScaleFactor(entries, bands[band].id).Some? && r.value == ScaleGrid(FirstScaleFactor(entries, bands[band].id).value, dn)
    {
      if band !in bands {
        if |entries| == 0 {
          return Err(InvalidProductError);
        }
        return Err(KeyError);
      }
      var coef := FindScaleFactor(entries, bands[band].id);
      FirstScaleFactorIsFirst(entries, bands[band].id);
      if coef.None? {
        return Err(InvalidProductError);
      }
      return Ok(ScaleGrid(coef.value, dn));
    }

    /**
     * `_to_reflectance`: DN to radiance first, then radiance to
     * reflectance; each pixel is the reflectance coefficient times the
     * scale factor times the DN.
     */
    method ToReflectance(dn: Grid<Num>, band: OpticalBand, entries: seq<BandMetadata>, dt: real, cosSunZenith: real)
      returns (r: Result<Grid<Num>>)
      ensures r.Ok? <==> band in bands && FirstScaleFactor(entries, bands[band].id).Some? && band in EaiTable()
      ensures r.Err? ==> r.error == (if band in bands && FirstScaleFactor(entries, bands[band].id).Some? then KeyError
                                     else if |entries| > 0 && band !in bands then KeyError
                                     else InvalidProductError)
      ensures r.Ok? ==> SameShape(r.value, dn)
      ensures r.Ok? ==> forall i, j :: 0 <= i < |dn| && 0 <= j < |dn[i]| ==>
        r.value[i][j] == Mul(ToaReflCoeff(band, dt, cosSunZenith),
                             Scale(FirstScaleFactor(entries, bands[band].id).value, dn[i][j]))
    {
      var rad := DnToToaRad(dn, band, entries);
      if rad.Err? {
        if band in bands {
          FirstScaleFactorIsFirst(entries, bands[band].id);
        }
        return Err(rad.error);
      }
      r := ToaRadToToaRefl(rad.value, band, dt, cosSunZenith);
    }
  }
}
