/**
 * The Sentinel-3 SLSTR reader (eoreader/products/optical/s3_slstr_product.py):
 * radiance adjustment presets, the grid suffix and the file and variable
 * names derived from it, the product type and band map, the GCP cache, the
 * solar flux fallback, the invalid-pixel mask and the cloud masks.
 */
module S3Slstr {
  import opened Wrappers
  import opened Strings
  import opened Bands
  import opened Rasters
  import opened S3Optical

  /** The grid suffixes: 500 m stripes A and B, 1 km, and the F1 1 km grid, nadir and oblique. */
  const SLSTR_SUFFIX: seq<string> := ["an", "ao", "bn", "bo", "in", "io", "fn", "fo"]

  /** Radiance channels. */
  const SLSTR_RAD_BANDS: seq<string> := ["S1", "S2", "S3", "S4", "S5", "S6"]

  /** Brightness temperature channels. */
  const SLSTR_BT_BANDS: seq<string> := ["S7", "S8", "S9", "F1", "F2"]

  /** Every suffix is two characters and ends in its view, `n` or `o`. */
  lemma SuffixShape(s: string)
    requires s in SLSTR_SUFFIX
    ensures |s| == 2 && (s[1] == 'n' || s[1] == 'o') && '{' !in s
  {
  }

  // ---------------------------------------------------------------------
  // Radiance adjustment presets
  // ---------------------------------------------------------------------

  /** `SlstrRadAdjustTuple`: one coefficient per radiance channel and view, each 1.0 unless given. */
  datatype AdjustTuple = AdjustTuple(
    S1_n: real := 1.0, S2_n: real := 1.0, S3_n: real := 1.0,
    S4_n: real := 1.0, S5_n: real := 1.0, S6_n: real := 1.0,
    S1_o: real := 1.0, S2_o: real := 1.0, S3_o: real := 1.0,
    S4_o: real := 1.0, S5_o: real := 1.0, S6_o: real := 1.0)

  /** `SlstrRadAdjust` */
  datatype SlstrRadAdjust = SNAP | S3_PN_SLSTR_L1_06 | S3_PN_SLSTR_L1_07 | S3_PN_SLSTR_L1_08 | NONE

  /** The preset used when the caller gives none. */
  const DEFAULT_ADJUST: SlstrRadAdjust := S3_PN_SLSTR_L1_08

  /** The table of product notice 06, which notice 07 keeps. */
  function Notice06(): AdjustTuple
  {
    AdjustTuple(S5_n := 1.12, S6_n := 1.15, S5_o := 1.20, S6_o := 1.26)
  }

  /** The coefficients of a preset. */
  function Coefficients(p: SlstrRadAdjust): AdjustTuple
  {
    match p
    case SNAP => AdjustTuple(S5_n := 1.12, S6_n := 1.13, S5_o := 1.15, S6_o := 1.14)
    case S3_PN_SLSTR_L1_06 => Notice06()
    case S3_PN_SLSTR_L1_07 => Notice06()
    case S3_PN_SLSTR_L1_08 =>
      AdjustTuple(S1_n := 0.97, S2_n := 0.98, S3_n := 0.98, S5_n := 1.11, S6_n := 1.13,
                  S1_o := 0.94, S2_o := 0.95, S3_o := 0.95, S5_o := 1.04, S6_o := 1.07)
    case NONE => AdjustTuple()
  }

  /**
   * `getattr(t, f"{raw}_{view}")`: the coefficient of a radiance channel for
   * a view; any other attribute name raises AttributeError.
   */
  function Coefficient(t: AdjustTuple, raw: string, view: char): (r: Result<real>)
    ensures r.Ok? <==> raw in SLSTR_RAD_BANDS && (view == 'n' || view == 'o')
  {
    if view == 'n' then
      if raw == "S1" then Ok(t.S1_n) else if raw == "S2" then Ok(t.S2_n)
      else if raw == "S3" then Ok(t.S3_n) else if raw == "S4" then Ok(t.S4_n)
      else if raw == "S5" then Ok(t.S5_n) else if raw == "S6" then Ok(t.S6_n)
      else Err(AttributeError)
    else if view == 'o' then
      if raw == "S1" then Ok(t.S1_o) else if raw == "S2" then Ok(t.S2_o)
      else if raw == "S3" then Ok(t.S3_o) else if raw == "S4" then Ok(t.S4_o)
      else if raw == "S5" then Ok(t.S5_o) else if raw == "S6" then Ok(t.S6_o)
      else Err(AttributeError)
    else Err(AttributeError)
  }

  /** All twelve coefficients are 1.0. */
  predicate AllOnes(t: AdjustTuple)
  {
    forall raw, view :: raw in SLSTR_RAD_BANDS && (view == 'n' || view == 'o') ==> Coefficient(t, raw, view) == Ok(1.0)
  }

  /** Fields not given are 1.0, so `NONE` is the all-ones preset. */
  lemma NoneIsAllOnes()
    ensures AllOnes(Coefficients(NONE))
    ensures AllOnes(AdjustTuple())
  {
  }

  /** Product notice 07 keeps the coefficients of notice 06. */
  lemma Notice07IsNotice06()
    ensures Coefficients(S3_PN_SLSTR_L1_07) == Coefficients(S3_PN_SLSTR_L1_06)
  {
  }

  /** No preset adjusts the S4 (1.375 µm) channel. */
  lemma S4NeverAdjusted(p: SlstrRadAdjust, view: char)
    requires view == 'n' || view == 'o'
    ensures Coefficient(Coefficients(p), "S4", view) == Ok(1.0)
  {
  }

  /** The default preset's table, nadir then oblique, for S1, S2, S3, S5 and S6. */
  lemma DefaultPresetTable()
    ensures var t := Coefficients(DEFAULT_ADJUST);
      && Coefficient(t, "S1", 'n') == Ok(0.97) && Coefficient(t, "S2", 'n') == Ok(0.98)
      && Coefficient(t, "S3", 'n') == Ok(0.98) && Coefficient(t, "S5", 'n') == Ok(1.11)
      && Coefficient(t, "S6", 'n') == Ok(1.13)
      && Coefficient(t, "S1", 'o') == Ok(0.94) && Coefficient(t, "S2", 'o') == Ok(0.95)
      && Coefficient(t, "S3", 'o') == Ok(0.95) && Coefficient(t, "S5", 'o') == Ok(1.04)
      && Coefficient(t, "S6", 'o') == Ok(1.07)
  {
  }

  // ---------------------------------------------------------------------
  // Pre-processed member names
  // ---------------------------------------------------------------------

  /** The file and variable names `_set_preprocess_members` derives from the suffix (`{}` stands for the channel). */
  datatype Members = Members(
    radianceFile: string, radianceSubds: string,
    geoFile: string, latName: string, lonName: string, altName: string,
    tieGeoFile: string, tieLatName: string, tieLonName: string,
    geomFile: string, saaName: string, szaName: string,
    miscFile: string, solarFluxName: string,
    flagsFile: string, cloudName: string,
    exceptionName: string)

  /** `_set_preprocess_members(suffix)` once the suffix has passed the assertion. */
  function PreprocessMembers(suffix: string): Members
    requires |suffix| > 0
  {
    var view := [suffix[|suffix| - 1]];
    Members(
      "{}_radiance_" + suffix + ".nc", "{}_radiance_" + suffix,
      "geodetic_" + suffix + ".nc", "latitude_" + suffix, "longitude_" + suffix, "elevation_" + suffix,
      "geodetic_tx.nc", "latitude_tx", "longitude_tx",
      "geometry_t" + view + ".nc", "solar_azimuth_t" + view, "solar_zenith_t" + view,
      "{}_quality_" + suffix + ".nc", "{}_solar_irradiance_" + suffix,
      "flags_" + suffix + ".nc", "cloud_" + suffix,
      "{}_exception_" + suffix)
  }

  /** The members determine the suffix: different grids never share a geodetic file. */
  lemma MembersDetermineSuffix(a: string, b: string)
    requires |a| > 0 && |b| > 0
    requires PreprocessMembers(a) == PreprocessMembers(b)
    ensures a == b
  {
    var fa, fb := PreprocessMembers(a).latName, PreprocessMembers(b).latName;
    assert a == fa[9..] && b == fb[9..];
  }

  /**
   * The sun-angle names depend on the view only: grids with the same view
   * share them, and the nadir and oblique views have different ones.
   */
  lemma SunAnglesFollowView(a: string, b: string)
    requires |a| > 0 && |b| > 0
    ensures var ma, mb := PreprocessMembers(a), PreprocessMembers(b);
      (ma.geomFile == mb.geomFile && ma.saaName == mb.saaName && ma.szaName == mb.szaName)
      <==> a[|a| - 1] == b[|b| - 1]
  {
    var ma, mb := PreprocessMembers(a), PreprocessMembers(b);
    if ma.geomFile == mb.geomFile {
      assert ma.geomFile[10] == a[|a| - 1] && mb.geomFile[10] == b[|b| - 1];
    }
  }

  /** A template without `{` other than its leading `{}` cannot hold another placeholder. */
  lemma NoBraceNoPlaceholder(s: string)
    requires '{' !in s
    ensures !Contains(s, "{}")
  {
    ContainsIff(s, "{}");
    forall i: nat | i + 2 <= |s|
      ensures !OccursAt(s, "{}", i)
    {
      assert s[i..i + 2][0] == s[i];
    }
  }

  /** `("{}" + rest).replace("{}", raw)` puts the channel in front of the rest. */
  lemma FillTemplate(rest: string, raw: string)
    requires '{' !in rest
    ensures ReplaceAll("{}" + rest, "{}", raw) == raw + rest
  {
    var s := "{}" + rest;
    assert "{}" <= s && s[2..] == rest;
    NoBraceNoPlaceholder(rest);
    ReplaceAllAbsent(rest, "{}", raw);
  }

  /** `{}_radiance_{suffix}.nc`, filled with a channel id. */
  lemma FilledRadianceFile(suffix: string, raw: string)
    requires |suffix| > 0 && '{' !in suffix
    ensures ReplaceAll(PreprocessMembers(suffix).radianceFile, "{}", raw) == raw + "_radiance_" + suffix + ".nc"
  {
    FillText(PreprocessMembers(suffix).radianceFile, "_radiance_", suffix, ".nc", raw);
  }

  /** `{}_radiance_{suffix}`, filled with a channel id. */
  lemma FilledRadianceSubdataset(suffix: string, raw: string)
    requires |suffix| > 0 && '{' !in suffix
    ensures ReplaceAll(PreprocessMembers(suffix).radianceSubds, "{}", raw) == raw + "_radiance_" + suffix
  {
    FillText(PreprocessMembers(suffix).radianceSubds, "_radiance_", suffix, "", raw);
  }

  /** `{}_quality_{suffix}.nc`, filled with a channel id. */
  lemma FilledQualityFile(suffix: string, raw: string)
    requires |suffix| > 0 && '{' !in suffix
    ensures ReplaceAll(PreprocessMembers(suffix).miscFile, "{}", raw) == raw + "_quality_" + suffix + ".nc"
  {
    FillText(PreprocessMembers(suffix).miscFile, "_quality_", suffix, ".nc", raw);
  }

  /** `{}_solar_irradiance_{suffix}`, filled with a channel id. */
  lemma FilledSolarFluxName(suffix: string, raw: string)
    requires |suffix| > 0 && '{' !in suffix
    ensures ReplaceAll(PreprocessMembers(suffix).solarFluxName, "{}", raw) == raw + "_solar_irradiance_" + suffix
  {
    SolarFluxTemplate(suffix);
    FillText(PreprocessMembers(suffix).solarFluxName, "_solar_irradiance_", suffix, "", raw);
  }

  /** The solar flux template is `{}`, its stem and the suffix, and its stem has no brace. */
  lemma SolarFluxTemplate(suffix: string)
    requires |suffix| > 0
    ensures PreprocessMembers(suffix).solarFluxName == "{}" + "_solar_irradiance_" + suffix + ""
    ensures '{' !in "_solar_irradiance_"
  {
    assert PreprocessMembers(suffix).solarFluxName == "{}_solar_irradiance_" + suffix;
  }

  /** `{}_exception_{suffix}`, filled with a channel id. */
  lemma FilledExceptionName(suffix: string, raw: string)
    requires |suffix| > 0 && '{' !in suffix
    ensures ReplaceAll(PreprocessMembers(suffix).exceptionName, "{}", raw) == raw + "_exception_" + suffix
  {
    FillText(PreprocessMembers(suffix).exceptionName, "_exception_", suffix, "", raw);
  }

  /** A template `{}` + stem + suffix + ext, filled with a channel id. */
  lemma FillText(t: string, stem: string, suffix: string, ext: string, raw: string)
    requires t == "{}" + stem + suffix + ext
    requires '{' !in stem && '{' !in suffix && '{' !in ext
    ensures ReplaceAll(t, "{}", raw) == raw + stem + suffix + ext
  {
    var rest := stem + suffix + ext;
    assert '{' !in rest by {
      forall k | 0 <= k < |rest| ensures rest[k] != '{' {
        if k < |stem| { assert rest[k] == stem[k]; }
        else if k < |stem| + |suffix| { assert rest[k] == suffix[k - |stem|]; }
        else { assert rest[k] == ext[k - |stem| - |suffix|]; }
      }
    }
    FillTemplate(rest, raw);
    assert "{}" + stem + suffix + ext == "{}" + rest;
    assert raw + stem + suffix + ext == raw + rest;
  }

  // ---------------------------------------------------------------------
  // Band map
  // ---------------------------------------------------------------------

  /**
   * `_set_product_type`'s band map as written: NARROW_NIR goes to
   * `SLSTR_RAD_BANDS[3]`, which is S4, the channel SWIR_CIRRUS also uses.
   */
  function SlstrBandMapAsWritten(): BandMap
  {
    map[GREEN := SLSTR_RAD_BANDS[0], RED := SLSTR_RAD_BANDS[1], NIR := SLSTR_RAD_BANDS[2],
        NARROW_NIR := SLSTR_RAD_BANDS[3], SWIR_CIRRUS := SLSTR_RAD_BANDS[3],
        SWIR_1 := SLSTR_RAD_BANDS[4], SWIR_2 := SLSTR_RAD_BANDS[5]]
  }

  /** The band map with NARROW_NIR on S3, the channel the accompanying comment names. */
  function SlstrBandMap(): (m: BandMap)
    ensures forall b :: b in m ==> m[b] in SLSTR_RAD_BANDS
  {
    map[GREEN := SLSTR_RAD_BANDS[0], RED := SLSTR_RAD_BANDS[1], NIR := SLSTR_RAD_BANDS[2],
        NARROW_NIR := SLSTR_RAD_BANDS[2], SWIR_CIRRUS := SLSTR_RAD_BANDS[3],
        SWIR_1 := SLSTR_RAD_BANDS[4], SWIR_2 := SLSTR_RAD_BANDS[5]]
  }

  /**
   * As written, NARROW_NIR reads the cirrus channel: it shares S4 with
   * SWIR_CIRRUS rather than S3 with NIR, and the default preset then leaves
   * it unadjusted while NIR gets 0.98 at nadir.
   */
  lemma NarrowNirAsWrittenIsCirrus()
    ensures SlstrBandMapAsWritten()[NARROW_NIR] == SlstrBandMapAsWritten()[SWIR_CIRRUS] == "S4"
    ensures SlstrBandMapAsWritten()[NARROW_NIR] != SlstrBandMapAsWritten()[NIR]
    ensures Coefficient(Coefficients(DEFAULT_ADJUST), SlstrBandMapAsWritten()[NARROW_NIR], 'n') == Ok(1.0)
    ensures Coefficient(Coefficients(DEFAULT_ADJUST), SlstrBandMapAsWritten()[NIR], 'n') == Ok(0.98)
  {
  }

  /**
   * In the corrected map the narrow and broad near-infrared bands read the
   * same channel and every channel is a radiance channel, each used by one
   * band except S3.
   */
  lemma SlstrBandMapShape()
    ensures SlstrBandMap()[NARROW_NIR] == SlstrBandMap()[NIR] == "S3"
    ensures SlstrBandMap()[SWIR_CIRRUS] == "S4"
    ensures SlstrBandMap().Keys == {GREEN, RED, NIR, NARROW_NIR, SWIR_CIRRUS, SWIR_1, SWIR_2}
    ensures forall b, c ::
      (b in SlstrBandMap() && c in SlstrBandMap() && b != c && SlstrBandMap()[b] == SlstrBandMap()[c]) ==> {b, c} == {NIR, NARROW_NIR}
  {
  }

  // ---------------------------------------------------------------------
  // Solar flux defaults, invalid pixels and clouds
  // ---------------------------------------------------------------------

  /** `SLSTR_SOLAR_FLUXES_DEFAULT`, from SNAP, for the radiance bands only. */
  const SOLAR_FLUX_DEFAULT: map<OpticalBand, real> := map[
    GREEN := 1837.39, RED := 1525.94, NIR := 956.17, NARROW_NIR := 956.17,
    SWIR_CIRRUS := 365.90, SWIR_1 := 248.33, SWIR_2 := 78.33]

  /** Every mapped band has a default flux, and every default is positive. */
  lemma SolarFluxDefaultsCover()
    ensures forall b :: b in SlstrBandMap() ==> b in SOLAR_FLUX_DEFAULT
    ensures forall b :: b in SlstrBandMapAsWritten() ==> b in SOLAR_FLUX_DEFAULT
    ensures forall b :: b in SOLAR_FLUX_DEFAULT ==> SOLAR_FLUX_DEFAULT[b] > 0.0
  {
  }

  /**
   * `_manage_invalid_pixels`' mask before it is applied: a pixel is invalid
   * when the band has no data there or its exception flag is above 2.
   */
  function InvalidMask(band: Grid<Num>, qual: Grid<int>): (r: Grid<bool>)
    requires SameShape(band, qual)
    ensures SameShape(r, band)
    ensures forall i, j :: 0 <= i < |r| && 0 <= j < |r[i]| ==> (r[i][j] <==> band[i][j].NaN? || qual[i][j] > 2)
  {
    seq(|band|, i requires 0 <= i < |band| =>
      seq(|band[i]|, j requires 0 <= j < |band[i]| => band[i][j].NaN? || qual[i][j] > 2))
  }

  /** `_has_cloud_band`: the four cloud bands SLSTR derives from its flags. */
  function HasCloudBand(band: AnyBand): (r: bool)
    ensures r ==> band.Cloud? && band.cb != SHADOWS
  {
    band in [Cloud(RAW_CLOUDS), Cloud(ALL_CLOUDS), Cloud(CLOUDS), Cloud(CIRRUS)]
  }

  /** Every cloud band but SHADOWS is available. */
  lemma HasCloudBandIff(band: AnyBand)
    ensures HasCloudBand(band) <==> band.Cloud? && band.cb != SHADOWS
  {
    var available := [Cloud(RAW_CLOUDS), Cloud(ALL_CLOUDS), Cloud(CLOUDS), Cloud(CIRRUS)];
    match band
    case Optical(_) =>
    case Cloud(cb) =>
      match cb
      case RAW_CLOUDS => assert band == available[0];
      case ALL_CLOUDS => assert band == available[1];
      case CLOUDS => assert band == available[2];
      case CIRRUS => assert band == available[3];
      case SHADOWS =>
  }

  /** The cloud bits 0 to 13 (14 and 15 are spare). */
  const ALL_IDS: seq<nat> := [0, 1, 2, 3, 4, 5, 6, 7, 8, 9, 10, 11, 12, 13]

  lemma AllIdsRange()
    ensures forall k: nat :: k in ALL_IDS <==> k < 14
  {
    forall k: nat | k < 14
      ensures k in ALL_IDS
    {
      assert ALL_IDS[k] == k;
    }
  }

  /** The thin cirrus bit. */
  const CIR_ID: nat := 8

  /** `[id for id in ids if id != x]` */
  function Without(ids: seq<nat>, x: nat): (r: seq<nat>)
    ensures forall y :: y in r <==> y in ids && y != x
    ensures |r| <= |ids|
  {
    if |ids| == 0 then []
    else (if ids[0] == x then [] else [ids[0]]) + Without(ids[1..], x)
  }

  /** The cloud bits without the cirrus bit. */
  const CLOUD_IDS: seq<nat> := [0, 1, 2, 3, 4, 5, 6, 7, 9, 10, 11, 12, 13]

  lemma CloudIdsRange()
    ensures forall k: nat :: k in CLOUD_IDS <==> k < 14 && k != CIR_ID
  {
    forall k: nat | k < 14 && k != CIR_ID
      ensures k in CLOUD_IDS
    {
      assert CLOUD_IDS[if k < CIR_ID then k else k - 1] == k;
    }
  }

  /** The `bit_ids` argument of `_create_mask`: one id or a list. */
  datatype BitIds = BitId(id: nat) | BitIdList(ids: seq<nat>)

  /** The id list `_create_mask` reads, a single id being wrapped in a list. */
  function AsList(ids: BitIds): (r: seq<nat>)
    ensures ids.BitId? ==> r == [ids.id]
    ensures ids.BitIdList? ==> r == ids.ids
  {
    if ids.BitId? then [ids.id] else ids.ids
  }

  /**
   * `_create_mask` up to the super class: the OR of the decoded bits, then
   * sieved.  Reducing an empty list of conditions raises TypeError.
   */
  function CreateMask(flags: Grid<int>, h: nat, w: nat, ids: BitIds, sieve: Grid<bool> -> Grid<bool>): (r: Result<Grid<bool>>)
    requires HasShape(flags, h, w)
    ensures r.Err? <==> |AsList(ids)| == 0
    ensures r.Err? ==> r.error == TypeError
    ensures r.Ok? ==> (AllShaped(BitGrids(flags, AsList(ids)), h, w)
      && r.value == sieve(ReduceOr(BitGrids(flags, AsList(ids)), h, w)))
  {
    var list := AsList(ids);
    if |list| == 0 then Err(TypeError)
    else
      BitGridsShaped(flags, h, w, list);
      Ok(sieve(ReduceOr(BitGrids(flags, list), h, w)))
  }

  /** The condition of a cloud mask before sieving: a pixel is set when one of the bits is. */
  lemma CreateMaskCondition(flags: Grid<int>, h: nat, w: nat, ids: seq<nat>, i: nat, j: nat)
    requires HasShape(flags, h, w) && |ids| > 0 && i < h && j < w
    ensures AllShaped(BitGrids(flags, ids), h, w)
    ensures ReduceOr(BitGrids(flags, ids), h, w)[i][j] <==> exists n :: 0 <= n < |ids| && BitSet(flags[i][j], ids[n])
  {
    BitConditionAt(flags, h, w, ids, i, j);
  }

  /** What `_load_clouds` stores for one band: a mask, or the raw flags for RAW_CLOUDS. */
  datatype CloudLayer = Mask(mask: Grid<bool>) | RawFlags(flags: Grid<int>)

  /** The bit ids of each cloud mask band. */
  function CloudBits(band: CloudBand): (r: BitIds)
    requires band == ALL_CLOUDS || band == CLOUDS || band == CIRRUS
    ensures |AsList(r)| > 0
  {
    if band == ALL_CLOUDS then BitIdList(ALL_IDS)
    else if band == CLOUDS then BitIdList(CLOUD_IDS)
    else BitId(CIR_ID)
  }

  /** As ids, the cloud bits are exactly the bits 0..13 other than the cirrus bit 8, which is its own mask. */
  lemma CloudBitsSelection(k: nat)
    ensures k in AsList(CloudBits(ALL_CLOUDS)) <==> k < 14
    ensures k in AsList(CloudBits(CLOUDS)) <==> k < 14 && k != 8
    ensures k in AsList(CloudBits(CIRRUS)) <==> k == 8
  {
    AllIdsRange();
    CloudIdsRange();
  }

  /** The layer `_load_clouds` computes for a band other than SHADOWS. */
  function CloudLayerOf(band: CloudBand, flags: Grid<int>, h: nat, w: nat, sieve: Grid<bool> -> Grid<bool>): CloudLayer
    requires band != SHADOWS && HasShape(flags, h, w)
  {
    if band == RAW_CLOUDS then RawFlags(flags)
    else Mask(CreateMask(flags, h, w, CloudBits(band), sieve).value)
  }

  /**
   * `_load_clouds` from the flags grid (read and cast to uint16 outside the
   * model): one layer per requested band; SHADOWS raises InvalidTypeError.
   */
  method LoadClouds(bands: seq<CloudBand>, flags: Grid<int>, h: nat, w: nat, sieve: Grid<bool> -> Grid<bool>)
    returns (r: Result<map<CloudBand, CloudLayer>>)
    requires HasShape(flags, h, w)
    ensures r.Err? <==> SHADOWS in bands
    ensures r.Err? ==> r.error == InvalidTypeError
    ensures r.Ok? ==> r.value.Keys == set b | b in bands
    ensures r.Ok? ==> forall b :: b in r.value ==> b != SHADOWS && r.value[b] == CloudLayerOf(b, flags, h, w, sieve)
  {
    var bandDict: map<CloudBand, CloudLayer> := map[];
    var k := 0;
    while k < |bands|
      invariant 0 <= k <= |bands|
      invariant SHADOWS !in bands[..k]
      invariant bandDict.Keys == set b | b in bands[..k]
      invariant forall b :: b in bandDict ==> b != SHADOWS && bandDict[b] == CloudLayerOf(b, flags, h, w, sieve)
    {
      var band := bands[k];
      if band == ALL_CLOUDS || band == CLOUDS || band == CIRRUS {
        var mask := CreateMask(flags, h, w, CloudBits(band), sieve);
        bandDict := bandDict[band := Mask(mask.value)];
      } else if band == RAW_CLOUDS {
        bandDict := bandDict[band := RawFlags(flags)];
      } else {
        return Err(InvalidTypeError);
      }
      assert bands[..k + 1] == bands[..k] + [band];
      k := k + 1;
    }
    assert bands[..k] == bands;
    return Ok(bandDict);
  }

  // ---------------------------------------------------------------------
  // The product
  // ---------------------------------------------------------------------

  /** A ground control point: image row and column, and lon/lat/elevation. */
  datatype Gcp = Gcp(row: real, col: real, lon: real, lat: real, alt: real)

  /**
   * `S3SlstrProduct` with the members its methods update: the current
   * grid suffix and the names derived from it, the product and data types,
   * the band map and the GCP cache.  `builds` records every suffix whose
   * GCPs were computed.
   */
  class S3SlstrProduct {
    const name: string
    var suffix: string
    var members: Members
    var productType: Option<S3ProductType>
    var dataType: Option<S3DataType>
    var bandNames: BandMap
    var gcps: map<string, seq<Gcp>>
    ghost var builds: seq<string>

    /** The cache holds exactly the suffixes built so far, each built once. */
    ghost predicate CacheValid()
      reads this
    {
      && (forall s :: s in gcps <==> s in builds)
      && (forall a, b :: 0 <= a < b < |builds| ==> builds[a] != builds[b])
    }

    ghost predicate Valid()
      reads this
    {
      suffix in SLSTR_SUFFIX && members == PreprocessMembers(suffix) && CacheValid()
    }

    /** A new product on the `an` grid, with an empty band map and GCP cache. */
    constructor(name: string)
      ensures Valid()
      ensures this.name == name && suffix == "an"
      ensures productType.None? && dataType.None? && bandNames == map[] && gcps == map[] && builds == []
    {
      this.name := name;
      suffix := "an";
      members := PreprocessMembers("an");
      productType := None;
      dataType := None;
      bandNames := map[];
      gcps := map[];
      builds := [];
    }

    /** `_set_preprocess_members`: every name is re-derived from the suffix. */
    method SetPreprocessMembers(newSuffix: string) returns (o: Outcome)
      modifies this
      ensures newSuffix in SLSTR_SUFFIX ==> o == Success && members == PreprocessMembers(newSuffix)
      ensures newSuffix !in SLSTR_SUFFIX ==> o == Failure(AssertionError) && members == old(members)
      ensures suffix == old(suffix) && productType == old(productType) && dataType == old(dataType)
      ensures bandNames == old(bandNames) && gcps == old(gcps) && builds == old(builds)
    {
      if newSuffix !in SLSTR_SUFFIX {
        return Failure(AssertionError);
      }
      SuffixShape(newSuffix);
      members := PreprocessMembers(newSuffix);
      return Success;
    }

    /** `change_suffix`: only the eight suffixes are accepted. */
    method ChangeSuffix(newSuffix: string) returns (o: Outcome)
      requires Valid()
      modifies this
      ensures Valid()
      ensures newSuffix in SLSTR_SUFFIX ==> o == Success && suffix == newSuffix && members == PreprocessMembers(newSuffix)
      ensures newSuffix !in SLSTR_SUFFIX ==> o == Failure(AssertionError) && suffix == old(suffix) && members == old(members)
      ensures productType == old(productType) && dataType == old(dataType)
      ensures bandNames == old(bandNames) && gcps == old(gcps) && builds == old(builds)
    {
      if newSuffix !in SLSTR_SUFFIX {
        return Failure(AssertionError);
      }
      suffix := newSuffix;
      o := SetPreprocessMembers(newSuffix);
    }

    /**
     * `_set_product_type`: only level-1 names (character 7 is `1`) are read,
     * as SL_1_RBT with the SLSTR band map; a name too short to have a
     * character 7 raises IndexError.
     */
    method SetProductType() returns (o: Outcome)
      modifies this
      ensures |name| < 8 ==> o == Failure(IndexError)
      ensures |name| >= 8 && name[7] != '1' ==> o == Failure(InvalidTypeError)
      ensures o.Failure? ==> productType == old(productType) && dataType == old(dataType) && bandNames == old(bandNames)
      ensures o.Success? <==> |name| >= 8 && name[7] == '1'
      ensures o.Success? ==> productType == Some(SLSTR_RBT) && dataType == Some(RBT) && bandNames == old(bandNames) + SlstrBandMap()
      ensures suffix == old(suffix) && members == old(members) && gcps == old(gcps) && builds == old(builds)
    {
      if |name| < 8 {
        return Failure(IndexError);
      }
      if name[7] != '1' {
        return Failure(InvalidTypeError);
      }
      productType := Some(SLSTR_RBT);
      dataType := Some(RBT);
      bandNames := bandNames + SlstrBandMap();
      return Success;
    }

    /**
     * The coefficient `_radiance_adjustment` multiplies by.  `None` is a raw
     * name (a quality layer): the band map raises KeyError, which is caught,
     * and the array is returned untouched.  An unmapped or non-radiance band
     * is multiplied by 1.0.
     */
    function RadianceCoefficient(band: BandArg, adjust: SlstrRadAdjust): (r: Result<Option<real>>)
      reads this
      ensures band.Raw? ==> r == Ok(None)
      ensures band.Obn? && band.band !in bandNames ==> r == Ok(Some(1.0))
      ensures band.Obn? && band.band in bandNames && bandNames[band.band] !in SLSTR_RAD_BANDS ==> r == Ok(Some(1.0))
      ensures r.Ok? && r.value.Some? && r.value.value != 1.0 ==>
        band.Obn? && band.band in bandNames && bandNames[band.band] in SLSTR_RAD_BANDS
      ensures Valid() ==> r.Ok?
    {
      match band
      case Raw(_) => Ok(None)
      case Obn(b) =>
        if b !in bandNames || bandNames[b] !in SLSTR_RAD_BANDS then Ok(Some(1.0))
        else if |suffix| == 0 then Err(IndexError)
        else
          var c :- Coefficient(Coefficients(adjust), bandNames[b], suffix[|suffix| - 1]);
          Ok(Some(c))
    }

    /** `_radiance_adjustment` on a band array. */
    function RadianceAdjustment(pixels: Grid<Num>, band: BandArg, adjust: SlstrRadAdjust): (r: Result<Grid<Num>>)
      reads this
      ensures r.Ok? <==> RadianceCoefficient(band, adjust).Ok?
      ensures r.Ok? ==> SameShape(r.value, pixels)
      ensures RadianceCoefficient(band, adjust) == Ok(None) || RadianceCoefficient(band, adjust) == Ok(Some(1.0)) ==> r == Ok(pixels)
      ensures RadianceCoefficient(band, adjust).Ok? && RadianceCoefficient(band, adjust).value.Some? ==>
        forall i, j :: 0 <= i < |pixels| && 0 <= j < |pixels[i]| ==>
          r.value[i][j] == Scale(RadianceCoefficient(band, adjust).value.value, pixels[i][j])
    {
      var c :- RadianceCoefficient(band, adjust);
      ScaleGridOne(pixels);
      Ok(if c.None? then pixels else ScaleGrid(c.value, pixels))
    }

    /** The file and variable holding a channel's solar irradiance. */
    function SolarFluxSource(raw: string): (string, string)
      reads this
    {
      (ReplaceAll(members.miscFile, "{}", raw), ReplaceAll(members.solarFluxName, "{}", raw))
    }

    /**
     * `_compute_e0`, given `nanMean`, the NaN-ignoring mean of a file's
     * variable.  An unmapped band makes `str.replace` raise TypeError; a NaN
     * mean falls back on the band's default flux.
     */
    function ComputeE0(band: OpticalBand, nanMean: ((string, string)) -> Num): (r: Result<real>)
      reads this
      ensures band !in bandNames ==> r == Err(TypeError)
      ensures band in bandNames && nanMean(SolarFluxSource(bandNames[band])).Val? ==>
        r == Ok(nanMean(SolarFluxSource(bandNames[band])).v)
      ensures band in bandNames && nanMean(SolarFluxSource(bandNames[band])).NaN? ==>
        r == if band in SOLAR_FLUX_DEFAULT then Ok(SOLAR_FLUX_DEFAULT[band]) else Err(KeyError)
    {
      if band !in bandNames then Err(TypeError)
      else
        var e0 := nanMean(SolarFluxSource(bandNames[band]));
        if e0.Val? then Ok(e0.v)
        else if band in SOLAR_FLUX_DEFAULT then Ok(SOLAR_FLUX_DEFAULT[band])
        else Err(KeyError)
    }

    /** On a valid product the solar flux is read from `{raw}_quality_{suffix}.nc`. */
    lemma SolarFluxSourceNames(raw: string)
      requires Valid()
      ensures SolarFluxSource(raw) == (raw + "_quality_" + suffix + ".nc", raw + "_solar_irradiance_" + suffix)
    {
      SuffixShape(suffix);
      FilledQualityFile(suffix, raw);
      FilledSolarFluxName(suffix, raw);
    }

    /** The quality layer `_manage_invalid_pixels` reads for a band. */
    function ExceptionSubdataset(band: OpticalBand): (r: Result<string>)
      reads this
      ensures r.Err? <==> band !in bandNames
      ensures r.Err? ==> r.error == TypeError
    {
      if band !in bandNames then Err(TypeError)
      else Ok(ReplaceAll(members.exceptionName, "{}", bandNames[band]))
    }

    /** On a valid product the quality layer of a mapped band is `{raw}_exception_{suffix}`. */
    lemma ExceptionSubdatasetName(band: OpticalBand)
      requires Valid() && band in bandNames
      ensures ExceptionSubdataset(band) == Ok(bandNames[band] + "_exception_" + suffix)
    {
      SuffixShape(suffix);
      FilledExceptionName(suffix, bandNames[band]);
    }

    /**
     * `_manage_invalid_pixels` up to applying the mask, given `qual`, the
     * exception flags read from `ExceptionSubdataset(band)` at the band's size.
     */
    function ManageInvalidPixels(band: OpticalBand, pixels: Grid<Num>, qual: Grid<int>): (r: Result<Grid<bool>>)
      reads this
      requires SameShape(pixels, qual)
      ensures r.Err? <==> band !in bandNames
      ensures r.Ok? ==> r.value == InvalidMask(pixels, qual)
    {
      var layer :- ExceptionSubdataset(band);
      Ok(InvalidMask(pixels, qual))
    }

    /**
     * `_create_gcps`: the GCPs of a grid are built (by `build`, from its
     * geodetic file) only when the suffix is not yet in the cache.
     */
    method CreateGcps(s: string, build: string -> seq<Gcp>)
      requires CacheValid()
      modifies this
      ensures CacheValid()
      ensures s in old(gcps) ==> gcps == old(gcps) && builds == old(builds)
      ensures s !in old(gcps) ==> gcps == old(gcps)[s := build(s)] && builds == old(builds) + [s]
      ensures suffix == old(suffix) && members == old(members) && productType == old(productType)
      ensures dataType == old(dataType) && bandNames == old(bandNames)
    {
      if s !in gcps {
        gcps := gcps[s := build(s)];
        builds := builds + [s];
      }
    }

    /** The grid `_geocode` works on: the given suffix, or the current one when none is given. */
    function GeocodeSuffix(s: Option<string>): (r: string)
      reads this
      ensures s.Some? && |s.value| > 0 ==> r == s.value
      ensures s.None? || s.value == "" ==> r == suffix
    {
      if s.None? || s.value == "" then suffix else s.value
    }

    /**
     * `_geocode` up to the reprojection: the GCPs the reprojection uses.  A
     * second call for a grid reuses the cached GCPs without building again.
     */
    method Geocode(s: Option<string>, build: string -> seq<Gcp>) returns (used: seq<Gcp>)
      requires Valid()
      modifies this
      ensures Valid()
      ensures GeocodeSuffix(s) in gcps && used == gcps[GeocodeSuffix(s)]
      ensures GeocodeSuffix(s) in old(gcps) ==> used == old(gcps)[GeocodeSuffix(s)] && gcps == old(gcps) && builds == old(builds)
      ensures GeocodeSuffix(s) !in old(gcps) ==> used == build(GeocodeSuffix(s)) && builds == old(builds) + [GeocodeSuffix(s)]
      ensures suffix == old(suffix) && members == old(members) && bandNames == old(bandNames)
    {
      var grid := GeocodeSuffix(s);
      CreateGcps(grid, build);
      used := gcps[grid];
    }
  }
}
