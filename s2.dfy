/**
 * The Sentinel-2 reader (eoreader/products/optical/s2_product.py): product
 * type and band map, the folder holding each band (per resolution for
 * L2A), the radiometric scaling of `_read_band`, the cloud bands, the
 * selection of cloud polygons and their rasterisation, and the condensed
 * name.
 */
module S2 {
  import opened Wrappers
  import opened Strings
  import opened Bands
  import opened Rasters
  import S3Slstr

  /** `S2ProductType` */
  datatype S2ProductType = L1C | L2A

  function TypeValue(t: S2ProductType): string
  {
    match t
    case L1C => "L1C"
    case L2A => "L2A"
  }

  /** The L2A band map: twelve channels, no cirrus band. */
  function L2aBandMap(): BandMap
  {
    map[CA := "01", BLUE := "02", GREEN := "03", RED := "04",
        VRE_1 := "05", VRE_2 := "06", VRE_3 := "07", NIR := "08",
        NARROW_NIR := "8A", WV := "09", SWIR_1 := "11", SWIR_2 := "12"]
  }

  /** The L1C band map: the L2A one plus the cirrus channel 10. */
  function L1cBandMap(): BandMap
  {
    map[CA := "01", BLUE := "02", GREEN := "03", RED := "04",
        VRE_1 := "05", VRE_2 := "06", VRE_3 := "07", NIR := "08",
        NARROW_NIR := "8A", WV := "09", SWIR_CIRRUS := "10", SWIR_1 := "11", SWIR_2 := "12"]
  }

  function TypeBandMap(t: S2ProductType): BandMap
  {
    match t
    case L1C => L1cBandMap()
    case L2A => L2aBandMap()
  }

  /** L1C differs from L2A by the cirrus band alone. */
  lemma BandMapsDiffer()
    ensures SWIR_CIRRUS !in L2aBandMap()
    ensures L1cBandMap() == L2aBandMap()[SWIR_CIRRUS := "10"]
  {
  }

  /** `_set_product_type`'s test on the name: MSIL2A first, then MSIL1C. */
  function TypeOf(name: string): (r: Result<S2ProductType>)
    ensures r.Err? <==> !Contains(name, "MSIL2A") && !Contains(name, "MSIL1C")
    ensures r.Err? ==> r.error == InvalidProductError
    ensures r == Ok(L2A) <==> Contains(name, "MSIL2A")
    ensures r == Ok(L1C) ==> !Contains(name, "MSIL2A")
  {
    if Contains(name, "MSIL2A") then Ok(L2A)
    else if Contains(name, "MSIL1C") then Ok(L1C)
    else Err(InvalidProductError)
  }

  // ---------------------------------------------------------------------
  // Band folders
  // ---------------------------------------------------------------------

  /** `BAND_DIR_NAMES[L2A]`: the resolution folders holding each channel. */
  function L2aDirs(): map<string, seq<string>>
  {
    map["01" := ["R60m"], "02" := ["R10m", "R20m", "R60m"], "03" := ["R10m", "R20m", "R60m"],
        "04" := ["R10m", "R20m", "R60m"], "05" := ["R20m", "R60m"], "06" := ["R20m", "R60m"],
        "07" := ["R20m", "R60m"], "08" := ["R10m"], "8A" := ["R20m", "R60m"], "09" := ["R60m"],
        "11" := ["R20m", "R60m"], "12" := ["R20m", "R60m"]]
  }

  /** Every L2A channel is listed, each in at least one folder. */
  lemma L2aChannelsHaveFolders()
    ensures forall b :: b in L2aBandMap() ==> L2aBandMap()[b] in L2aDirs() && |L2aDirs()[L2aBandMap()[b]]| > 0
  {
  }

  /** `f"R{int(resolution)}m"` */
  function ResolutionFolder(res: real): string
  {
    "R" + IntToString(TruncToInt(res)) + "m"
  }

  /** `resolution` taken as a truth value: neither None nor zero. */
  predicate Truthy(res: Option<real>)
  {
    res.Some? && res.value != 0.0
  }

  /**
   * The folder of a channel: IMG_DATA for L1C; for L2A the folder of the
   * requested resolution when the channel is there, otherwise its first
   * folder.  A channel missing from the table raises KeyError.
   */
  function DirName(t: S2ProductType, nb: string, res: Option<real>): (r: Result<string>)
    ensures t == L1C ==> r == Ok("IMG_DATA")
    ensures t == L2A ==> (r.Ok? <==> nb in L2aDirs() && |L2aDirs()[nb]| > 0)
    ensures t == L2A && r.Ok? ==> r.value in L2aDirs()[nb]
    ensures t == L2A && r.Ok? && Truthy(res) && ResolutionFolder(res.value) in L2aDirs()[nb] ==> r.value == ResolutionFolder(res.value)
    ensures t == L2A && r.Ok? && !(Truthy(res) && ResolutionFolder(res.value) in L2aDirs()[nb]) ==> r.value == L2aDirs()[nb][0]
    ensures r.Err? ==> r.error == KeyError || r.error == IndexError
  {
    if t == L1C then Ok("IMG_DATA")
    else if nb !in L2aDirs() then Err(KeyError)
    else if Truthy(res) && ResolutionFolder(res.value) in L2aDirs()[nb] then Ok(ResolutionFolder(res.value))
    else if |L2aDirs()[nb]| == 0 then Err(IndexError)
    else Ok(L2aDirs()[nb][0])
  }

  /** The folder choice on a few channels: the requested resolution when present, truncated to an integer. */
  lemma DirNameResolutionHit()
    ensures DirName(L2A, "02", Some(10.0)) == Ok("R10m")
    ensures DirName(L2A, "02", Some(10.7)) == Ok("R10m")
    ensures DirName(L2A, "05", Some(20.0)) == Ok("R20m")
    ensures DirName(L2A, "11", Some(60.0)) == Ok("R60m")
  {
    assert ResolutionFolder(10.0) == "R10m";
    assert ResolutionFolder(10.7) == "R10m";
    assert ResolutionFolder(20.0) == "R20m";
    assert ResolutionFolder(60.0) == "R60m";
  }

  /** A resolution whose folder does not hold the band, or no resolution, falls back on the first folder listed. */
  lemma DirNameFallback()
    ensures DirName(L2A, "08", Some(20.0)) == Ok("R10m")
    ensures DirName(L2A, "05", Some(10.0)) == Ok("R20m")
    ensures DirName(L2A, "01", None) == Ok("R60m")
    ensures DirName(L2A, "10", Some(60.0)) == Err(KeyError)
  {
    assert ResolutionFolder(20.0) == "R20m";
    assert ResolutionFolder(10.0) == "R10m";
    assert ResolutionFolder(10.0) !in L2aDirs()["05"];
  }

  // ---------------------------------------------------------------------
  // Radiometry
  // ---------------------------------------------------------------------

  /** The divisor applied to bands stored as uint16. */
  const QUANTIFICATION: real := 10000.0

  /** `_read_band`'s radiometry: a band read from uint16 is divided by 10000, any other is kept. */
  function ReadBandRadiometry(band: Grid<Num>, originDtype: string): (r: Grid<Num>)
    ensures SameShape(r, band)
    ensures originDtype != "uint16" ==> r == band
    ensures originDtype == "uint16" ==> forall i, j :: 0 <= i < |r| && 0 <= j < |r[i]| ==> r[i][j] == Div(band[i][j], Val(QUANTIFICATION))
  {
    if originDtype == "uint16" then
      seq(|band|, i requires 0 <= i < |band| =>
        seq(|band[i]|, j requires 0 <= j < |band[i]| => Div(band[i][j], Val(QUANTIFICATION))))
    else band
  }

  /** A uint16 digital number d becomes the reflectance d / 10000, in [0, 1] for d in [0, 10000]. */
  lemma ReadBandReflectance(band: Grid<Num>, i: nat, j: nat, d: real)
    requires i < |band| && j < |band[i]| && band[i][j] == Val(d)
    ensures ReadBandRadiometry(band, "uint16")[i][j] == Val(d / QUANTIFICATION)
    ensures 0.0 <= d <= QUANTIFICATION ==> 0.0 <= ReadBandRadiometry(band, "uint16")[i][j].v <= 1.0
    ensures ReadBandRadiometry(band, "uint16")[i][j].v * QUANTIFICATION == d
  {
  }

  // ---------------------------------------------------------------------
  // Clouds
  // ---------------------------------------------------------------------

  /** `_has_cloud_band`: every band but SHADOWS. */
  function HasCloudBand(band: AnyBand): (r: bool)
    ensures band.Cloud? ==> (r <==> S3Slstr.HasCloudBand(band))
    ensures band.Optical? ==> r
  {
    S3Slstr.HasCloudBandIff(band);
    if band == Cloud(SHADOWS) then false else true
  }

  /** A polygon of the cloud mask vector, with its `maskType` attribute. */
  datatype MaskPolygon = MaskPolygon(id: nat, maskType: string)

  /** The cloud mask vector; `hasMaskType` is false when the file has no `maskType` column. */
  datatype CloudVector = CloudVector(polygons: seq<MaskPolygon>, hasMaskType: bool)

  /** `vec[vec.maskType == t]`, in order. */
  function OfType(polygons: seq<MaskPolygon>, t: string): (r: seq<MaskPolygon>)
    ensures forall p :: p in r <==> p in polygons && p.maskType == t
    ensures |r| <= |polygons|
  {
    if |polygons| == 0 then []
    else (if polygons[0].maskType == t then [polygons[0]] else []) + OfType(polygons[1..], t)
  }

  /** The filter with its AttributeError fallback: no `maskType` column, no polygon. */
  function Filtered(vec: CloudVector, t: string): (r: seq<MaskPolygon>)
    ensures !vec.hasMaskType ==> r == []
    ensures vec.hasMaskType ==> forall p :: p in r <==> p in vec.polygons && p.maskType == t
  {
    if vec.hasMaskType then OfType(vec.polygons, t) else []
  }

  /** The polygons `_load_clouds` rasterises for a band; SHADOWS raises InvalidTypeError. */
  function Selection(band: CloudBand, vec: CloudVector): (r: Result<seq<MaskPolygon>>)
    ensures r.Err? <==> band == SHADOWS
    ensures r.Err? ==> r.error == InvalidTypeError
    ensures band == ALL_CLOUDS || band == RAW_CLOUDS ==> r == Ok(vec.polygons)
    ensures band == CIRRUS ==> r == Ok(Filtered(vec, "CIRRUS"))
    ensures band == CLOUDS ==> r == Ok(Filtered(vec, "OPAQUE"))
  {
    match band
    case ALL_CLOUDS => Ok(vec.polygons)
    case CIRRUS => Ok(Filtered(vec, "CIRRUS"))
    case CLOUDS => Ok(Filtered(vec, "OPAQUE"))
    case RAW_CLOUDS => Ok(vec.polygons)
    case SHADOWS => Err(InvalidTypeError)
  }

  /** The cirrus and opaque selections never share a polygon. */
  lemma SelectionsDisjoint(vec: CloudVector)
    ensures forall p :: p in Selection(CIRRUS, vec).value ==> p !in Selection(CLOUDS, vec).value
  {
  }

  /**
   * `_rasterize` up to the masking: `burn` gives the pixels the polygons
   * cover; no polygon at all gives an all-false grid of the band's shape.
   */
  function Rasterize(polygons: seq<MaskPolygon>, h: nat, w: nat, burn: seq<MaskPolygon> -> Grid<bool>): (r: Grid<bool>)
    ensures |polygons| == 0 ==> HasShape(r, h, w) && forall i, j :: 0 <= i < h && 0 <= j < w ==> !r[i][j]
    ensures |polygons| > 0 ==> r == burn(polygons)
  {
    if |polygons| == 0 then AllFalse(h, w) else burn(polygons)
  }

  /** The condition grid `_load_clouds` computes for a band other than SHADOWS. */
  function CloudCondition(band: CloudBand, vec: CloudVector, h: nat, w: nat, burn: seq<MaskPolygon> -> Grid<bool>): Grid<bool>
    requires band != SHADOWS
  {
    Rasterize(Selection(band, vec).value, h, w, burn)
  }

  /** Without a `maskType` column the cirrus and opaque cloud bands are empty. */
  lemma NoMaskTypeNoClouds(vec: CloudVector, h: nat, w: nat, burn: seq<MaskPolygon> -> Grid<bool>, i: nat, j: nat)
    requires !vec.hasMaskType && i < h && j < w
    ensures !CloudCondition(CIRRUS, vec, h, w, burn)[i][j] && !CloudCondition(CLOUDS, vec, h, w, burn)[i][j]
  {
  }

  /**
   * `_load_clouds` on the band's grid shape: one condition per requested
   * band; SHADOWS raises InvalidTypeError.
   */
  method LoadClouds(bands: seq<CloudBand>, vec: CloudVector, h: nat, w: nat, burn: seq<MaskPolygon> -> Grid<bool>)
    returns (r: Result<map<CloudBand, Grid<bool>>>)
    ensures r.Err? <==> SHADOWS in bands
    ensures r.Err? ==> r.error == InvalidTypeError
    ensures r.Ok? ==> r.value.Keys == set b | b in bands
    ensures r.Ok? ==> forall b :: b in r.value ==> b != SHADOWS && r.value[b] == CloudCondition(b, vec, h, w, burn)
  {
    var bandDict: map<CloudBand, Grid<bool>> := map[];
    var k := 0;
    while k < |bands|
      invariant 0 <= k <= |bands|
      invariant SHADOWS !in bands[..k]
      invariant bandDict.Keys == set b | b in bands[..k]
      invariant forall b :: b in bandDict ==> b != SHADOWS && bandDict[b] == CloudCondition(b, vec, h, w, burn)
    {
      var band := bands[k];
      if band == ALL_CLOUDS {
        bandDict := bandDict[band := Rasterize(vec.polygons, h, w, burn)];
      } else if band == CIRRUS {
        var cirrus := if vec.hasMaskType then OfType(vec.polygons, "CIRRUS") else [];
        bandDict := bandDict[band := Rasterize(cirrus, h, w, burn)];
      } else if band == CLOUDS {
        var clouds := if vec.hasMaskType then OfType(vec.polygons, "OPAQUE") else [];
        bandDict := bandDict[band := Rasterize(clouds, h, w, burn)];
      } else if band == RAW_CLOUDS {
        bandDict := bandDict[band := Rasterize(vec.polygons, h, w, burn)];
      } else {
        return Err(InvalidTypeError);
      }
      assert bands[..k + 1] == bands[..k] + [band];
      k := k + 1;
    }
    assert bands[..k] == bands;
    return Ok(bandDict);
  }

  // ---------------------------------------------------------------------
  // The product
  // ---------------------------------------------------------------------

  /** `S2Product` with the fields `_set_product_type` sets. */
  class S2Product {
    const name: string
    var productType: Option<S2ProductType>
    var bandNames: BandMap

    constructor(name: string)
      ensures this.name == name && productType.None? && bandNames == map[]
    {
      this.name := name;
      productType := None;
      bandNames := map[];
    }

    /** `_set_product_type`: the detected type and its band map, or InvalidProductError with nothing changed. */
    method SetProductType() returns (o: Outcome)
      modifies this
      ensures TypeOf(name).Ok? ==> (
        && o == Success && productType == Some(TypeOf(name).value)
        && bandNames == old(bandNames) + TypeBandMap(TypeOf(name).value))
      ensures TypeOf(name).Err? ==> (
        && o == Failure(InvalidProductError)
        && productType == old(productType) && bandNames == old(bandNames))
    {
      if Contains(name, "MSIL2A") {
        productType := Some(L2A);
        bandNames := bandNames + L2aBandMap();
      } else if Contains(name, "MSIL1C") {
        productType := Some(L1C);
        bandNames := bandNames + L1cBandMap();
      } else {
        return Failure(InvalidProductError);
      }
      return Success;
    }

    /**
     * The folder of one band, `locate` being the folder search of the
     * product (`None` when no folder has that name).  In an archive the
     * search takes the first match of a list, which raises IndexError when
     * there is none.
     */
    function BandFolder(band: OpticalBand, res: Option<real>, archived: bool, locate: string -> Option<string>): (r: Result<Option<string>>)
      reads this
      requires productType.Some?
      ensures band !in bandNames ==> r == Err(InvalidProductError)
      ensures band in bandNames ==> (r.Ok? <==> (
        && DirName(productType.value, bandNames[band], res).Ok?
        && (archived ==> locate(DirName(productType.value, bandNames[band], res).value).Some?)))
      ensures r.Ok? ==> r.value == locate(DirName(productType.value, bandNames[band], res).value)
    {
      if band !in bandNames then Err(InvalidProductError)
      else
        var dir :- DirName(productType.value, bandNames[band], res);
        if archived && locate(dir).None? then Err(IndexError) else Ok(locate(dir))
    }

    /**
     * `_get_res_band_folder`: the folder of every requested band.  The bands
     * are handled in order and the first failure is raised; a band whose
     * folder was found nowhere then raises InvalidProductError.
     */
    method ResBandFolders(bandList: seq<OpticalBand>, res: Option<real>, archived: bool, locate: string -> Option<string>)
      returns (r: Result<map<OpticalBand, string>>)
      ensures productType.None? ==> r == Err(KeyError)
      ensures productType.Some? ==> (r.Ok? <==> forall k :: 0 <= k < |bandList| ==>
        BandFolder(bandList[k], res, archived, locate).Ok? && BandFolder(bandList[k], res, archived, locate).value.Some?)
      ensures r.Ok? ==> r.value.Keys == set b | b in bandList
      ensures r.Ok? ==> forall b :: b in r.value ==> Some(r.value[b]) == BandFolder(b, res, archived, locate).value
      ensures productType.Some? && r.Err? && (forall k :: 0 <= k < |bandList| ==> BandFolder(bandList[k], res, archived, locate).Ok?) ==>
        r.error == InvalidProductError
    {
      if productType.None? {
        return Err(KeyError);
      }
      var folders: map<OpticalBand, string> := map[];
      var k := 0;
      while k < |bandList|
        invariant 0 <= k <= |bandList|
        invariant forall n :: 0 <= n < k ==> BandFolder(bandList[n], res, archived, locate).Ok?
        invariant forall b :: b in folders <==> b in bandList[..k] && BandFolder(b, res, archived, locate).value.Some?
        invariant forall b :: b in folders ==> Some(folders[b]) == BandFolder(b, res, archived, locate).value
      {
        var band := bandList[k];
        var found := BandFolder(band, res, archived, locate);
        if found.Err? {
          return Err(found.error);
        }
        if found.value.Some? {
          folders := folders[band := found.value.value];
        }
        assert bandList[..k + 1] == bandList[..k] + [band];
        k := k + 1;
      }
      assert bandList[..k] == bandList;
      k := 0;
      while k < |bandList|
        invariant 0 <= k <= |bandList|
        invariant forall n :: 0 <= n < k ==> bandList[n] in folders
      {
        if bandList[k] !in folders {
          return Err(InvalidProductError);
        }
        k := k + 1;
      }
      return Ok(folders);
    }

    /** `_get_tile_name`: the next-to-last field of the split name. */
    function TileName(): (r: Result<string>)
      reads this
      ensures r.Ok? <==> |SplitName(name)| >= 2
      ensures r.Ok? ==> r.value == SplitName(name)[|SplitName(name)| - 2]
    {
      var fields := SplitName(name);
      if |fields| < 2 then Err(IndexError) else Ok(fields[|fields| - 2])
    }

    /**
     * `_get_condensed_name`: `{date}_S2_{tile}_{type}_{processing time}`,
     * the date being the third field of the split name and the processing
     * time the text after the last `T` of its last field.
     */
    function CondensedName(): (r: Result<string>)
      reads this
      ensures r.Ok? <==> |SplitName(name)| >= 3 && productType.Some?
      ensures |SplitName(name)| < 3 ==> r == Err(IndexError)
      ensures r.Ok? ==> TileName().Ok?
    {
      var fields := SplitName(name);
      if |fields| < 3 then Err(IndexError)
      else
        var procTime := LastField(fields[|fields| - 1], 'T');
        var tile := fields[|fields| - 2];
        if productType.None? then Err(AttributeError)
        else Ok(fields[2] + "_S2_" + tile + "_" + TypeValue(productType.value) + "_" + procTime)
    }

    /** The condensed name splits back into its five parts. */
    lemma CondensedNameFields()
      requires CondensedName().Ok?
      ensures var fields := SplitName(name);
        Split(CondensedName().value, '_')
        == [fields[2], "S2", fields[|fields| - 2], TypeValue(productType.value), LastField(fields[|fields| - 1], 'T')]
    {
      var fields := SplitName(name);
      var date, tile, pt := fields[2], fields[|fields| - 2], TypeValue(productType.value);
      var last := fields[|fields| - 1];
      var proc := LastField(last, 'T');
      SplitNameField(name, 2);
      SplitNameField(name, |fields| - 2);
      SplitNameField(name, |fields| - 1);
      LastFieldShape(last, 'T');
      assert '_' !in proc by {
        forall c | 0 <= c < |proc| ensures proc[c] != '_' {
          assert proc[c] == last[|last| - |proc| + c];
        }
      }
      assert '_' !in pt;
      assert CondensedName().value == date + "_" + ("S2" + "_" + (tile + "_" + (pt + "_" + proc)));
      SplitFree(proc, '_');
      SplitAtSeparator(pt, proc, '_');
      SplitAtSeparator(tile, pt + "_" + proc, '_');
      SplitAtSeparator("S2", tile + "_" + (pt + "_" + proc), '_');
      SplitAtSeparator(date, "S2" + "_" + (tile + "_" + (pt + "_" + proc)), '_');
    }
  }
}
