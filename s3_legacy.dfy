/**
 * The older Sentinel-3 reader (eoreader/products/s3_product.py), which works
 * on the GeoTIFFs a SNAP graph produces: product type detection from the
 * name, the OLCI and SLSTR band maps, the SNAP band and quality-flag names
 * and their standard (stripped) form, the invalid-pixel masks of both
 * instruments, the datetime read from the name and the condensed name.
 */
module S3Legacy {
  import opened Wrappers
  import opened Strings
  import opened Bands
  import opened Rasters
  import opened Dates
  import opened S3Optical

  /** `obn.CIRRUS`, the name this reader uses for the cirrus band. */
  const CIRRUS_BAND: OpticalBand := SWIR_CIRRUS

  /** `BT_BANDS`: the brightness temperature bands. */
  const BT_BANDS: seq<OpticalBand> := [MIR, TIR_1, TIR_2]

  /** The value SNAP writes where a band has no data. */
  const SNAP_NO_DATA: real := -1.0

  /** The name of an `S3ProductType` member. */
  function ProductTypeName(t: S3ProductType): string
  {
    match t
    case OLCI_EFR => "OLCI_EFR"
    case SLSTR_RBT => "SLSTR_RBT"
  }

  function InstrumentOf(t: S3ProductType): S3Instrument
  {
    match t
    case OLCI_EFR => OLCI
    case SLSTR_RBT => SLSTR
  }

  function DataTypeOf(t: S3ProductType): S3DataType
  {
    match t
    case OLCI_EFR => EFR
    case SLSTR_RBT => RBT
  }

  // ---------------------------------------------------------------------
  // Product type detection
  // ---------------------------------------------------------------------

  /** `self.name[7]`, which raises IndexError on a name of fewer than eight characters. */
  predicate IsL1(name: string)
  {
    |name| >= 8 && name[7] == '1'
  }

  /**
   * The product type `get_product_type` recognises: only level-1 names, OL
   * tested before SL, each instrument with its only supported data type.
   */
  function Detection(name: string): (r: Result<S3ProductType>)
    ensures r == Err(IndexError) <==> |name| < 8
    ensures r.Ok? <==> (
      && IsL1(name)
      && ((Contains(name, "OL") && Contains(name, "EFR___"))
          || (!Contains(name, "OL") && Contains(name, "SL") && Contains(name, "RBT__"))))
    ensures r == Err(InvalidProductError) <==> IsL1(name) && !Contains(name, "OL") && !Contains(name, "SL")
    ensures r.Ok? ==> Contains(name, DataTypeValue(DataTypeOf(r.value)))
    ensures r == Ok(SLSTR_RBT) ==> !Contains(name, "OL")
  {
    if |name| < 8 then Err(IndexError)
    else if name[7] != '1' then Err(InvalidTypeError)
    else if Contains(name, "OL") then
      if Contains(name, DataTypeValue(EFR)) then Ok(OLCI_EFR) else Err(InvalidTypeError)
    else if Contains(name, "SL") then
      if Contains(name, DataTypeValue(RBT)) then Ok(SLSTR_RBT) else Err(InvalidTypeError)
    else Err(InvalidProductError)
  }

  /**
   * The instrument `get_product_type` records, which it sets as soon as it
   * has seen OL or SL, before checking the data type.
   */
  function InstrumentSeen(name: string): (r: Option<S3Instrument>)
    ensures r.Some? ==> IsL1(name)
    ensures Detection(name).Ok? ==> r == Some(InstrumentOf(Detection(name).value))
  {
    if !IsL1(name) then None
    else if Contains(name, "OL") then Some(OLCI)
    else if Contains(name, "SL") then Some(SLSTR)
    else None
  }

  /** The OLCI band map: NIR and NNIR both read Oa17. */
  function OlciBandMap(): BandMap
  {
    map[CA := "02", BLUE := "03", GREEN := "06", RED := "08",
        VRE_1 := "11", VRE_2 := "12", VRE_3 := "16",
        NIR := "17", NNIR := "17", WV := "20", FNIR := "21"]
  }

  /** The SLSTR band map: NIR and NNIR both read S3; S7 to S9 are the thermal bands. */
  function SlstrLegacyBandMap(): BandMap
  {
    map[GREEN := "1", RED := "2", NIR := "3", NNIR := "3", CIRRUS_BAND := "4",
        SWIR_1 := "5", SWIR_2 := "6", MIR := "7", TIR_1 := "8", TIR_2 := "9"]
  }

  /** The band map a product type installs. */
  function TypeBandMap(t: S3ProductType): BandMap
  {
    match t
    case OLCI_EFR => OlciBandMap()
    case SLSTR_RBT => SlstrLegacyBandMap()
  }

  /** The two band maps as tabulated. */
  lemma LegacyBandMaps()
    ensures OlciBandMap()[NIR] == OlciBandMap()[NNIR] == "17"
    ensures OlciBandMap().Keys == {CA, BLUE, GREEN, RED, VRE_1, VRE_2, VRE_3, NIR, NARROW_NIR, WV, FNIR}
    ensures SlstrLegacyBandMap()[NIR] == SlstrLegacyBandMap()[NNIR] == "3"
    ensures SlstrLegacyBandMap()[MIR] == "7" && SlstrLegacyBandMap()[TIR_1] == "8" && SlstrLegacyBandMap()[TIR_2] == "9"
    ensures SlstrLegacyBandMap().Keys == {GREEN, RED, NIR, NARROW_NIR, SWIR_CIRRUS, SWIR_1, SWIR_2, MIR, TIR_1, TIR_2}
    ensures forall b :: b in BT_BANDS ==> b in SlstrLegacyBandMap() && b !in OlciBandMap()
  {
  }

  // ---------------------------------------------------------------------
  // Invalid pixels
  // ---------------------------------------------------------------------

  /** The `invalid` bit of the OLCI quality flags. */
  const OLCI_INVALID_BIT: nat := 24

  /** `band_bit_id`: the saturation bit of each OLCI band. */
  function SaturationBit(): map<OpticalBand, nat>
  {
    map[CA := 18, BLUE := 17, GREEN := 14, RED := 12, VRE_1 := 10, VRE_2 := 9,
        VRE_3 := 5, NIR := 4, NNIR := 4, WV := 1, FNIR := 0]
  }

  /** Every mapped OLCI band has a saturation bit, and every saturation bit is below the invalid bit. */
  lemma SaturationBitsCover()
    ensures SaturationBit().Keys == OlciBandMap().Keys
    ensures forall b :: b in SaturationBit() ==> SaturationBit()[b] < OLCI_INVALID_BIT
  {
  }

  /** The OLCI mask: no data (`== -1`), the invalid bit or the band's saturation bit. */
  function OlciMaskOf(band: OpticalBand, pixels: Grid<real>, qual: Grid<int>): (r: Grid<bool>)
    requires band in SaturationBit() && SameShape(pixels, qual)
    ensures SameShape(r, pixels)
    ensures forall i, j :: 0 <= i < |r| && 0 <= j < |r[i]| ==>
      (r[i][j] <==> pixels[i][j] == SNAP_NO_DATA || BitSet(qual[i][j], OLCI_INVALID_BIT) || BitSet(qual[i][j], SaturationBit()[band]))
  {
    seq(|pixels|, i requires 0 <= i < |pixels| =>
      seq(|pixels[i]|, j requires 0 <= j < |pixels[i]| =>
        pixels[i][j] == SNAP_NO_DATA || BitSet(qual[i][j], OLCI_INVALID_BIT) || BitSet(qual[i][j], SaturationBit()[band])))
  }

  /** The SLSTR mask: no data (`== -1`) or an exception flag above 2. */
  function SlstrMaskOf(pixels: Grid<real>, qual: Grid<int>): (r: Grid<bool>)
    requires SameShape(pixels, qual)
    ensures SameShape(r, pixels)
    ensures forall i, j :: 0 <= i < |r| && 0 <= j < |r[i]| ==> (r[i][j] <==> pixels[i][j] == SNAP_NO_DATA || qual[i][j] > 2)
  {
    seq(|pixels|, i requires 0 <= i < |pixels| =>
      seq(|pixels[i]|, j requires 0 <= j < |pixels[i]| => pixels[i][j] == SNAP_NO_DATA || qual[i][j] > 2))
  }

  /**
   * `manage_invalid_pixels_olci`, given `readFlags`, the flags GeoTIFF at
   * a path when that file exists.  The saturation bit is looked up first,
   * so a band without one raises KeyError even when there are no flags;
   * without flags the band is kept as is (`None`).
   */
  function OlciInvalidPixels(band: OpticalBand, pixels: Grid<real>, readFlags: string -> Option<Grid<int>>): (r: Result<Option<Grid<bool>>>)
    requires forall p :: readFlags(p).Some? ==> SameShape(pixels, readFlags(p).value)
    ensures r.Err? <==> band !in SaturationBit()
    ensures r.Err? ==> r.error == KeyError
    ensures r.Ok? && readFlags("quality_flags.tif").None? ==> r.value.None?
    ensures r.Ok? && r.value.Some? ==> r.value.value == OlciMaskOf(band, pixels, readFlags("quality_flags.tif").value)
  {
    if band !in SaturationBit() then Err(KeyError)
    else
      var qual := readFlags("quality_flags.tif");
      if qual.None? then Ok(None)
      else Ok(Some(OlciMaskOf(band, pixels, qual.value)))
  }

  // ---------------------------------------------------------------------
  // The product
  // ---------------------------------------------------------------------

  /**
   * `S3Product` with the fields `get_product_type` sets: the instrument, the
   * data type, the product type and the band map (a missing key is a band
   * mapped to None).
   */
  class S3Product {
    const name: string
    var instrument: Option<S3Instrument>
    var dataType: Option<S3DataType>
    var productType: Option<S3ProductType>
    var bandNames: BandMap

    /** A product as `__init__` leaves it before `get_product_type` runs. */
    constructor(name: string)
      ensures this.name == name
      ensures instrument.None? && dataType.None? && productType.None? && bandNames == map[]
    {
      this.name := name;
      instrument := None;
      dataType := None;
      productType := None;
      bandNames := map[];
    }

    /**
     * `get_product_type`: on success the type, data type, instrument and
     * band map follow the detected type; on failure only the instrument may
     * have been set.
     */
    method GetProductType() returns (o: Outcome)
      modifies this
      ensures Detection(name).Ok? ==> (
        && o == Success
        && productType == Some(Detection(name).value)
        && dataType == Some(DataTypeOf(Detection(name).value))
        && bandNames == old(bandNames) + TypeBandMap(Detection(name).value))
      ensures Detection(name).Err? ==> (
        && o == Failure(Detection(name).error)
        && productType == old(productType) && dataType == old(dataType) && bandNames == old(bandNames))
      ensures instrument == if InstrumentSeen(name).Some? then InstrumentSeen(name) else old(instrument)
    {
      if |name| < 8 {
        return Failure(IndexError);
      }
      if name[7] != '1' {
        return Failure(InvalidTypeError);
      }
      if Contains(name, "OL") {
        instrument := Some(OLCI);
        if Contains(name, DataTypeValue(EFR)) {
          dataType := Some(EFR);
          productType := Some(OLCI_EFR);
        } else {
          return Failure(InvalidTypeError);
        }
        bandNames := bandNames + OlciBandMap();
      } else if Contains(name, "SL") {
        instrument := Some(SLSTR);
        if Contains(name, DataTypeValue(RBT)) {
          dataType := Some(RBT);
          productType := Some(SLSTR_RBT);
        } else {
          return Failure(InvalidTypeError);
        }
        bandNames := bandNames + SlstrLegacyBandMap();
      } else {
        return Failure(InvalidProductError);
      }
      return Success;
    }

    /**
     * `get_snap_band_name`.  An unmapped band raises InvalidProductError,
     * except that its message reads `data_type.name`, which raises
     * AttributeError first when no data type is set.
     */
    function SnapBandName(band: OpticalBand): (r: Result<string>)
      reads this
      ensures r.Err? <==> band !in bandNames || dataType.None?
      ensures band !in bandNames ==> r == Err(if dataType.None? then AttributeError else InvalidProductError)
      ensures band in bandNames && dataType.None? ==> r == Err(InvalidTypeError)
      ensures r.Ok? && dataType == Some(EFR) ==> r.value == "Oa" + bandNames[band] + "_reflectance"
      ensures r.Ok? && dataType == Some(RBT) && band in BT_BANDS ==> r.value == "S" + bandNames[band] + "_BT_in"
      ensures r.Ok? && dataType == Some(RBT) && band !in BT_BANDS ==> r.value == "S" + bandNames[band] + "_reflectance_an"
    {
      if band !in bandNames then Err(if dataType.None? then AttributeError else InvalidProductError)
      else
        var nb := bandNames[band];
        match dataType
        case Some(EFR) => Ok("Oa" + nb + "_reflectance")
        case Some(RBT) => Ok(if band in BT_BANDS then "S" + nb + "_BT_in" else "S" + nb + "_reflectance_an")
        case None => Err(InvalidTypeError)
    }

    /**
     * The band number is what the SNAP name carries: it sits between the
     * instrument prefix (`Oa` or `S`) and the suffix, and is read back there.
     */
    lemma SnapBandNameNumber(band: OpticalBand)
      requires SnapBandName(band).Ok?
      ensures var n, p := SnapBandName(band).value, if dataType == Some(EFR) then 2 else 1;
        var q := if dataType == Some(EFR) then 12 else if band in BT_BANDS then 6 else 15;
        p + q <= |n| && n[p..|n| - q] == bandNames[band]
    {
      var n, nb := SnapBandName(band).value, bandNames[band];
      if dataType == Some(EFR) {
        assert n == "Oa" + nb + "_reflectance";
        assert n[2..|n| - 12] == nb;
      } else if band in BT_BANDS {
        assert n == "S" + nb + "_BT_in";
        assert n[1..|n| - 6] == nb;
      } else {
        assert n == "S" + nb + "_reflectance_an";
        assert n[1..|n| - 15] == nb;
      }
    }

    /** `get_slstr_quality_flags_name`: only RBT products have exception flags. */
    function QualityFlagsName(band: OpticalBand): (r: Result<string>)
      reads this
      ensures r.Err? <==> band !in bandNames || dataType != Some(RBT)
      ensures band !in bandNames ==> r == Err(if dataType.None? then AttributeError else InvalidProductError)
      ensures band in bandNames && dataType != Some(RBT) ==> r == Err(InvalidTypeError)
      ensures r.Ok? ==> TakeLast(r.value, 3) == (if band in BT_BANDS then "_in" else "_an")
    {
      if band !in bandNames then Err(if dataType.None? then AttributeError else InvalidProductError)
      else if dataType == Some(RBT) then
        Ok("S" + bandNames[band] + "_exception_" + [if band in BT_BANDS then 'i' else 'a'] + "n")
      else Err(InvalidTypeError)
    }

    /** `get_band_name`: the SNAP name, without its `_an`/`_in` view for SLSTR. */
    function BandName(band: BandArg): (r: Result<string>)
      reads this
      ensures band.Raw? ==> r.Ok?
      ensures band.Obn? ==> (r.Ok? <==> SnapBandName(band.band).Ok?)
      ensures r.Ok? && dataType != Some(RBT) ==> r.value == (if band.Raw? then band.name else SnapBandName(band.band).value)
    {
      var snapName :- if band.Obn? then SnapBandName(band.band) else Ok(band.name);
      Ok(if dataType == Some(RBT) then DropLast(snapName, 3) else snapName)
    }

    /** A band and its SNAP name have the same standard name. */
    lemma BandNameOfSnapName(band: OpticalBand)
      requires SnapBandName(band).Ok?
      ensures BandName(Obn(band)) == BandName(Raw(SnapBandName(band).value))
    {
    }

    /** For SLSTR the standard name is the SNAP name without its view, which it gives back. */
    lemma BandNameStripsView(band: OpticalBand)
      requires dataType == Some(RBT) && band in bandNames
      ensures BandName(Obn(band)).Ok?
      ensures BandName(Obn(band)).value + (if band in BT_BANDS then "_in" else "_an") == SnapBandName(band).value
      ensures BandName(Obn(band)).value == "S" + bandNames[band] + (if band in BT_BANDS then "_BT" else "_reflectance")
    {
      var nb := bandNames[band];
      if band in BT_BANDS {
        assert SnapBandName(band).value == ("S" + nb + "_BT") + "_in";
        DropLastAppend("S" + nb + "_BT", "_in");
      } else {
        assert SnapBandName(band).value == ("S" + nb + "_reflectance") + "_an";
        DropLastAppend("S" + nb + "_reflectance", "_an");
      }
    }

    /** The flags GeoTIFF of an SLSTR band: its quality flag name without the view. */
    function SlstrFlagsFile(band: OpticalBand): (r: Result<string>)
      reads this
      ensures r.Ok? <==> QualityFlagsName(band).Ok?
      ensures r.Ok? ==> r.value == "S" + bandNames[band] + "_exception.tif"
    {
      var flags :- QualityFlagsName(band);
      var nb, view := bandNames[band], if band in BT_BANDS then 'i' else 'a';
      assert flags == ("S" + nb + "_exception") + ['_', view, 'n'];
      DropLastAppend("S" + nb + "_exception", ['_', view, 'n']);
      Ok(DropLast(flags, 3) + ".tif")
    }

    /**
     * `manage_invalid_pixels_slstr`: the flag name is computed first (and
     * may raise); without its flags file the band is kept as is.
     */
    function SlstrInvalidPixels(band: OpticalBand, pixels: Grid<real>, readFlags: string -> Option<Grid<int>>): (r: Result<Option<Grid<bool>>>)
      reads this
      requires forall p :: readFlags(p).Some? ==> SameShape(pixels, readFlags(p).value)
      ensures r.Err? <==> QualityFlagsName(band).Err?
      ensures r.Ok? && readFlags(SlstrFlagsFile(band).value).None? ==> r.value.None?
      ensures r.Ok? && r.value.Some? ==> r.value.value == SlstrMaskOf(pixels, readFlags(SlstrFlagsFile(band).value).value)
    {
      var path :- SlstrFlagsFile(band);
      var qual := readFlags(path);
      if qual.None? then Ok(None)
      else Ok(Some(SlstrMaskOf(pixels, qual.value)))
    }

    /** `manage_invalid_pixels`: the OLCI rules for OLCI, the SLSTR ones otherwise. */
    function InvalidPixels(band: OpticalBand, pixels: Grid<real>, readFlags: string -> Option<Grid<int>>): (r: Result<Option<Grid<bool>>>)
      reads this
      requires forall p :: readFlags(p).Some? ==> SameShape(pixels, readFlags(p).value)
      ensures instrument == Some(OLCI) ==> r == OlciInvalidPixels(band, pixels, readFlags)
      ensures instrument != Some(OLCI) ==> r == SlstrInvalidPixels(band, pixels, readFlags)
    {
      if instrument == Some(OLCI) then OlciInvalidPixels(band, pixels, readFlags)
      else SlstrInvalidPixels(band, pixels, readFlags)
    }

    /**
     * `get_datetime`: the fifth field of the split name, as text or read
     * with `parse` (the `strptime` call, `None` when it fails).
     */
    function GetDatetime(asDatetime: bool, parse: string -> Option<DateTime>): (r: Result<DateValue>)
      reads this
      ensures |SplitName(name)| < 5 ==> r == Err(IndexError)
      ensures |SplitName(name)| >= 5 && !asDatetime ==> r == Ok(AsText(SplitName(name)[4]))
      ensures |SplitName(name)| >= 5 && asDatetime ==>
        r == if parse(SplitName(name)[4]).Some? then Ok(AsDateTime(parse(SplitName(name)[4]).value)) else Err(ValueError)
    {
      var fields := SplitName(name);
      if |fields| < 5 then Err(IndexError)
      else if !asDatetime then Ok(AsText(fields[4]))
      else if parse(fields[4]).None? then Err(ValueError)
      else Ok(AsDateTime(parse(fields[4]).value))
    }

    /** `get_condensed_name`: `{date}_S3_{product type name}`. */
    function CondensedName(): (r: Result<string>)
      reads this
      ensures r.Ok? <==> |SplitName(name)| >= 5 && productType.Some?
      ensures r.Ok? ==> r.value == SplitName(name)[4] + "_S3_" + ProductTypeName(productType.value)
    {
      var date :- GetDatetime(false, _ => None);
      if productType.None? then Err(AttributeError)
      else Ok(date.text + "_S3_" + ProductTypeName(productType.value))
    }

    /** The date is the first `_`-separated field of the condensed name. */
    lemma CondensedNameDate()
      requires CondensedName().Ok?
      ensures FirstField(CondensedName().value, '_') == SplitName(name)[4]
    {
      var date := SplitName(name)[4];
      SplitNameField(name, 4);
      assert CondensedName().value == date + "_" + ("S3_" + ProductTypeName(productType.value));
      FirstFieldAtSeparator(date, "S3_" + ProductTypeName(productType.value), '_');
    }
  }
}
