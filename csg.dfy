/**
 * COSMO-SkyMed 2nd Generation products (`csg_product.py`): the default
 * resolution chosen from the product type and sensor mode, the sensor mode
 * read from the metadata, and the resolution fallback applied when a band
 * is read.
 *
 * The metadata file and the raster file are not read here: the texts they
 * would give and the file's pixel size are parameters.
 */
module Csg {
  import opened Wrappers

  /** `CsgSensorMode`: the acquisition modes and their metadata texts. */
  datatype CsgSensorMode =
    | S1A | S1B | S2A | S2B | S2C
    | S1_MSOR | S2_MSOS | S2_MSJN | S1_OQR | S2_OQS | S1_EQR | S2_EQS
    | SM | PP | QP | SC1 | SC2 | NA

  function ModeValue(m: CsgSensorMode): string
  {
    match m
    case S1A => "SPOTLIGHT-1A"
    case S1B => "SPOTLIGHT-1B"
    case S2A => "SPOTLIGHT-2A"
    case S2B => "SPOTLIGHT-2B"
    case S2C => "SPOTLIGHT-2C"
    case S1_MSOR => "SPOTLIGHT-1-MSOR"
    case S2_MSOS => "SPOTLIGHT-2-MSOS"
    case S2_MSJN => "SPOTLIGHT-2-MSJN"
    case S1_OQR => "SPOTLIGHT-1-OQR"
    case S2_OQS => "SPOTLIGHT-2-OQS"
    case S1_EQR => "SPOTLIGHT-1-EQR"
    case S2_EQS => "SPOTLIGHT-2-EQS"
    case SM => "STRIPMAP"
    case PP => "PINGPONG"
    case QP => "QUADPOL"
    case SC1 => "SCANSAR-1"
    case SC2 => "SCANSAR-2"
    case NA => "N/A"
  }

  /** `CsgSensorMode.from_value(text)`: the mode with that value, `None` for any other text. */
  function FromValue(text: string): (r: Option<CsgSensorMode>)
    ensures r.Some? ==> ModeValue(r.value) == text
    ensures r.None? ==> forall m: CsgSensorMode :: ModeValue(m) != text
  {
    if text == "SPOTLIGHT-1A" then Some(S1A)
    else if text == "SPOTLIGHT-1B" then Some(S1B)
    else if text == "SPOTLIGHT-2A" then Some(S2A)
    else if text == "SPOTLIGHT-2B" then Some(S2B)
    else if text == "SPOTLIGHT-2C" then Some(S2C)
    else if text == "SPOTLIGHT-1-MSOR" then Some(S1_MSOR)
    else if text == "SPOTLIGHT-2-MSOS" then Some(S2_MSOS)
    else if text == "SPOTLIGHT-2-MSJN" then Some(S2_MSJN)
    else if text == "SPOTLIGHT-1-OQR" then Some(S1_OQR)
    else if text == "SPOTLIGHT-2-OQS" then Some(S2_OQS)
    else if text == "SPOTLIGHT-1-EQR" then Some(S1_EQR)
    else if text == "SPOTLIGHT-2-EQS" then Some(S2_EQS)
    else if text == "STRIPMAP" then Some(SM)
    else if text == "PINGPONG" then Some(PP)
    else if text == "QUADPOL" then Some(QP)
    else if text == "SCANSAR-1" then Some(SC1)
    else if text == "SCANSAR-2" then Some(SC2)
    else if text == "N/A" then Some(NA)
    else None
  }

  /** Reading a mode's own value gives the mode back. */
  lemma FromValueModeValue(m: CsgSensorMode)
    ensures FromValue(ModeValue(m)) == Some(m)
  {
    match m
    case S1A =>
    case S1B =>
    case S2A =>
    case S2B =>
    case S2C =>
    case S1_MSOR =>
    case S2_MSOS =>
    case S2_MSJN =>
    case S1_OQR =>
    case S2_OQS =>
    case S1_EQR =>
    case S2_EQS =>
    case SM =>
    case PP =>
    case QP =>
    case SC1 =>
    case SC2 =>
    case NA =>
  }

  /**
   * The product types shared by the COSMO-SkyMed readers; only the complex
   * SCS type matters here, the others are told apart by their value.
   */
  datatype CosmoProductType = SCS | OtherType(value: string)

  /** The sentinel resolution of a complex product whose mode has no tabulated value. */
  const UNKNOWN_RESOLUTION: real := -1.0

  /** The tabulated resolutions of complex products (the CSK legacy values). */
  function ScsResolution(mode: Option<CsgSensorMode>): real
  {
    if mode == Some(S2A) then 0.12
    else if mode == Some(S2B) then 0.2
    else if mode == Some(S2C) then 0.24
    else if mode == Some(PP) then 10.0
    else if mode == Some(SC1) then 15.0
    else if mode == Some(SC2) then 50.0
    else if mode == Some(SM) || mode == Some(QP) then 2.5
    else UNKNOWN_RESOLUTION
  }

  /** The table, and the sentinel exactly for the modes it does not list (and no mode). */
  lemma ScsResolutionTable()
    ensures ScsResolution(Some(S2A)) == 0.12 && ScsResolution(Some(S2B)) == 0.2 && ScsResolution(Some(S2C)) == 0.24
    ensures ScsResolution(Some(PP)) == 10.0 && ScsResolution(Some(SC1)) == 15.0 && ScsResolution(Some(SC2)) == 50.0
    ensures ScsResolution(Some(SM)) == 2.5 && ScsResolution(Some(QP)) == 2.5
    ensures forall m :: ScsResolution(m) == UNKNOWN_RESOLUTION <==>
      m !in {Some(S2A), Some(S2B), Some(S2C), Some(PP), Some(SC1), Some(SC2), Some(SM), Some(QP)}
    ensures forall m :: ScsResolution(m) == UNKNOWN_RESOLUTION || ScsResolution(m) > 0.0
  {
  }

  /** The argument `_read_band` passes on: nothing, one number or an (x, y) pair. */
  datatype ResolutionArg = NoResolution | Scalar(x: real) | Pair(x: real, y: real)

  /** `CsgProduct` with the fields its resolution and sensor mode setup assign. */
  class CsgProduct {
    var productType: CosmoProductType
    var sensorMode: Option<CsgSensorMode>
    var resolution: real

    /** A product of a known type whose default resolution has been set. */
    constructor(productType: CosmoProductType, resolution: real)
      ensures this.productType == productType && sensorMode.None? && this.resolution == resolution
    {
      this.productType := productType;
      sensorMode := None;
      this.resolution := resolution;
    }

    /**
     * `_set_resolution`: the table for complex products; otherwise the
     * metadata's `GroundRangeGeometricResolution` read with `parseFloat`
     * (`float`, `None` when it fails).  A missing text raises
     * InvalidProductError, one that is no number raises ValueError.
     */
    function DefaultResolution(groundRange: Option<string>, parseFloat: string -> Option<real>): (r: Result<real>)
      reads this
      ensures productType == SCS ==> r == Ok(ScsResolution(sensorMode))
      ensures productType != SCS && groundRange.None? ==> r == Err(InvalidProductError)
      ensures productType != SCS && groundRange.Some? ==>
        r == (if parseFloat(groundRange.value).Some? then Ok(parseFloat(groundRange.value).value) else Err(ValueError))
    {
      if productType == SCS then Ok(ScsResolution(sensorMode))
      else if groundRange.None? then Err(InvalidProductError)
      else if parseFloat(groundRange.value).None? then Err(ValueError)
      else Ok(parseFloat(groundRange.value).value)
    }

    /**
     * `_set_sensor_mode` on the metadata's `AcquisitionMode` text: the mode
     * is stored, then an unknown or missing one raises InvalidProductError.
     */
    method SetSensorMode(acquisitionMode: Option<string>) returns (o: Outcome)
      modifies this
      ensures sensorMode == (if acquisitionMode.Some? then FromValue(acquisitionMode.value) else None)
      ensures o == (if sensorMode.Some? then Success else Failure(InvalidProductError))
      ensures o == Success ==> ModeValue(sensorMode.value) == acquisitionMode.value
      ensures productType == old(productType) && resolution == old(resolution)
    {
      sensorMode := if acquisitionMode.Some? then FromValue(acquisitionMode.value) else None;
      if sensorMode.None? {
        return Failure(InvalidProductError);
      }
      return Success;
    }

    /**
     * The resolution fallback of `_read_band`, proved against `Fallback`.
     * Returns the resolution handed to the generic reader.
     */
    method ReadBandResolution(filePixelSize: real, requested: ResolutionArg) returns (passed: ResolutionArg)
      modifies this
      ensures (passed, resolution) == Fallback(old(resolution), filePixelSize, requested)
      ensures productType == old(productType) && sensorMode == old(sensorMode)
    {
      if resolution < 0.0 {
        resolution := filePixelSize;
      }
      passed := requested;
      if requested.Scalar? && requested.x < 0.0 {
        passed := Scalar(resolution);
      }
    }
  }

  /**
   * `_read_band`'s fallback on the old product resolution: a negative one
   * is replaced by the file's pixel size, then a negative scalar request
   * becomes the product resolution; pairs and no request pass through.
   * Gives the request passed on and the new product resolution.
   */
  function Fallback(productRes: real, filePixelSize: real, requested: ResolutionArg): (ResolutionArg, real)
  {
    var res := if productRes < 0.0 then filePixelSize else productRes;
    (if requested.Scalar? && requested.x < 0.0 then Scalar(res) else requested, res)
  }

  /**
   * A set product resolution is kept; once it or the file's pixel size is
   * non-negative, no negative scalar reaches the generic reader; and a
   * second read with the same request changes nothing.
   */
  lemma FallbackProperties(productRes: real, filePixelSize: real, requested: ResolutionArg, otherSize: real)
    ensures productRes >= 0.0 ==> Fallback(productRes, filePixelSize, requested).1 == productRes
    ensures productRes < 0.0 ==> Fallback(productRes, filePixelSize, requested).1 == filePixelSize
    ensures !requested.Scalar? ==> Fallback(productRes, filePixelSize, requested).0 == requested
    ensures (productRes >= 0.0 || filePixelSize >= 0.0) && requested.Scalar? && requested.x < 0.0 ==>
      Fallback(productRes, filePixelSize, requested).0 == Scalar(Fallback(productRes, filePixelSize, requested).1)
      && Fallback(productRes, filePixelSize, requested).1 >= 0.0
    ensures var (passed, res) := Fallback(productRes, filePixelSize, requested);
      res >= 0.0 ==> Fallback(res, otherSize, requested) == (passed, res)
  {
  }
}
