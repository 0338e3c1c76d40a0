/**
 * The canonical band vocabulary every product maps its raw channels onto.
 *
 * Optical band names and cloud band names are kept apart, as in the
 * readers.  `NNIR` and `FNIR` are the short aliases
 * the older Sentinel-3 reader uses for the narrow and far near-infrared
 * bands.
 */
module Bands {

  /** `OpticalBandNames` */
  datatype OpticalBand =
    | CA | BLUE | GREEN | YELLOW | RED
    | VRE_1 | VRE_2 | VRE_3
    | NIR | NARROW_NIR | WV | FNIR
    | SWIR_CIRRUS | SWIR_1 | SWIR_2
    | MIR | TIR_1 | TIR_2 | PAN

  /** `obn.NNIR` is another name for `obn.NARROW_NIR`. */
  const NNIR: OpticalBand := NARROW_NIR

  /** Cloud band names. */
  datatype CloudBand = RAW_CLOUDS | CLOUDS | CIRRUS | SHADOWS | ALL_CLOUDS

  /** Any band name a reader can be asked about. */
  datatype AnyBand = Optical(ob: OpticalBand) | Cloud(cb: CloudBand)

  /**
   * A band argument that is either a canonical optical band or a raw string
   * (a quality-flag or exception layer name, for instance).
   */
  datatype BandArg = Obn(band: OpticalBand) | Raw(name: string)

  /**
   * A product's `band_names` table: canonical band to raw channel id.
   * A canonical band missing from the map is one the product maps to None.
   */
  type BandMap = map<OpticalBand, string>
}
