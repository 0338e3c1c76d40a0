/** SPOT-7 products (`spot7_product.py`): the default resolution of a band combination. */
module Spot7 {

  /** `DimapBandCombination`: the band combinations of DIMAP products. */
  datatype DimapBandCombination = PAN | MS | MS_X | MS_N | MS_FS | PMS | PMS_X | PMS_N | PMS_FS

  /** The multispectral combinations that are not pansharpened. */
  predicate NotPansharpened(bc: DimapBandCombination)
  {
    bc in {MS, MS_X, MS_N}
  }

  /** `_set_resolution`: 6 m for MS, MS_X and MS_N; 1.5 m for every other combination. */
  function DefaultResolution(bc: DimapBandCombination): (r: real)
    ensures r == 6.0 <==> bc == MS || bc == MS_X || bc == MS_N
    ensures r == 1.5 <==> !(bc == MS || bc == MS_X || bc == MS_N)
  {
    if NotPansharpened(bc) then 6.0 else 1.5
  }
}
