/**
 * Landsat-3 products (`l3_product.py`): the default resolution, the product
 * type and band map chosen from the name, and the condensed name.
 */
module Landsat3 {
  import opened Wrappers
  import opened Strings
  import opened Bands
  import opened Landsat

  /** `_set_default_resolution`: 60 m, the thermal band left aside. */
  const DEFAULT_RESOLUTION: real := 60.0

  /** The MSS band map: no blue band, one band for the three red edges, one for both NIRs. */
  function MssBandMap(): BandMap
  {
    map[GREEN := "4", RED := "5", VRE_1 := "6", VRE_2 := "6", VRE_3 := "6", NIR := "7", NNIR := "7"]
  }

  lemma MssBandMapShape()
    ensures MssBandMap().Keys == {GREEN, RED, VRE_1, VRE_2, VRE_3, NIR, NARROW_NIR}
    ensures BLUE !in MssBandMap()
    ensures MssBandMap()[VRE_1] == MssBandMap()[VRE_2] == MssBandMap()[VRE_3] == "6"
    ensures MssBandMap()[NIR] == MssBandMap()[NARROW_NIR] == "7"
    ensures forall a, b :: a in MssBandMap() && b in MssBandMap() && MssBandMap()[a] == MssBandMap()[b] && a != b ==>
      ({a, b} <= {VRE_1, VRE_2, VRE_3} || {a, b} == {NIR, NARROW_NIR})
  {
  }

  /** `L3Product` with the fields `_set_product_type` assigns. */
  class L3Product {
    const name: string
    var productType: Option<LandsatProductType>
    var bandNames: BandMap

    constructor(name: string)
      ensures this.name == name && productType.None? && bandNames == map[]
    {
      this.name := name;
      productType := None;
      bandNames := map[];
    }

    /** `_set_product_type`: a name holding `L1` is an MSS product with the MSS bands; any other raises InvalidProductError. */
    method SetProductType() returns (o: Outcome)
      modifies this
      ensures Contains(name, "L1") ==> o == Success && productType == Some(L1_MSS) && bandNames == old(bandNames) + MssBandMap()
      ensures !Contains(name, "L1") ==> o == Failure(InvalidProductError) && productType == old(productType) && bandNames == old(bandNames)
    {
      if Contains(name, "L1") {
        productType := Some(L1_MSS);
        bandNames := bandNames + MssBandMap();
        return Success;
      }
      return Failure(InvalidProductError);
    }

    /**
     * `_set_condensed_name` on the product's datetime text and tile name:
     * `{date}_L3_{tile}_{type}`; reading the value of an unset type raises
     * AttributeError.
     */
    function CondensedName3(date: string, tile: string): (r: Result<string>)
      reads this
      ensures r.Ok? <==> productType.Some?
      ensures r.Err? ==> r.error == AttributeError
      ensures r.Ok? ==> r.value == CondensedName(date, "L3", tile, productType.value)
    {
      if productType.None? then Err(AttributeError)
      else Ok(CondensedName(date, "L3", tile, productType.value))
    }
  }
}
