/**
 * Landsat-5 products (`l5_product.py`): the default resolution, the product
 * type dispatch on the name, and the condensed name.
 */
module Landsat5 {
  import opened Wrappers
  import opened Strings
  import opened Landsat

  /** The kinds of Landsat-5 bands: reflective, and TM's thermal band. */
  datatype BandKind = Reflective | Thermal

  /**
   * The pixel size of the delivered Level-1 bands, in metres: TM's
   * reflective bands are 30 m and its thermal band 120 m; MSS bands are 60 m.
   */
  function PixelSize(t: LandsatProductType, k: BandKind): real
  {
    if t == L1_TM then (if k == Reflective then 30.0 else 120.0) else 60.0
  }

  /** `_set_resolution` as written: 60 m for L1_TM, 30 m otherwise. */
  function DefaultResolutionAsWritten(t: Option<LandsatProductType>): (r: real)
    ensures r == 60.0 <==> t == Some(L1_TM)
    ensures r == 60.0 || r == 30.0
  {
    if t == Some(L1_TM) then 60.0 else 30.0
  }

  /** As written, TM gets twice its reflective pixel size and MSS half its pixel size. */
  lemma DefaultResolutionAsWrittenSwapped()
    ensures DefaultResolutionAsWritten(Some(L1_TM)) == 2.0 * PixelSize(L1_TM, Reflective)
    ensures 2.0 * DefaultResolutionAsWritten(Some(L1_MSS)) == PixelSize(L1_MSS, Reflective)
  {
  }

  /** `_set_resolution` with its branches swapped back: 30 m for L1_TM (thermal band left aside), 60 m otherwise. */
  function DefaultResolution(t: Option<LandsatProductType>): (r: real)
    ensures r == 30.0 <==> t == Some(L1_TM)
    ensures r == 60.0 || r == 30.0
  {
    if t == Some(L1_TM) then 30.0 else 60.0
  }

  /** The corrected default is the pixel size of the product's reflective bands, the finest it has. */
  lemma DefaultResolutionIsReflectivePixelSize(t: LandsatProductType)
    requires t == L1_TM || t == L1_MSS
    ensures DefaultResolution(Some(t)) == PixelSize(t, Reflective)
    ensures forall k: BandKind :: DefaultResolution(Some(t)) <= PixelSize(t, k)
  {
  }

  /** The product type helper `_set_product_type` hands over to. */
  datatype Dispatch = TmProduct | MssProduct(version: nat)

  /**
   * `_set_product_type`: a name holding `LT05` is a TM product, tested
   * before `LM05`, which is an MSS product of version 5; any other name
   * raises InvalidProductError.
   */
  function SetProductType(name: string): (r: Result<Dispatch>)
  {
    if Contains(name, "LT05") then Ok(TmProduct)
    else if Contains(name, "LM05") then Ok(MssProduct(5))
    else Err(InvalidProductError)
  }

  /** Both directions of the dispatch, and `LT05` wins when a name holds both. */
  lemma SetProductTypeCases(name: string)
    ensures SetProductType(name) == Ok(TmProduct) <==> Contains(name, "LT05")
    ensures SetProductType(name) == Ok(MssProduct(5)) <==> !Contains(name, "LT05") && Contains(name, "LM05")
    ensures SetProductType(name).Err? <==> !Contains(name, "LT05") && !Contains(name, "LM05")
    ensures SetProductType(name).Err? ==> SetProductType(name).error == InvalidProductError
  {
  }

  /** A name holding both codes is a TM product. */
  lemma BothCodesGiveTm(a: string, b: string, c: string)
    ensures SetProductType(a + "LM05" + b + "LT05" + c) == Ok(TmProduct)
  {
    var s := a + "LM05" + b + "LT05" + c;
    var k := |a| + 4 + |b|;
    assert s[k..k + 4] == "LT05";
    OccursAtContains(s, "LT05", k);
  }

  /** `_get_condensed_name`: `{date}_L5_{tile}_{type}` on the product's datetime text and tile name. */
  function CondensedName5(date: string, tile: string, t: LandsatProductType): string
  {
    CondensedName(date, "L5", tile, t)
  }
}
