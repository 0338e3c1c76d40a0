/**
 * What the Landsat-3 and Landsat-5 readers share with the generic Landsat
 * reader: the product types and the condensed name format
 * `{date}_{constellation}_{tile}_{product type}`.
 */
module Landsat {
  import opened Strings

  /** `LandsatProductType`: the level-1 product types, one per sensor. */
  datatype LandsatProductType = L1_OLCI | L1_ETM | L1_TM | L1_MSS

  function TypeValue(t: LandsatProductType): string
  {
    match t
    case L1_OLCI => "OLCI"
    case L1_ETM => "ETM"
    case L1_TM => "TM"
    case L1_MSS => "MSS"
  }

  /** `f"{date}_{constellation}_{tile}_{product_type.value}"` */
  function CondensedName(date: string, constellation: string, tile: string, t: LandsatProductType): string
  {
    date + "_" + constellation + "_" + tile + "_" + TypeValue(t)
  }

  /** With underscore-free parts, splitting the condensed name on `_` gives its four parts back. */
  lemma CondensedNameFields(date: string, constellation: string, tile: string, t: LandsatProductType)
    requires '_' !in date && '_' !in constellation && '_' !in tile
    ensures Split(CondensedName(date, constellation, tile, t), '_') == [date, constellation, tile, TypeValue(t)]
  {
    var parts := [date, constellation, tile, TypeValue(t)];
    assert '_' !in TypeValue(t);
    assert Join(parts[3..], '_') == TypeValue(t);
    assert Join(parts[2..], '_') == tile + "_" + TypeValue(t) by {
      assert parts[2..][1..] == parts[3..];
    }
    assert Join(parts[1..], '_') == constellation + "_" + tile + "_" + TypeValue(t) by {
      assert parts[1..][1..] == parts[2..];
    }
    assert Join(parts, '_') == CondensedName(date, constellation, tile, t);
    SplitJoin(parts, '_');
  }
}
