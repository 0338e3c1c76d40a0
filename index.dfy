/**
 * The spectral-index engine of `eoreader/bands/index.py`.
 *
 * Every index is a closed-form formula over canonical bands, evaluated
 * pixel by pixel (`Eval`).  The decorator that every index carries computes
 * the formula on the raw data of a band dictionary and dresses the result
 * with the first band's metadata under the index's name (`Compute`).  The
 * module also keeps the index registry and the band-dependency table.
 */
module SpectralIndex {
  import opened Wrappers
  import opened Strings
  import opened Bands
  import opened Rasters

  /** The uppercase functions of the module, one per index. */
  datatype Index =
    | RGI | NDVI | TCBRI | TCGRE | TCWET | NDRE2 | NDRE3 | GLI | GNDVI | RI
    | NDGRI | CIG | NDMI | DSWI | SRSWIR | RDI | NDWI | BAI | BAIS2 | NBR
    | MNDWI | AWEInsh | AWEIsh | WI | AFRI_1_6 | AFRI_2_1 | BSI
    | WV_WI | WV_VI | WV_SI | WV_BI | SI | GVMI | SBI | SCI | PANI

  /** The index function's `__name__`. */
  function IndexName(idx: Index): string
  {
    match idx
    case RGI => "RGI"
    case NDVI => "NDVI"
    case TCBRI => "TCBRI"
    case TCGRE => "TCGRE"
    case TCWET => "TCWET"
    case NDRE2 => "NDRE2"
    case NDRE3 => "NDRE3"
    case GLI => "GLI"
    case GNDVI => "GNDVI"
    case RI => "RI"
    case NDGRI => "NDGRI"
    case CIG => "CIG"
    case NDMI => "NDMI"
    case DSWI => "DSWI"
    case SRSWIR => "SRSWIR"
    case RDI => "RDI"
    case NDWI => "NDWI"
    case BAI => "BAI"
    case BAIS2 => "BAIS2"
    case NBR => "NBR"
    case MNDWI => "MNDWI"
    case AWEInsh => "AWEInsh"
    case AWEIsh => "AWEIsh"
    case WI => "WI"
    case AFRI_1_6 => "AFRI_1_6"
    case AFRI_2_1 => "AFRI_2_1"
    case BSI => "BSI"
    case WV_WI => "WV_WI"
    case WV_VI => "WV_VI"
    case WV_SI => "WV_SI"
    case WV_BI => "WV_BI"
    case SI => "SI"
    case GVMI => "GVMI"
    case SBI => "SBI"
    case SCI => "SCI"
    case PANI => "PANI"
  }

  // ---------------------------------------------------------------------
  // Band dependencies
  // ---------------------------------------------------------------------

  /**
   * Every `obn.X` reference in the index function's source, in order of
   * appearance and with repetitions (what `get_needed_bands` extracts).
   */
  function NeededBands(idx: Index): (bands: seq<OpticalBand>)
    ensures |bands| > 0
  {
    match idx
    case RGI => [RED, GREEN]
    case NDVI => [NIR, RED]
    case TCBRI => [BLUE, GREEN, RED, NIR, SWIR_1, SWIR_2]
    case TCGRE => [BLUE, GREEN, RED, NIR, SWIR_1, SWIR_2]
    case TCWET => [BLUE, GREEN, RED, NIR, SWIR_1, SWIR_2]
    case NDRE2 => [NIR, VRE_1]
    case NDRE3 => [NIR, VRE_2]
    case GLI => [GREEN, RED, BLUE, GREEN, RED, BLUE]
    case GNDVI => [NIR, GREEN]
    case RI => [VRE_1, GREEN]
    case NDGRI => [GREEN, RED]
    case CIG => [NIR, GREEN]
    case NDMI => [NIR, SWIR_1]
    case DSWI => [NIR, GREEN, SWIR_1, RED]
    case SRSWIR => [SWIR_1, SWIR_2]
    case RDI => [SWIR_2, NARROW_NIR]
    case NDWI => [GREEN, NIR]
    case BAI => [RED, NIR]
    case BAIS2 => [VRE_2, VRE_3, NARROW_NIR, RED, SWIR_2, NARROW_NIR, SWIR_2, NARROW_NIR]
    case NBR => [NARROW_NIR, SWIR_2]
    case MNDWI => [GREEN, SWIR_1]
    case AWEInsh => [GREEN, SWIR_1, NIR, SWIR_2]
    case AWEIsh => [BLUE, GREEN, NIR, SWIR_1, SWIR_2]
    case WI => [GREEN, RED, NIR, SWIR_1, SWIR_2]
    case AFRI_1_6 => [NIR, SWIR_1]
    case AFRI_2_1 => [NIR, SWIR_2]
    case BSI => [RED, SWIR_1, NIR, BLUE]
    case WV_WI => [WV, CA]
    case WV_VI => [WV, RED]
    case WV_SI => [YELLOW, GREEN]
    case WV_BI => [VRE_1, CA]
    case SI => [GREEN, GREEN, RED, RED]
    case GVMI => [NIR, SWIR_2]
    case SBI => [RED, NIR]
    case SCI => [GREEN, RED]
    case PANI => [RED, GREEN, BLUE]
  }

  /** A band-to-value lookup for one pixel. */
  type Pixel = map<OpticalBand, Num>

  /** Every band the index reads is present. */
  predicate HasNeeded(idx: Index, keys: set<OpticalBand>)
  {
    forall b :: b in NeededBands(idx) ==> b in keys
  }

  /**
   * What a formula needs beyond the pixel: the square root of non-negative
   * reals and, for SI, the 99th NaN-ignoring percentile of each band.
   */
  datatype Env = Env(root: real -> real, p99: OpticalBand -> Num)

  // ---------------------------------------------------------------------
  // Formulas
  // ---------------------------------------------------------------------

  /** `_norm_diff`: (a - b) / (a + b), undefined where a + b is zero. */
  function NormDiff(a: Num, b: Num): (r: Num)
    ensures r.Val? <==> a.Val? && b.Val? && a.v + b.v != 0.0
    ensures r.Val? ==> r.v * (a.v + b.v) == a.v - b.v
  {
    Div(Sub(a, b), Add(a, b))
  }

  /** `np.where(x < 0, 0, x)`: negative values become 0, NaN stays NaN. */
  function ClampNonNegative(x: Num): (r: Num)
    ensures r.Val? <==> x.Val?
    ensures r.Val? ==> r.v >= 0.0 && (x.v >= 0.0 ==> r.v == x.v)
    ensures x.Val? && x.v < 0.0 ==> r == Val(0.0)
  {
    if Less(x, 0.0) then Val(0.0) else x
  }

  /**
   * The shape of each formula: a normalised difference of two operands, another
   * quotient, a linear combination of bands, or a formula with a square root.
   */
  datatype Family = NormalisedDifference | Quotient | LinearCombination | SquareRoot

  function FamilyOf(idx: Index): Family
  {
    match idx
    case NDVI | NDRE2 | NDRE3 | GNDVI | RI | NDGRI | NDMI | NDWI | NBR | MNDWI
       | AFRI_1_6 | AFRI_2_1 | BSI | WV_WI | WV_VI | WV_SI | WV_BI | GVMI => NormalisedDifference
    case RGI | GLI | CIG | DSWI | SRSWIR | RDI | BAI => Quotient
    case TCBRI | TCGRE | TCWET | AWEInsh | AWEIsh | WI | SCI => LinearCombination
    case BAIS2 | SI | SBI | PANI => SquareRoot
  }

  /** The two operands that a normalised-difference index passes to `_norm_diff`. */
  function NdOperands(idx: Index, px: Pixel): (Num, Num)
    requires FamilyOf(idx) == NormalisedDifference && HasNeeded(idx, px.Keys)
  {
    match idx
    case NDVI => (px[NIR], px[RED])
    case NDRE2 => (px[NIR], px[VRE_1])
    case NDRE3 => (px[NIR], px[VRE_2])
    case GNDVI => (px[NIR], px[GREEN])
    case RI => (px[VRE_1], px[GREEN])
    case NDGRI => (px[GREEN], px[RED])
    case NDMI => (px[NIR], px[SWIR_1])
    case NDWI => (px[GREEN], px[NIR])
    case NBR => (px[NARROW_NIR], px[SWIR_2])
    case MNDWI => (px[GREEN], px[SWIR_1])
    case AFRI_1_6 => (px[NIR], Scale(0.66, px[SWIR_1]))
    case AFRI_2_1 => (px[NIR], Scale(0.5, px[SWIR_2]))
    case BSI => (Add(px[RED], px[SWIR_1]), Add(px[NIR], px[BLUE]))
    case WV_WI => (px[WV], px[CA])
    case WV_VI => (px[WV], px[RED])
    case WV_SI => (px[YELLOW], px[GREEN])
    case WV_BI => (px[VRE_1], px[CA])
    case GVMI => (Add(px[NIR], Val(0.1)), Add(px[SWIR_2], Val(0.02)))
  }

  /** The quotients that are not normalised differences. */
  function QuotientEval(idx: Index, px: Pixel): Num
    requires FamilyOf(idx) == Quotient && HasNeeded(idx, px.Keys)
  {
    match idx
    case RGI => Div(px[RED], px[GREEN])
    case GLI =>
      Div(Sub(Sub(Scale(2.0, px[GREEN]), px[RED]), px[BLUE]),
          Add(Add(Scale(2.0, px[GREEN]), px[RED]), px[BLUE]))
    case CIG => Sub(Div(px[NIR], px[GREEN]), Val(1.0))
    case DSWI => Div(Add(px[NIR], px[GREEN]), Add(px[SWIR_1], px[RED]))
    case SRSWIR => Div(px[SWIR_1], px[SWIR_2])
    case RDI => Div(px[SWIR_2], px[NARROW_NIR])
    case BAI => Div(Val(1.0), Add(Square(Sub(Val(0.1), px[RED])), Square(Sub(Val(0.06), px[NIR]))))
  }

  /** The linear combinations, with the source's left-to-right grouping. */
  function LinearEval(idx: Index, px: Pixel): Num
    requires FamilyOf(idx) == LinearCombination && HasNeeded(idx, px.Keys)
  {
    match idx
    case TCBRI =>
      Add(Add(Add(Add(Add(
        Scale(0.3037, px[BLUE]), Scale(0.2793, px[GREEN])), Scale(0.4743, px[RED])),
        Scale(0.5585, px[NIR])), Scale(0.5082, px[SWIR_1])), Scale(0.1863, px[SWIR_2]))
    case TCGRE =>
      Sub(Add(Add(Sub(Sub(
        Scale(-0.2848, px[BLUE]), Scale(0.2435, px[GREEN])), Scale(0.5436, px[RED])),
        Scale(0.7243, px[NIR])), Scale(0.0840, px[SWIR_1])), Scale(0.1800, px[SWIR_2]))
    case TCWET =>
      Sub(Sub(Add(Add(Add(
        Scale(0.1509, px[BLUE]), Scale(0.1973, px[GREEN])), Scale(0.3279, px[RED])),
        Scale(0.3406, px[NIR])), Scale(0.7112, px[SWIR_1])), Scale(0.4572, px[SWIR_2]))
    case AWEInsh =>
      Sub(Scale(4.0, Sub(px[GREEN], px[SWIR_1])), Add(Scale(0.25, px[NIR]), Scale(2.75, px[SWIR_2])))
    case AWEIsh =>
      Sub(Sub(Add(px[BLUE], Scale(2.5, px[GREEN])), Scale(1.5, Add(px[NIR], px[SWIR_1]))),
          Scale(0.25, px[SWIR_2]))
    case WI =>
      Sub(Sub(Sub(Add(Add(
        Val(1.7204), Scale(171.0, px[GREEN])), Scale(3.0, px[RED])), Scale(70.0, px[NIR])),
        Scale(45.0, px[SWIR_1])), Scale(71.0, px[SWIR_2]))
    case SCI => Sub(Sub(Scale(3.0, px[GREEN]), px[RED]), Val(100.0))
  }

  /** The formulas with a square root (`np.sqrt` or `** 0.5`). */
  function RootEval(idx: Index, px: Pixel, env: Env): Num
    requires FamilyOf(idx) == SquareRoot && HasNeeded(idx, px.Keys)
  {
    match idx
    case BAIS2 =>
      var a := Sqrt(Div(Mul(Mul(px[VRE_2], px[VRE_3]), px[NARROW_NIR]), px[RED]), env.root);
      var b := Div(Sub(px[SWIR_2], px[NARROW_NIR]), Sqrt(Add(px[SWIR_2], px[NARROW_NIR]), env.root));
      Mul(Sub(Val(1.0), a), Add(Val(1.0), b))
    case SI =>
      var green := ClampNonNegative(Sub(env.p99(GREEN), px[GREEN]));
      var red := ClampNonNegative(Sub(env.p99(RED), px[RED]));
      Sqrt(Mul(green, red), env.root)
    case SBI => Sqrt(Add(Square(px[RED]), Square(px[NIR])), env.root)
    case PANI => Sqrt(Add(Add(Square(px[RED]), Square(px[GREEN])), Square(px[BLUE])), env.root)
  }

  /** The formula of each index, on one pixel. */
  function Eval(idx: Index, px: Pixel, env: Env): Num
    requires HasNeeded(idx, px.Keys)
  {
    match FamilyOf(idx)
    case NormalisedDifference =>
      var (a, b) := NdOperands(idx, px);
      NormDiff(a, b)
    case Quotient => QuotientEval(idx, px)
    case LinearCombination => LinearEval(idx, px)
    case SquareRoot => RootEval(idx, px, env)
  }

  // ---------------------------------------------------------------------
  // Properties of the formulas
  // ---------------------------------------------------------------------

  /** For non-negative reflectances with a positive sum, the normalised difference lies in [-1, 1]. */
  lemma NormDiffBounded(a: real, b: real)
    requires a >= 0.0 && b >= 0.0 && a + b > 0.0
    ensures NormDiff(Val(a), Val(b)).Val?
    ensures -1.0 <= NormDiff(Val(a), Val(b)).v <= 1.0
  {
    assert NormDiff(Val(a), Val(b)).v == (a - b) / (a + b);
    QuotientBounded(a - b, a + b);
  }

  /** A quotient whose numerator is no larger in size than its positive denominator lies in [-1, 1]. */
  lemma QuotientBounded(x: real, s: real)
    requires s > 0.0 && -s <= x <= s
    ensures -1.0 <= x / s <= 1.0
  {
  }

  /** Swapping the two bands negates the normalised difference (and both are undefined together). */
  lemma NormDiffAntisymmetric(a: Num, b: Num)
    ensures NormDiff(a, b) == Neg(NormDiff(b, a))
  {
    var r, s := NormDiff(a, b), NormDiff(b, a);
    if r.Val? {
      assert s.v * (a.v + b.v) == b.v - a.v;
      assert (r.v + s.v) * (a.v + b.v) == 0.0;
      assert r.v + s.v == 0.0;
    }
  }

  /** NDWI is GNDVI with its bands swapped, hence its negation. */
  lemma NdwiNegatesGndvi(px: Pixel, env: Env)
    requires GREEN in px && NIR in px
    ensures HasNeeded(NDWI, px.Keys) && HasNeeded(GNDVI, px.Keys)
    ensures Eval(NDWI, px, env) == Neg(Eval(GNDVI, px, env))
  {
    NormDiffAntisymmetric(px[GREEN], px[NIR]);
  }

  /** 0 / 0 gives an undefined pixel, never an error: RGI where RED and GREEN are both 0. */
  lemma ZeroDenominatorUndefined(px: Pixel, env: Env)
    requires RED in px && GREEN in px && px[RED] == Val(0.0) && px[GREEN] == Val(0.0)
    ensures HasNeeded(RGI, px.Keys)
    ensures Eval(RGI, px, env) == NaN
  {
  }

  predicate AgreeOnNeeded(idx: Index, px: Pixel, qx: Pixel)
  {
    && HasNeeded(idx, px.Keys) && HasNeeded(idx, qx.Keys)
    && forall b :: b in NeededBands(idx) ==> px[b] == qx[b]
  }

  /** The formula reads no band outside its dependency table. */
  lemma EvalReadsOnlyNeeded(idx: Index, px: Pixel, qx: Pixel, env: Env)
    requires AgreeOnNeeded(idx, px, qx)
    ensures Eval(idx, px, env) == Eval(idx, qx, env)
  {
    match FamilyOf(idx)
    case NormalisedDifference => NdOperandsReadOnlyNeeded(idx, px, qx);
    case Quotient => QuotientReadsOnlyNeeded(idx, px, qx);
    case LinearCombination => LinearReadsOnlyNeeded(idx, px, qx);
    case SquareRoot => RootReadsOnlyNeeded(idx, px, qx, env);
  }

  lemma NdOperandsReadOnlyNeeded(idx: Index, px: Pixel, qx: Pixel)
    requires FamilyOf(idx) == NormalisedDifference && AgreeOnNeeded(idx, px, qx)
    ensures NdOperands(idx, px) == NdOperands(idx, qx)
  {
  }

  lemma QuotientReadsOnlyNeeded(idx: Index, px: Pixel, qx: Pixel)
    requires FamilyOf(idx) == Quotient && AgreeOnNeeded(idx, px, qx)
    ensures QuotientEval(idx, px) == QuotientEval(idx, qx)
  {
  }

  lemma LinearReadsOnlyNeeded(idx: Index, px: Pixel, qx: Pixel)
    requires FamilyOf(idx) == LinearCombination && AgreeOnNeeded(idx, px, qx)
    ensures LinearEval(idx, px) == LinearEval(idx, qx)
  {
  }

  lemma RootReadsOnlyNeeded(idx: Index, px: Pixel, qx: Pixel, env: Env)
    requires FamilyOf(idx) == SquareRoot && AgreeOnNeeded(idx, px, qx)
    ensures RootEval(idx, px, env) == RootEval(idx, qx, env)
  {
  }

  /**
   * On non-negative reflectances every normalised-difference index lies in
   * [-1, 1] wherever it is defined: the operands the source builds (scaled
   * bands, sums of bands, bands plus a positive offset) stay non-negative.
   */
  lemma NormalisedDifferenceFamilyBounded(idx: Index, px: Pixel, env: Env)
    requires FamilyOf(idx) == NormalisedDifference && HasNeeded(idx, px.Keys)
    requires forall b :: b in NeededBands(idx) ==> px[b].Val? && px[b].v >= 0.0
    ensures Eval(idx, px, env).Val? ==> -1.0 <= Eval(idx, px, env).v <= 1.0
  {
    var (a, b) := NdOperands(idx, px);
    assert a.Val? && a.v >= 0.0 && b.Val? && b.v >= 0.0;
    if a.v + b.v > 0.0 {
      NormDiffBounded(a.v, b.v);
    }
  }

  /** The first `n` terms of a linear combination `c1 * b1 + c2 * b2 + ...`, summed from the left. */
  function LinearPrefix(terms: seq<(real, OpticalBand)>, n: nat, px: Pixel): Num
    requires 0 < n <= |terms|
    requires forall k :: 0 <= k < |terms| ==> terms[k].1 in px
  {
    var t := terms[n - 1];
    if n == 1 then Scale(t.0, px[t.1])
    else Add(LinearPrefix(terms, n - 1, px), Scale(t.0, px[t.1]))
  }

  function Linear(terms: seq<(real, OpticalBand)>, px: Pixel): Num
    requires |terms| > 0
    requires forall k :: 0 <= k < |terms| ==> terms[k].1 in px
  {
    LinearPrefix(terms, |terms|, px)
  }

  const TC_BRIGHTNESS: seq<(real, OpticalBand)> :=
    [(0.3037, BLUE), (0.2793, GREEN), (0.4743, RED), (0.5585, NIR), (0.5082, SWIR_1), (0.1863, SWIR_2)]
  const TC_GREENNESS: seq<(real, OpticalBand)> :=
    [(-0.2848, BLUE), (-0.2435, GREEN), (-0.5436, RED), (0.7243, NIR), (0.0840, SWIR_1), (-0.1800, SWIR_2)]
  const TC_WETNESS: seq<(real, OpticalBand)> :=
    [(0.1509, BLUE), (0.1973, GREEN), (0.3279, RED), (0.3406, NIR), (-0.7112, SWIR_1), (-0.4572, SWIR_2)]

  predicate HasTasseledCapBands(px: Pixel)
  {
    BLUE in px && GREEN in px && RED in px && NIR in px && SWIR_1 in px && SWIR_2 in px
  }

  /** Subtracting `c * x` is adding `(-c) * x`, NaN included. */
  lemma SubScale(a: Num, c: real, x: Num)
    ensures Sub(a, Scale(c, x)) == Add(a, Scale(-c, x))
  {
  }

  /** Tasseled-cap brightness is the six-band linear combination with the brightness weights. */
  lemma TasseledCapBrightness(px: Pixel, env: Env)
    requires HasTasseledCapBands(px)
    ensures HasNeeded(TCBRI, px.Keys) && Eval(TCBRI, px, env) == Linear(TC_BRIGHTNESS, px)
  {
    var B, G, R, N, S1, S2 := px[BLUE], px[GREEN], px[RED], px[NIR], px[SWIR_1], px[SWIR_2];
    var T := TC_BRIGHTNESS;
    assert LinearPrefix(T, 2, px) == Add(Scale(0.3037, B), Scale(0.2793, G));
    assert LinearPrefix(T, 4, px) == Add(Add(LinearPrefix(T, 2, px), Scale(0.4743, R)), Scale(0.5585, N));
    assert LinearPrefix(T, 6, px) == Add(Add(LinearPrefix(T, 4, px), Scale(0.5082, S1)), Scale(0.1863, S2));
  }

  /** Tasseled-cap greenness: the subtractions of the source are the negative weights. */
  lemma TasseledCapGreenness(px: Pixel, env: Env)
    requires HasTasseledCapBands(px)
    ensures HasNeeded(TCGRE, px.Keys) && Eval(TCGRE, px, env) == Linear(TC_GREENNESS, px)
  {
    var B, G, R, N, S1, S2 := px[BLUE], px[GREEN], px[RED], px[NIR], px[SWIR_1], px[SWIR_2];
    var U := TC_GREENNESS;
    assert LinearPrefix(U, 2, px) == Add(Scale(-0.2848, B), Scale(-0.2435, G));
    assert LinearPrefix(U, 4, px) == Add(Add(LinearPrefix(U, 2, px), Scale(-0.5436, R)), Scale(0.7243, N));
    assert LinearPrefix(U, 6, px) == Add(Add(LinearPrefix(U, 4, px), Scale(0.0840, S1)), Scale(-0.1800, S2));
    SubScale(Scale(-0.2848, B), 0.2435, G);
    SubScale(LinearPrefix(U, 2, px), 0.5436, R);
    SubScale(Add(LinearPrefix(U, 4, px), Scale(0.0840, S1)), 0.1800, S2);
  }

  /** Tasseled-cap wetness: the last two weights are negative. */
  lemma TasseledCapWetness(px: Pixel, env: Env)
    requires HasTasseledCapBands(px)
    ensures HasNeeded(TCWET, px.Keys) && Eval(TCWET, px, env) == Linear(TC_WETNESS, px)
  {
    var B, G, R, N, S1, S2 := px[BLUE], px[GREEN], px[RED], px[NIR], px[SWIR_1], px[SWIR_2];
    var W := TC_WETNESS;
    assert LinearPrefix(W, 2, px) == Add(Scale(0.1509, B), Scale(0.1973, G));
    assert LinearPrefix(W, 4, px) == Add(Add(LinearPrefix(W, 2, px), Scale(0.3279, R)), Scale(0.3406, N));
    assert LinearPrefix(W, 6, px) == Add(Add(LinearPrefix(W, 4, px), Scale(-0.7112, S1)), Scale(-0.4572, S2));
    SubScale(LinearPrefix(W, 4, px), 0.7112, S1);
    SubScale(Add(LinearPrefix(W, 4, px), Scale(-0.7112, S1)), 0.4572, S2);
  }

  /**
   * SI never takes the square root of a negative number: both differences
   * are clamped first, so the index is undefined only where an input is,
   * and otherwise a non-negative root.
   */
  lemma SiNonNegative(px: Pixel, env: Env)
    requires GREEN in px && RED in px
    requires forall x: real :: x >= 0.0 ==> env.root(x) >= 0.0
    ensures HasNeeded(SI, px.Keys)
    ensures Eval(SI, px, env).Val? <==>
      px[GREEN].Val? && px[RED].Val? && env.p99(GREEN).Val? && env.p99(RED).Val?
    ensures Eval(SI, px, env).Val? ==> Eval(SI, px, env).v >= 0.0
  {
    var green := ClampNonNegative(Sub(env.p99(GREEN), px[GREEN]));
    var red := ClampNonNegative(Sub(env.p99(RED), px[RED]));
    if green.Val? && red.Val? {
      assert green.v * red.v >= 0.0;
    }
  }

  /** NDVI of RED 0.2 and NIR 0.6 is 0.5; of RED 0.4 and NIR 0.8 it is 1/3. */
  lemma NdviExample(env: Env)
    ensures Eval(NDVI, map[RED := Val(0.2), NIR := Val(0.6)], env) == Val(0.5)
    ensures Eval(NDVI, map[RED := Val(0.4), NIR := Val(0.8)], env) == Val(1.0 / 3.0)
  {
  }

  // ---------------------------------------------------------------------
  // The decorator: evaluate on raw data, keep the first band's metadata
  // ---------------------------------------------------------------------

  /** A band raster: its pixels, its name and the rest of its metadata. */
  datatype Layer = Layer(data: seq<Num>, name: string, attrs: map<string, string>)

  /** A band dictionary: its keys in insertion order and the layer of each. */
  datatype BandDict = BandDict(order: seq<OpticalBand>, layers: map<OpticalBand, Layer>)

  predicate WellFormed(d: BandDict)
  {
    && (forall j, k :: 0 <= j < k < |d.order| ==> d.order[j] != d.order[k])
    && (forall b :: b in d.layers <==> b in d.order)
    && (forall b, c :: b in d.layers && c in d.layers ==> |d.layers[b].data| == |d.layers[c].data|)
  }

  /** The pixel count shared by every band of a well-formed, non-empty dictionary. */
  function Size(d: BandDict): nat
    requires |d.order| > 0 && WellFormed(d)
  {
    |d.layers[d.order[0]].data|
  }

  /** Pixel `k` of every band. */
  function PixelAt(d: BandDict, k: nat): (px: Pixel)
    requires |d.order| > 0 && WellFormed(d) && k < Size(d)
    ensures px.Keys == d.layers.Keys
  {
    map b | b in d.layers :: d.layers[b].data[k]
  }

  /**
   * The decorated index function: a missing band raises KeyError; otherwise
   * the formula is applied to every pixel (with `percentile` as the
   * NaN-ignoring 99th percentile), and the result carries the first band's
   * metadata and the index function's name.
   */
  function Compute(idx: Index, d: BandDict, root: real -> real, percentile: seq<Num> -> Num): (r: Result<Layer>)
    requires WellFormed(d)
    ensures r.Err? <==> !HasNeeded(idx, d.layers.Keys)
    ensures r.Err? ==> r.error == KeyError
    ensures r.Ok? ==>
      (&& |d.order| > 0
       && r.value.name == IndexName(idx)
       && r.value.attrs == d.layers[d.order[0]].attrs
       && |r.value.data| == Size(d))
  {
    if !HasNeeded(idx, d.layers.Keys) then Err(KeyError)
    else
      assert NeededBands(idx)[0] in d.order;
      var env := Env(root, b => if b in d.layers then percentile(d.layers[b].data) else NaN);
      var first := d.layers[d.order[0]];
      Ok(Layer(seq(Size(d), k requires 0 <= k < Size(d) => Eval(idx, PixelAt(d, k), env)),
               IndexName(idx), first.attrs))
  }

  /** Each output pixel is the formula applied to that pixel of the input bands. */
  lemma ComputePixels(idx: Index, d: BandDict, root: real -> real, percentile: seq<Num> -> Num, k: nat)
    requires WellFormed(d) && HasNeeded(idx, d.layers.Keys)
    ensures |d.order| > 0
    ensures k < Size(d) ==>
      var env := Env(root, b => if b in d.layers then percentile(d.layers[b].data) else NaN);
      Compute(idx, d, root, percentile).value.data[k] == Eval(idx, PixelAt(d, k), env)
  {
    assert NeededBands(idx)[0] in d.order;
  }

  // ---------------------------------------------------------------------
  // Registry
  // ---------------------------------------------------------------------

  /** A function of the module: an index, or a helper with its name. */
  datatype ModuleFunction = IndexFunction(idx: Index) | Helper(name: string)

  function FunctionName(f: ModuleFunction): string
  {
    match f
    case IndexFunction(idx) => IndexName(idx)
    case Helper(name) => name
  }

  /** The index functions in name order. */
  const ALL_INDICES: seq<Index> := [
    AFRI_1_6, AFRI_2_1, AWEInsh, AWEIsh, BAI, BAIS2, BSI, CIG, DSWI, GLI, GNDVI, GVMI,
    MNDWI, NBR, NDGRI, NDMI, NDRE2, NDRE3, NDVI, NDWI, PANI, RDI, RGI, RI, SBI, SCI,
    SI, SRSWIR, TCBRI, TCGRE, TCWET, WI, WV_BI, WV_SI, WV_VI, WV_WI]

  /** The module's other functions, including the imported `wraps`. */
  const HELPERS: seq<ModuleFunction> := [
    Helper("_idx_fct"), Helper("_norm_diff"), Helper("get_all_index_names"),
    Helper("get_all_indices"), Helper("get_all_needed_bands"), Helper("get_needed_bands"),
    Helper("wraps")]

  function IndexFunctions(idxs: seq<Index>): (fs: seq<ModuleFunction>)
    ensures |fs| == |idxs| && forall k :: 0 <= k < |idxs| ==> fs[k] == IndexFunction(idxs[k])
  {
    seq(|idxs|, k requires 0 <= k < |idxs| => IndexFunction(idxs[k]))
  }

  /** What `inspect.getmembers(module, inspect.isfunction)` lists, in its name order. */
  const MODULE_FUNCTIONS: seq<ModuleFunction> := IndexFunctions(ALL_INDICES) + HELPERS

  /** The registry's filter: `name[0].isupper()`. */
  predicate IsRegistered(f: ModuleFunction)
  {
    |FunctionName(f)| > 0 && IsUpper(FunctionName(f)[0])
  }

  /** The functions that pass the filter, in the order they are listed. */
  function Registered(fs: seq<ModuleFunction>): seq<ModuleFunction>
  {
    if |fs| == 0 then []
    else Registered(fs[..|fs| - 1]) + (if IsRegistered(fs[|fs| - 1]) then [fs[|fs| - 1]] else [])
  }

  lemma {:induction false} RegisteredAppend(a: seq<ModuleFunction>, b: seq<ModuleFunction>)
    ensures Registered(a + b) == Registered(a) + Registered(b)
    decreases |b|
  {
    if |b| == 0 {
      assert a + b == a;
    } else {
      var init, last := b[..|b| - 1], b[|b| - 1];
      assert a + b == (a + init) + [last];
      assert b == init + [last];
      RegisteredAppend(a, init);
      RegisteredSnoc(a + init, last);
      RegisteredSnoc(init, last);
    }
  }

  lemma {:induction false} NoneRegistered(fs: seq<ModuleFunction>)
    requires forall k :: 0 <= k < |fs| ==> !IsRegistered(fs[k])
    ensures Registered(fs) == []
    decreases |fs|
  {
    if |fs| > 0 {
      NoneRegistered(fs[..|fs| - 1]);
    }
  }

  /** Every index name starts with an uppercase letter. */
  lemma IndexNamesUpper(idx: Index)
    ensures IsRegistered(IndexFunction(idx))
  {
  }

  /** One more listed function is kept exactly when it passes the filter. */
  lemma RegisteredSnoc(fs: seq<ModuleFunction>, f: ModuleFunction)
    ensures Registered(fs + [f]) == Registered(fs) + (if IsRegistered(f) then [f] else [])
  {
    var s := fs + [f];
    assert s[..|s| - 1] == fs;
  }

  lemma IndexFunctionsSnoc(idxs: seq<Index>)
    requires |idxs| > 0
    ensures IndexFunctions(idxs) == IndexFunctions(idxs[..|idxs| - 1]) + [IndexFunction(idxs[|idxs| - 1])]
  {
  }

  lemma {:induction false} RegisteredIndexFunctions(idxs: seq<Index>)
    ensures Registered(IndexFunctions(idxs)) == IndexFunctions(idxs)
    decreases |idxs|
  {
    if |idxs| > 0 {
      var init, last := idxs[..|idxs| - 1], idxs[|idxs| - 1];
      IndexFunctionsSnoc(idxs);
      RegisteredIndexFunctions(init);
      IndexNamesUpper(last);
      RegisteredSnoc(IndexFunctions(init), IndexFunction(last));
    }
  }

  lemma HelpersNotRegistered()
    ensures Registered(HELPERS) == []
  {
    forall k | 0 <= k < |HELPERS|
      ensures !IsRegistered(HELPERS[k])
    {
      HelpersNotRegisteredAt(k);
    }
    NoneRegistered(HELPERS);
  }

  /** The registry is exactly the index functions: every helper is filtered out. */
  lemma RegistryIsIndices()
    ensures Registered(MODULE_FUNCTIONS) == IndexFunctions(ALL_INDICES)
  {
    RegisteredAppend(IndexFunctions(ALL_INDICES), HELPERS);
    RegisteredIndexFunctions(ALL_INDICES);
    HelpersNotRegistered();
  }

  /** Every index appears in the registry. */
  lemma AllIndicesListed(idx: Index)
    ensures idx in ALL_INDICES
  {
  }

  /** `get_all_indices`: the module functions whose name starts with an uppercase letter. */
  method GetAllIndices() returns (idx: seq<ModuleFunction>)
    ensures idx == IndexFunctions(ALL_INDICES)
  {
    var functions := MODULE_FUNCTIONS;
    idx := [];
    var k := 0;
    while k < |functions|
      invariant 0 <= k <= |functions|
      invariant idx == Registered(functions[..k])
    {
      var name := FunctionName(functions[k]);
      if |name| > 0 && IsUpper(name[0]) {
        idx := idx + [functions[k]];
      }
      RegisteredPrefixStep(functions, k);
      k := k + 1;
    }
    assert functions[..k] == functions;
    RegistryIsIndices();
  }

  /** `get_all_index_names`: the names of the registered functions, each starting with an uppercase letter. */
  method GetAllIndexNames() returns (names: seq<string>)
    ensures |names| == |ALL_INDICES|
    ensures forall k :: 0 <= k < |names| ==> names[k] == IndexName(ALL_INDICES[k])
    ensures forall k :: 0 <= k < |names| ==> |names[k]| > 0 && IsUpper(names[k][0])
  {
    var fs := GetAllIndices();
    names := seq(|fs|, k requires 0 <= k < |fs| => FunctionName(fs[k]));
    forall k | 0 <= k < |names|
      ensures |names[k]| > 0 && IsUpper(names[k][0])
    {
      IndexNamesUpper(ALL_INDICES[k]);
    }
  }

  /**
   * `get_all_needed_bands`: the dependency table of every registered index.
   * The map is keyed by index, so a registered helper could not be a key;
   * none is registered (`RegistryIsIndices`).
   */
  method GetAllNeededBands() returns (needed: map<Index, seq<OpticalBand>>)
    ensures forall idx: Index :: idx in needed && needed[idx] == NeededBands(idx)
  {
    var functions := MODULE_FUNCTIONS;
    needed := map[];
    ghost var registered: seq<ModuleFunction> := [];
    var k := 0;
    while k < |functions|
      invariant 0 <= k <= |functions|
      invariant registered == Registered(functions[..k])
      invariant forall idx :: idx in needed <==> IndexFunction(idx) in registered
      invariant forall idx :: idx in needed ==> needed[idx] == NeededBands(idx)
    {
      var f := functions[k];
      var name := FunctionName(f);
      RegisteredPrefixStep(functions, k);
      if |name| > 0 && IsUpper(name[0]) {
        if f.IndexFunction? {
          needed := needed[f.idx := NeededBands(f.idx)];
        }
        registered := registered + [f];
      }
      k := k + 1;
    }
    assert functions[..k] == functions;
    forall idx: Index ensures idx in needed {
      EveryIndexRegistered(idx);
    }
  }

  lemma RegisteredPrefixStep(fs: seq<ModuleFunction>, k: nat)
    requires k < |fs|
    ensures Registered(fs[..k + 1]) == Registered(fs[..k]) + (if IsRegistered(fs[k]) then [fs[k]] else [])
  {
    assert fs[..k + 1] == fs[..k] + [fs[k]];
    RegisteredSnoc(fs[..k], fs[k]);
  }

  /** Every index function passes the registry's filter. */
  lemma EveryIndexRegistered(idx: Index)
    ensures IndexFunction(idx) in Registered(MODULE_FUNCTIONS)
  {
    RegistryIsIndices();
    AllIndicesListed(idx);
    var j :| 0 <= j < |ALL_INDICES| && ALL_INDICES[j] == idx;
    assert IndexFunctions(ALL_INDICES)[j] == IndexFunction(idx);
  }

  lemma HelpersNotRegisteredAt(k: nat)
    requires k < |HELPERS|
    ensures !IsRegistered(HELPERS[k])
  {
  }
}
