/**
 * Pixel values and boolean grids.
 *
 * A raster value is a real number or undefined (NaN).  Arithmetic
 * propagates undefined values, and division by zero yields an undefined
 * pixel instead of raising.  Infinities are not told apart: where numpy
 * gives +inf or -inf for a non-zero value over zero, the model gives NaN.
 * Grids are rows of pixels.
 */
module Rasters {

  datatype Num = Val(v: real) | NaN

  function Add(a: Num, b: Num): (r: Num)
    ensures r.Val? <==> a.Val? && b.Val?
  {
    if a.Val? && b.Val? then Val(a.v + b.v) else NaN
  }

  function Sub(a: Num, b: Num): (r: Num)
    ensures r.Val? <==> a.Val? && b.Val?
  {
    if a.Val? && b.Val? then Val(a.v - b.v) else NaN
  }

  function Mul(a: Num, b: Num): (r: Num)
    ensures r.Val? <==> a.Val? && b.Val?
  {
    if a.Val? && b.Val? then Val(a.v * b.v) else NaN
  }

  /** Scalar times pixel (`c * band`). */
  function Scale(c: real, a: Num): (r: Num)
    ensures r.Val? <==> a.Val?
  {
    if a.Val? then Val(c * a.v) else NaN
  }

  /** Division never raises: a zero denominator gives NaN (numpy gives NaN only for 0 / 0, and ±inf otherwise). */
  function Div(a: Num, b: Num): (r: Num)
    ensures r.Val? <==> a.Val? && b.Val? && b.v != 0.0
    ensures r.Val? ==> r.v * b.v == a.v
  {
    if a.Val? && b.Val? && b.v != 0.0 then Val(a.v / b.v) else NaN
  }

  function Neg(a: Num): (r: Num)
    ensures r.Val? <==> a.Val?
  {
    if a.Val? then Val(-a.v) else NaN
  }

  /** `x ** 2` */
  function Square(a: Num): (r: Num)
    ensures r.Val? ==> r.v >= 0.0
    ensures r.Val? <==> a.Val?
  {
    Mul(a, a)
  }

  /**
   * `np.sqrt(x)` and `x ** 0.5`, given the square root of non-negative reals
   * as `root`: a negative or undefined argument gives an undefined pixel.
   */
  function Sqrt(a: Num, root: real -> real): (r: Num)
    ensures r.Val? <==> a.Val? && a.v >= 0.0
  {
    if a.Val? && a.v >= 0.0 then Val(root(a.v)) else NaN
  }

  /** `c * band` over a whole grid. */
  function ScaleGrid(c: real, g: Grid<Num>): (r: Grid<Num>)
    ensures SameShape(r, g)
    ensures forall i, j :: 0 <= i < |r| && 0 <= j < |r[i]| ==> r[i][j] == Scale(c, g[i][j])
  {
    seq(|g|, i requires 0 <= i < |g| => seq(|g[i]|, j requires 0 <= j < |g[i]| => Scale(c, g[i][j])))
  }

  /** Multiplying by 1.0 changes nothing, undefined pixels included. */
  lemma ScaleGridOne(g: Grid<Num>)
    ensures ScaleGrid(1.0, g) == g
  {
    var r := ScaleGrid(1.0, g);
    forall i | 0 <= i < |g|
      ensures r[i] == g[i]
    {
      assert forall j :: 0 <= j < |g[i]| ==> r[i][j] == g[i][j];
    }
  }

  /** `x < c` on a pixel; comparisons with NaN are false. */
  predicate Less(a: Num, c: real)
  {
    a.Val? && a.v < c
  }

  // ---------------------------------------------------------------------
  // Boolean grids
  // ---------------------------------------------------------------------

  type Grid<T> = seq<seq<T>>

  predicate HasShape<T>(g: Grid<T>, h: nat, w: nat)
  {
    |g| == h && forall i :: 0 <= i < h ==> |g[i]| == w
  }

  predicate SameShape<S, T>(a: Grid<S>, b: Grid<T>)
  {
    |a| == |b| && forall i :: 0 <= i < |a| ==> |a[i]| == |b[i]|
  }

  /** Pixel-wise `a | b`. */
  function Or(a: Grid<bool>, b: Grid<bool>): (r: Grid<bool>)
    requires SameShape(a, b)
    ensures SameShape(r, a)
    ensures forall i, j :: 0 <= i < |r| && 0 <= j < |r[i]| ==> (r[i][j] <==> a[i][j] || b[i][j])
  {
    seq(|a|, i requires 0 <= i < |a| => seq(|a[i]|, j requires 0 <= j < |a[i]| => a[i][j] || b[i][j]))
  }

  /** An all-false grid of the given shape (`np.zeros(..., dtype=bool)`). */
  function AllFalse(h: nat, w: nat): (r: Grid<bool>)
    ensures HasShape(r, h, w)
    ensures forall i, j :: 0 <= i < h && 0 <= j < w ==> !r[i][j]
  {
    seq(h, i => seq(w, j => false))
  }

  // ---------------------------------------------------------------------
  // Bit flags
  // ---------------------------------------------------------------------

  function Pow2(k: nat): (p: nat)
    ensures p >= 1
  {
    if k == 0 then 1 else 2 * Pow2(k - 1)
  }

  /**
   * Bit `k` of an integer flag value, in two's complement for negative
   * values (Dafny's `%` is Euclidean, so the low bits come out right).
   */
  predicate BitSet(v: int, k: nat)
  {
    v % Pow2(k + 1) >= Pow2(k)
  }

  /** `read_bit_array(flags, k)`: the grid of pixels whose bit `k` is set. */
  function BitGrid(flags: Grid<int>, k: nat): (r: Grid<bool>)
    ensures SameShape(r, flags)
    ensures forall i, j :: 0 <= i < |r| && 0 <= j < |r[i]| ==> (r[i][j] <==> BitSet(flags[i][j], k))
  {
    seq(|flags|, i requires 0 <= i < |flags| =>
      seq(|flags[i]|, j requires 0 <= j < |flags[i]| => BitSet(flags[i][j], k)))
  }

  /** `read_bit_array(flags, ids)`: one decoded grid per bit id, in order. */
  function BitGrids(flags: Grid<int>, ids: seq<nat>): (r: seq<Grid<bool>>)
    ensures |r| == |ids|
    ensures forall n :: 0 <= n < |ids| ==> r[n] == BitGrid(flags, ids[n])
  {
    seq(|ids|, n requires 0 <= n < |ids| => BitGrid(flags, ids[n]))
  }

  predicate AllShaped(gs: seq<Grid<bool>>, h: nat, w: nat)
  {
    forall n :: 0 <= n < |gs| ==> HasShape(gs[n], h, w)
  }

  /** `functools.reduce(lambda x, y: x | y, grids)` */
  function ReduceOr(gs: seq<Grid<bool>>, h: nat, w: nat): (r: Grid<bool>)
    requires |gs| > 0 && AllShaped(gs, h, w)
    ensures HasShape(r, h, w)
    decreases |gs|
  {
    if |gs| == 1 then gs[0] else Or(ReduceOr(gs[..|gs| - 1], h, w), gs[|gs| - 1])
  }

  /** A pixel of the reduction is set exactly when it is set in one of the grids. */
  lemma {:induction false} ReduceOrAt(gs: seq<Grid<bool>>, h: nat, w: nat, i: nat, j: nat)
    requires |gs| > 0 && AllShaped(gs, h, w)
    requires i < h && j < w
    ensures ReduceOr(gs, h, w)[i][j] <==> exists n :: 0 <= n < |gs| && gs[n][i][j]
    decreases |gs|
  {
    if |gs| > 1 {
      var init := gs[..|gs| - 1];
      ReduceOrAt(init, h, w, i, j);
      if exists n :: 0 <= n < |init| && init[n][i][j] {
        var n :| 0 <= n < |init| && init[n][i][j];
        assert gs[n] == init[n];
      }
      if exists n :: 0 <= n < |gs| && gs[n][i][j] {
        var n :| 0 <= n < |gs| && gs[n][i][j];
        if n < |gs| - 1 {
          assert init[n] == gs[n];
        }
      }
    }
  }

  /** Every decoded grid has the shape of the flags. */
  lemma BitGridsShaped(flags: Grid<int>, h: nat, w: nat, ids: seq<nat>)
    requires HasShape(flags, h, w)
    ensures AllShaped(BitGrids(flags, ids), h, w)
  {
    var gs := BitGrids(flags, ids);
    forall n | 0 <= n < |gs|
      ensures HasShape(gs[n], h, w)
    {
      assert SameShape(gs[n], flags);
    }
  }

  /** The OR of the decoded bits: a pixel is set when any of the listed bits is set. */
  lemma BitConditionAt(flags: Grid<int>, h: nat, w: nat, ids: seq<nat>, i: nat, j: nat)
    requires HasShape(flags, h, w) && |ids| > 0
    requires i < h && j < w
    ensures AllShaped(BitGrids(flags, ids), h, w)
    ensures ReduceOr(BitGrids(flags, ids), h, w)[i][j] <==> exists n :: 0 <= n < |ids| && BitSet(flags[i][j], ids[n])
  {
    var gs := BitGrids(flags, ids);
    ReduceOrAt(gs, h, w, i, j);
    if exists n :: 0 <= n < |gs| && gs[n][i][j] {
      var n :| 0 <= n < |gs| && gs[n][i][j];
      assert BitSet(flags[i][j], ids[n]);
    }
    if exists n :: 0 <= n < |ids| && BitSet(flags[i][j], ids[n]) {
      var n :| 0 <= n < |ids| && BitSet(flags[i][j], ids[n]);
      assert gs[n][i][j];
    }
  }
}
