/**
 * Tensor arithmetic over exact reals: the reductions (sum, mean), the clamping and the
 * normalisation the training code applies to whole tensors. A tensor of shape [T, N] is a
 * `seq<seq<real>>`; `Flatten` is its row-major flattening. Float rounding is not modelled.
 */
module Numerics {

  function Max(a: real, b: real): real { if a >= b then a else b }

  function Min(a: real, b: real): real { if a <= b then a else b }

  /** `torch.clamp(x, lo, hi)`: the lower bound is applied first, then the upper one. */
  function Clamp(x: real, lo: real, hi: real): (r: real)
    ensures lo <= hi ==> lo <= r <= hi
    ensures lo <= x <= hi ==> r == x
    ensures lo <= hi && x < lo ==> r == lo
    ensures lo <= hi && hi < x ==> r == hi
  {
    Min(Max(x, lo), hi)
  }

  function Sum(s: seq<real>): real
  {
    if |s| == 0 then 0.0 else s[0] + Sum(s[1..])
  }

  function SumInt(s: seq<int>): int
  {
    if |s| == 0 then 0 else s[0] + SumInt(s[1..])
  }

  /** `tensor.mean()`; the mean of an empty tensor is never used by the callers, 0 stands in for it. */
  function Mean(s: seq<real>): real
  {
    if |s| == 0 then 0.0 else Sum(s) / |s| as real
  }

  /** Row-major flattening of a [T, N] tensor (`flatten(0, 1)`). */
  function Flatten<X>(m: seq<seq<X>>): seq<X>
  {
    if |m| == 0 then [] else m[0] + Flatten(m[1..])
  }

  function SumSquares(s: seq<real>): (r: real)
    ensures r >= 0.0
  {
    if |s| == 0 then 0.0 else s[0] * s[0] + SumSquares(s[1..])
  }

  /**
   * The unbiased variance behind `tensor.std()`: squared deviations from the mean over
   * `n - 1`. For fewer than two entries torch yields NaN; 0 stands in for it here.
   */
  function SampleVariance(s: seq<real>): (r: real)
    ensures r >= 0.0
  {
    if |s| < 2 then 0.0 else SumSquares(Shift(s, Mean(s))) / (|s| - 1) as real
  }

  function Shift(s: seq<real>, c: real): (r: seq<real>)
    ensures |r| == |s|
  {
    seq(|s|, i requires 0 <= i < |s| => s[i] - c)
  }

  function Scale(s: seq<real>, d: real): (r: seq<real>)
    requires d != 0.0
    ensures |r| == |s|
  {
    seq(|s|, i requires 0 <= i < |s| => s[i] / d)
  }

  /** `(x - c) / d` entry by entry. */
  function Standardize(s: seq<real>, c: real, d: real): (r: seq<real>)
    requires d != 0.0
    ensures |r| == |s|
  {
    Scale(Shift(s, c), d)
  }

  /** `(m - m.mean()) / d` for a [T, N] tensor: the mean is taken over every entry. */
  function Normalized2(m: seq<seq<real>>, d: real): (r: seq<seq<real>>)
    requires d != 0.0
    ensures |r| == |m|
    ensures forall t :: 0 <= t < |m| ==> |r[t]| == |m[t]|
  {
    var c := Mean(Flatten(m));
    seq(|m|, t requires 0 <= t < |m| => Standardize(m[t], c, d))
  }

  lemma MulDistrib(c: real, v: real, x: real, y: real)
    requires v == x + y
    ensures c * v == c * x + c * y
  {
  }

  lemma DivDistrib(v: real, x: real, y: real, d: real)
    requires v == x + y && d != 0.0
    ensures v / d == x / d + y / d
  {
  }

  lemma MeanTimesCount(sum: real, n: real, mean: real)
    requires n > 0.0 && mean == sum / n
    ensures mean * n == sum
  {
  }

  lemma {:induction false} ShiftSum(s: seq<real>, c: real)
    ensures Sum(Shift(s, c)) == Sum(s) - c * |s| as real
  {
    if |s| > 0 {
      assert Shift(s, c)[1..] == Shift(s[1..], c);
      ShiftSum(s[1..], c);
      MulDistrib(c, |s| as real, (|s| - 1) as real, 1.0);
    }
  }

  lemma {:induction false} ScaleSum(s: seq<real>, d: real)
    requires d != 0.0
    ensures Sum(Scale(s, d)) == Sum(s) / d
  {
    if |s| > 0 {
      assert Scale(s, d)[1..] == Scale(s[1..], d);
      ScaleSum(s[1..], d);
      DivDistrib(Sum(s), s[0], Sum(s[1..]), d);
    }
  }

  lemma {:induction false} FlattenStandardize(m: seq<seq<real>>, c: real, d: real)
    requires d != 0.0
    ensures Flatten(seq(|m|, t requires 0 <= t < |m| => Standardize(m[t], c, d))) == Standardize(Flatten(m), c, d)
  {
    if |m| > 0 {
      var rows := seq(|m|, t requires 0 <= t < |m| => Standardize(m[t], c, d));
      assert rows[1..] == seq(|m[1..]|, t requires 0 <= t < |m[1..]| => Standardize(m[1..][t], c, d));
      FlattenStandardize(m[1..], c, d);
      assert Standardize(m[0] + Flatten(m[1..]), c, d)
          == Standardize(m[0], c, d) + Standardize(Flatten(m[1..]), c, d);
    }
  }

  /** Subtracting the mean leaves entries that sum to zero. */
  lemma ShiftByMeanSumZero(s: seq<real>)
    ensures Sum(Shift(s, Mean(s))) == 0.0
  {
    ShiftSum(s, Mean(s));
    if |s| > 0 {
      MeanTimesCount(Sum(s), |s| as real, Mean(s));
    }
  }

  /** Whatever the non-zero denominator, the normalised entries sum, hence average, to zero. */
  lemma NormalizedSumZero(m: seq<seq<real>>, d: real)
    requires d != 0.0
    ensures Sum(Flatten(Normalized2(m, d))) == 0.0
    ensures Mean(Flatten(Normalized2(m, d))) == 0.0
  {
    var f := Flatten(m);
    var c := Mean(f);
    var normalized := Flatten(Normalized2(m, d));
    assert Normalized2(m, d) == seq(|m|, t requires 0 <= t < |m| => Standardize(m[t], c, d));
    FlattenStandardize(m, c, d);
    assert normalized == Scale(Shift(f, c), d);
    ShiftByMeanSumZero(f);
    ScaleSum(Shift(f, c), d);
    ZeroOver(Sum(Shift(f, c)), d);
    assert Sum(normalized) == 0.0;
    if |normalized| > 0 {
      ZeroOver(Sum(normalized), |normalized| as real);
    }
  }

  lemma ZeroOver(x: real, d: real)
    requires x == 0.0 && d != 0.0
    ensures x / d == 0.0
  {
  }

  /** Flattening a tensor whose every row has `n` entries gives `|m| * n` entries. */
  lemma {:induction false} FlattenLength<X>(m: seq<seq<X>>, n: nat)
    requires forall t :: 0 <= t < |m| ==> |m[t]| == n
    ensures |Flatten(m)| == |m| * n
  {
    if |m| > 0 {
      FlattenLength(m[1..], n);
      RowsTimesWidth(|m|, n);
    }
  }

  /** Every entry of a flattening comes from one of the rows. */
  lemma {:induction false} FlattenMember<X>(m: seq<seq<X>>, x: X)
    requires x in Flatten(m)
    ensures exists t :: 0 <= t < |m| && x in m[t]
  {
    if x !in m[0] {
      FlattenMember(m[1..], x);
      var t :| 0 <= t < |m[1..]| && x in m[1..][t];
      assert x in m[t + 1];
    }
  }

  /** Where entry `e` of row `t` lands when rows of width `w` are flattened. */
  function RowMajor(t: nat, e: nat, w: nat): nat
  {
    t * w + e
  }

  /** Entry `RowMajor(t, e, w)` of the flattening is entry `e` of row `t`. */
  lemma {:induction false} FlattenIndex<X>(m: seq<seq<X>>, w: nat, t: nat, e: nat)
    requires forall k :: 0 <= k < |m| ==> |m[k]| == w
    requires t < |m| && e < w
    ensures RowMajor(t, e, w) < |Flatten(m)| && Flatten(m)[RowMajor(t, e, w)] == m[t][e]
  {
    FlattenLength(m, w);
    if t > 0 {
      FlattenIndex(m[1..], w, t - 1, e);
      RowsTimesWidth(t, w);
    }
  }

  lemma RowsTimesWidth(rows: nat, n: nat)
    requires rows > 0
    ensures rows * n == n + (rows - 1) * n
  {
  }
}
