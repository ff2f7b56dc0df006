/**
  Sums and dot products over sequences of reals, accumulated from the front
  to the back as the Go program's `+=` loops do.
 */
module Sums {

  function Sum(xs: seq<real>): real
  {
    if |xs| == 0 then 0.0 else Sum(xs[..|xs| - 1]) + xs[|xs| - 1]
  }

  function Dot(xs: seq<real>, ys: seq<real>): real
    requires |xs| == |ys|
  {
    if |xs| == 0 then 0.0
    else Dot(xs[..|xs| - 1], ys[..|ys| - 1]) + xs[|xs| - 1] * ys[|ys| - 1]
  }

  /** A sum of four terms, written out. */
  lemma SumOfFour(xs: seq<real>)
    requires |xs| == 4
    ensures Sum(xs) == xs[0] + xs[1] + xs[2] + xs[3]
  {
    assert Sum(xs) == Sum(xs[..3]) + xs[3];
    assert xs[..3][..2] == xs[..2];
    assert Sum(xs[..3]) == Sum(xs[..2]) + xs[2];
    assert xs[..2][..1] == xs[..1];
    assert Sum(xs[..2]) == Sum(xs[..1]) + xs[1];
    assert xs[..1][..0] == [];
    assert Sum(xs[..1]) == xs[0];
  }

  /** A dot product of two four-term vectors, written out. */
  lemma DotOfFour(xs: seq<real>, ys: seq<real>)
    requires |xs| == |ys| == 4
    ensures Dot(xs, ys) == xs[0] * ys[0] + xs[1] * ys[1] + xs[2] * ys[2] + xs[3] * ys[3]
  {
    assert Dot(xs, ys) == Dot(xs[..3], ys[..3]) + xs[3] * ys[3];
    assert xs[..3][..2] == xs[..2] && ys[..3][..2] == ys[..2];
    assert Dot(xs[..3], ys[..3]) == Dot(xs[..2], ys[..2]) + xs[2] * ys[2];
    assert xs[..2][..1] == xs[..1] && ys[..2][..1] == ys[..1];
    assert Dot(xs[..2], ys[..2]) == Dot(xs[..1], ys[..1]) + xs[1] * ys[1];
    assert xs[..1][..0] == [] && ys[..1][..0] == [];
    assert Dot(xs[..1], ys[..1]) == xs[0] * ys[0];
  }

  /** Bounds on the terms bound the sum. */
  lemma {:induction false} SumBounds(xs: seq<real>, lo: real, hi: real)
    requires forall i :: 0 <= i < |xs| ==> lo <= xs[i] <= hi
    ensures |xs| as real * lo <= Sum(xs) <= |xs| as real * hi
  {
    if |xs| > 0 {
      var n := |xs| - 1;
      SumBounds(xs[..n], lo, hi);
      assert |xs| as real * lo == n as real * lo + lo;
      assert |xs| as real * hi == n as real * hi + hi;
    }
  }

  /** A sum of non-negative terms is zero exactly when every term is. */
  lemma {:induction false} SumZeroIff(xs: seq<real>)
    requires forall i :: 0 <= i < |xs| ==> 0.0 <= xs[i]
    ensures 0.0 <= Sum(xs)
    ensures Sum(xs) == 0.0 <==> forall i :: 0 <= i < |xs| ==> xs[i] == 0.0
  {
    if |xs| > 0 {
      var n := |xs| - 1;
      SumZeroIff(xs[..n]);
      assert forall i :: 0 <= i < n ==> xs[..n][i] == xs[i];
    }
  }

  /** Dot product is additive in its second argument. */
  lemma {:induction false} DotAdditive(xs: seq<real>, ys: seq<real>, zs: seq<real>, ws: seq<real>)
    requires |xs| == |ys| == |zs| == |ws|
    requires forall i :: 0 <= i < |xs| ==> ws[i] == ys[i] + zs[i]
    ensures Dot(xs, ws) == Dot(xs, ys) + Dot(xs, zs)
  {
    if |xs| > 0 {
      var n := |xs| - 1;
      DotAdditive(xs[..n], ys[..n], zs[..n], ws[..n]);
      assert xs[n] * ws[n] == xs[n] * ys[n] + xs[n] * zs[n];
    }
  }

  /** Dot product is homogeneous in its second argument. */
  lemma {:induction false} DotHomogeneous(xs: seq<real>, ys: seq<real>, ws: seq<real>, k: real)
    requires |xs| == |ys| == |ws|
    requires forall i :: 0 <= i < |xs| ==> ws[i] == k * ys[i]
    ensures Dot(xs, ws) == k * Dot(xs, ys)
  {
    if |xs| > 0 {
      var n := |xs| - 1;
      DotHomogeneous(xs[..n], ys[..n], ws[..n], k);
      assert xs[n] * ws[n] == k * (xs[n] * ys[n]);
      assert k * Dot(xs, ys) == k * Dot(xs[..n], ys[..n]) + k * (xs[n] * ys[n]);
    }
  }

  /**
    With non-negative weights `xs` and entries of `ys` in [0, 1], the dot
    product lies between zero and the sum of the weights.
   */
  lemma {:induction false} DotWithinSum(xs: seq<real>, ys: seq<real>)
    requires |xs| == |ys|
    requires forall i :: 0 <= i < |xs| ==> 0.0 <= xs[i]
    requires forall i :: 0 <= i < |ys| ==> 0.0 <= ys[i] <= 1.0
    ensures 0.0 <= Dot(xs, ys) <= Sum(xs)
  {
    if |xs| > 0 {
      var n := |xs| - 1;
      DotWithinSum(xs[..n], ys[..n]);
      ProductWithinWeight(xs[n], ys[n]);
      assert Dot(xs, ys) == Dot(xs[..n], ys[..n]) + xs[n] * ys[n];
      assert xs[n] * ys[n] <= xs[n];
    }
  }

  lemma ProductWithinWeight(x: real, y: real)
    requires 0.0 <= x && 0.0 <= y <= 1.0
    ensures 0.0 <= x * y <= x
  {
  }

  /** The dot product with an all-ones vector is the sum of the weights. */
  lemma {:induction false} DotWithOnes(xs: seq<real>, ys: seq<real>)
    requires |xs| == |ys|
    requires forall i :: 0 <= i < |ys| ==> ys[i] == 1.0
    ensures Dot(xs, ys) == Sum(xs)
  {
    if |xs| > 0 {
      var n := |xs| - 1;
      DotWithOnes(xs[..n], ys[..n]);
    }
  }

  /** Dot product with non-negative entries on both sides is non-negative. */
  lemma {:induction false} DotNonNegative(xs: seq<real>, ys: seq<real>)
    requires |xs| == |ys|
    requires forall i :: 0 <= i < |xs| ==> 0.0 <= xs[i] && 0.0 <= ys[i]
    ensures 0.0 <= Dot(xs, ys)
  {
    if |xs| > 0 {
      var n := |xs| - 1;
      DotNonNegative(xs[..n], ys[..n]);
      assert 0.0 <= xs[n] * ys[n];
    }
  }
}
