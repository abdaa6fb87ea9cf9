/**
 * The NumPy reductions the analysis routines use, over `real`:
 * `np.sum`, `np.mean`, `np.diff`, the slice `xs[1:]` and the sum of an
 * elementwise product.  An empty mean (NumPy's NaN) is `None`.
 */
module Numeric {
  import opened Wrappers

  /** No element is zero, so every element can divide. */
  predicate NonZero(u: seq<real>)
  {
    forall i :: 0 <= i < |u| ==> u[i] != 0.0
  }

  /** Sum of all elements (`np.sum` of a 1-D array). */
  function Sum(xs: seq<real>): real
  {
    if |xs| == 0 then 0.0 else xs[0] + Sum(xs[1..])
  }

  /** Sum of the elementwise product (`np.sum(a * b)` for equal lengths). */
  function Dot(a: seq<real>, b: seq<real>): real
    requires |a| == |b|
  {
    if |a| == 0 then 0.0 else a[0] * b[0] + Dot(a[1..], b[1..])
  }

  /** The sum of a[i] * b[i] for i from `from` on, written index by index. */
  function ProductSumFrom(a: seq<real>, b: seq<real>, from: nat): real
    requires |a| == |b|
    decreases |a| - from
  {
    if from >= |a| then 0.0 else a[from] * b[from] + ProductSumFrom(a, b, from + 1)
  }

  /** `Dot` of two suffixes is their index-by-index sum of products. */
  lemma {:induction false} DotIsProductSum(a: seq<real>, b: seq<real>, from: nat)
    requires |a| == |b| && from <= |a|
    ensures Dot(a[from..], b[from..]) == ProductSumFrom(a, b, from)
    decreases |a| - from
  {
    if from < |a| {
      assert a[from..][1..] == a[from + 1..] && b[from..][1..] == b[from + 1..];
      DotIsProductSum(a, b, from + 1);
    }
  }

  /** Successive differences (`np.diff`): one element fewer than `xs`. */
  function Diff(xs: seq<real>): (d: seq<real>)
    ensures |d| == if |xs| == 0 then 0 else |xs| - 1
    ensures forall i :: 0 <= i < |d| ==> d[i] == xs[i + 1] - xs[i]
  {
    if |xs| < 2 then [] else [xs[1] - xs[0]] + Diff(xs[1..])
  }

  /** The slice `xs[1:]`, which is empty for an empty sequence. */
  function Drop1(xs: seq<real>): (t: seq<real>)
    ensures |t| == if |xs| == 0 then 0 else |xs| - 1
    ensures forall i :: 0 <= i < |t| ==> t[i] == xs[i + 1]
  {
    if |xs| == 0 then [] else xs[1..]
  }

  /** Arithmetic mean (`np.mean`); `None` for an empty sequence, where NumPy gives NaN. */
  function Mean(xs: seq<real>): (m: Option<real>)
    ensures m.Some? <==> |xs| > 0
    ensures m.Some? ==> m.value * (|xs| as real) == Sum(xs)
  {
    if |xs| == 0 then None else Some(Sum(xs) / (|xs| as real))
  }

  /** A sequence of `n` copies of `c` sums to `n * c`. */
  lemma {:induction false} SumOfConstant(n: nat, c: real)
    ensures Sum(seq(n, _ => c)) == (n as real) * c
  {
    if n > 0 {
      assert seq(n, _ => c)[1..] == seq(n - 1, _ => c);
      SumOfConstant(n - 1, c);
    }
  }

  /** The mean of a constant sequence is that constant. */
  lemma MeanOfConstant(n: nat, c: real)
    requires n > 0
    ensures Mean(seq(n, _ => c)) == Some(c)
  {
    SumOfConstant(n, c);
    assert (n as real) * c / (n as real) == c;
  }

  /**
   * Telescoping: weighting every successive difference of `xs` by one adds
   * up to the distance from the first element to the last.
   */
  lemma {:induction false} Telescoping(xs: seq<real>)
    requires |xs| >= 1
    ensures Dot(seq(|xs| - 1, _ => 1.0), Diff(xs)) == xs[|xs| - 1] - xs[0]
  {
    if |xs| >= 2 {
      var ones := seq(|xs| - 1, _ => 1.0);
      assert ones[1..] == seq(|xs[1..]| - 1, _ => 1.0);
      assert Diff(xs)[1..] == Diff(xs[1..]);
      Telescoping(xs[1..]);
    }
  }
}
