/**
 * The buffer helpers the loss layers call (`memset`, `caffe_copy`, `caffe_sub`,
 * `caffe_cpu_dot`, `caffe_axpby`, `caffe_scal`, `caffe_cpu_asum`), each over a
 * whole buffer and specified by its effect on every element. Their bodies in
 * the library are not part of this model; the loops here only realise the
 * per-element effect.
 */
module MathFunctions {
  import opened LossCommon

  /** A buffer of `n` zeros. */
  function Zeros(n: nat): (z: seq<real>)
    ensures |z| == n && forall k | 0 <= k < n :: z[k] == 0.0
  {
    seq(n, _ => 0.0)
  }

  /** The element-wise products of two buffers of one length. */
  function Products(x: seq<real>, y: seq<real>): (p: seq<real>)
    requires |x| == |y|
    ensures |p| == |x| && forall k | 0 <= k < |x| :: p[k] == x[k] * y[k]
  {
    seq(|x|, k requires 0 <= k < |x| => x[k] * y[k])
  }

  /** Every element multiplied by `c`. */
  function Scaled(c: real, x: seq<real>): (y: seq<real>)
    ensures |y| == |x|
  {
    seq(|x|, k requires 0 <= k < |x| => c * x[k])
  }

  /** The dot product `sum_k x[k] * y[k]`. */
  function Dot(x: seq<real>, y: seq<real>): real
    requires |x| == |y|
  {
    Sum(Products(x, y))
  }

  /** A buffer's dot product with itself is non-negative, and zero exactly when
      every element is zero. */
  lemma DotSelf(x: seq<real>)
    ensures Dot(x, x) >= 0.0
    ensures Dot(x, x) == 0.0 <==> forall k | 0 <= k < |x| :: x[k] == 0.0
  {
    var p := Products(x, x);
    assert forall k | 0 <= k < |x| :: p[k] >= 0.0 && (p[k] == 0.0 <==> x[k] == 0.0) by {
      forall k | 0 <= k < |x| ensures p[k] >= 0.0 && (p[k] == 0.0 <==> x[k] == 0.0) {
        SquareNonNegative(x[k], p[k]);
      }
    }
    SumNonNegative(p);
  }

  /** A square is non-negative, and zero only for zero. */
  lemma SquareNonNegative(v: real, sq: real)
    requires sq == v * v
    ensures sq >= 0.0
    ensures sq == 0.0 ==> v == 0.0
  {
    if v != 0.0 {
      var t := sq / v;
      assert t == v;
      assert sq == t * v;
    }
  }

  /** `memset(a, 0, sizeof(Dtype) * count)`. */
  method FillZero(a: array<real>)
    modifies a
    ensures a[..] == Zeros(a.Length)
  {
    for k := 0 to a.Length
      invariant forall m | 0 <= m < k :: a[m] == 0.0
    {
      a[k] := 0.0;
    }
  }

  /** `caffe_copy(count, x, y)`: y := x. */
  method Copy(x: array<real>, y: array<real>)
    requires x.Length == y.Length && x != y
    modifies y
    ensures y[..] == x[..]
  {
    for k := 0 to y.Length
      invariant forall m | 0 <= m < k :: y[m] == x[m]
    {
      y[k] := x[k];
    }
  }

  /** `caffe_sub(count, a, b, y)`: y[k] := a[k] - b[k]. */
  method Subtract(a: array<real>, b: array<real>, y: array<real>)
    requires a.Length == b.Length == y.Length
    requires y != a && y != b
    modifies y
    ensures forall k | 0 <= k < y.Length :: y[k] == a[k] - b[k]
  {
    for k := 0 to y.Length
      invariant forall m | 0 <= m < k :: y[m] == a[m] - b[m]
    {
      y[k] := a[k] - b[k];
    }
  }

  /** `caffe_cpu_dot(count, x, y)`. */
  method CpuDot(x: array<real>, y: array<real>) returns (r: real)
    requires x.Length == y.Length
    ensures r == Dot(x[..], y[..])
  {
    ghost var p := Products(x[..], y[..]);
    r := 0.0;
    for k := 0 to x.Length
      invariant r == Sum(p[..k])
    {
      SumPrefixStep(p, k);
      r := r + x[k] * y[k];
    }
    assert p[..x.Length] == p;
  }

  /** `caffe_axpby(count, alpha, x, beta, y)`: y[k] := alpha * x[k] + beta * y[k]. */
  method Axpby(alpha: real, x: array<real>, beta: real, y: array<real>)
    requires x.Length == y.Length && x != y
    modifies y
    ensures forall k | 0 <= k < y.Length :: y[k] == alpha * x[k] + beta * old(y[k])
  {
    for k := 0 to y.Length
      invariant forall m | 0 <= m < k :: y[m] == alpha * x[m] + beta * old(y[m])
      invariant forall m | k <= m < y.Length :: y[m] == old(y[m])
    {
      y[k] := alpha * x[k] + beta * y[k];
    }
  }

  /** `caffe_scal(count, alpha, x)`: x[k] := alpha * x[k]. */
  method Scale(alpha: real, x: array<real>)
    modifies x
    ensures x[..] == Scaled(alpha, old(x[..]))
  {
    ghost var s := Scaled(alpha, x[..]);
    for k := 0 to x.Length
      invariant forall m | 0 <= m < k :: x[m] == s[m]
      invariant forall m | k <= m < x.Length :: x[m] == old(x[m])
    {
      x[k] := alpha * x[k];
    }
    assert x[..] == s;
  }

  /** `caffe_cpu_asum(count, x)`: the sum of absolute values. */
  method CpuAsum(x: array<real>) returns (r: real)
    ensures r == Sum(AbsAll(x[..]))
    ensures r >= 0.0
  {
    ghost var a := AbsAll(x[..]);
    r := 0.0;
    for k := 0 to x.Length
      invariant r == Sum(a[..k])
    {
      SumPrefixStep(a, k);
      r := r + Abs(x[k]);
    }
    assert a[..x.Length] == a;
    SumNonNegative(a);
  }
}
