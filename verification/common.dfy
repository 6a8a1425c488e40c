/**
 * Definitions shared by the loss layers of loss_layer.cpp: blob shapes, the
 * logarithm threshold kLOG_THRESHOLD, the integer cast applied to labels, the
 * logistic sigmoid, finite sums, and the row-major index arithmetic
 * `i * dim + j` that every layer uses to address its flat buffers.
 *
 * Arithmetic is over `real`. The library functions `log` and `exp` are not
 * interpreted: every operation that needs them takes them as parameters whose
 * types say only what the model relies on (log is defined on the positive
 * reals, exp is positive).
 */
module LossCommon {

  /** kLOG_THRESHOLD: the floor applied to a probability before it is passed to
      `log` or used as a divisor. */
  const LogThreshold: real := 1e-20

  /** The natural logarithm, defined (at least) on every positive real. A call
      `ln(x)` in the model is only well formed where `x > 0` has been proved. */
  type LogFn = f: real --> real | forall x {:trigger f.requires(x)} :: x > 0.0 ==> f.requires(x)
    witness Zero

  /** A function defined exactly on the positive reals, which shows `LogFn`
      is inhabited. */
  function Zero(x: real): real
    requires x > 0.0
  {
    0.0
  }

  /** The exponential function, which is positive everywhere. */
  type ExpFn = f: real -> real | forall x {:trigger f(x)} :: f(x) > 0.0
    witness One

  /** The constant function 1, a positive function that shows `ExpFn` is
      inhabited. */
  function One(x: real): real {
    1.0
  }

  /** The shape of a blob: (num, channels, height, width), stored row-major. */
  datatype Shape = Shape(num: nat, channels: nat, height: nat, width: nat) {
    /** Blob::count(): the number of stored elements. */
    function Count(): nat {
      num * channels * height * width
    }

    /** `count() / num()`: the number of elements per sample, as every layer
        computes it. */
    function Dim(): (d: nat)
      requires num > 0
      ensures Count() == num * d
      ensures d == channels * height * width
    {
      assert Count() == num * (channels * height * width);
      MulDivCancel(num, channels * height * width);
      Count() / num
    }
  }

  /** `std::max(p, (Dtype)kLOG_THRESHOLD)`: the probability floored at the
      threshold. */
  function Clamp(p: real): (r: real)
    ensures LogThreshold <= r && p <= r
    ensures r == p || r == LogThreshold
  {
    if p < LogThreshold then LogThreshold else p
  }

  /** `static_cast<int>` of a real: truncation toward zero. */
  function ToInt(x: real): (r: int)
    ensures 0.0 <= x ==> 0 <= r && r as real <= x < r as real + 1.0
    ensures x < 0.0 ==> r <= 0 && r as real - 1.0 < x <= r as real
  {
    if x >= 0.0 then x.Floor else -((-x).Floor)
  }

  /** A C++ `bool` used as a number: 1 for true, 0 for false. */
  function Indicator(b: bool): real {
    if b then 1.0 else 0.0
  }

  /** `static_cast<int>(label) == 1`, the positive-label test of the
      multi-label and VOC layers. */
  predicate IsPositive(y: real) {
    ToInt(y) == 1
  }

  /** `1 / (1 + exp(-x))`, the logistic sigmoid. */
  function Sigmoid(exp: ExpFn, x: real): (r: real)
    ensures 0.0 < r < 1.0
  {
    1.0 / (1.0 + exp(-x))
  }

  /** The clamped sigmoid used as a probability by the two multi-label
      variants: `max(1 / (1 + exp(-x)), kLOG_THRESHOLD)`. It never reaches 1. */
  function Probability(exp: ExpFn, x: real): (p: real)
    ensures LogThreshold <= p < 1.0
  {
    Clamp(Sigmoid(exp, x))
  }

  /** Every one of the first `num` labels, cast to an integer, is a class index
      below `dim`. The code reads `bottom_data[i * dim + label]` without
      checking this. */
  predicate ClassLabelsOk(labels: seq<real>, num: nat, dim: nat) {
    num <= |labels| && forall i | 0 <= i < num :: 0 <= ToInt(labels[i]) < dim
  }

  /** Left-to-right sum, in the order the source's loops accumulate. */
  function Sum(s: seq<real>): real {
    if |s| == 0 then 0.0 else Sum(s[..|s| - 1]) + s[|s| - 1]
  }

  function Abs(x: real): real {
    if x < 0.0 then -x else x
  }

  /** The element-wise absolute values of `s`. */
  function AbsAll(s: seq<real>): (r: seq<real>)
    ensures |r| == |s|
    ensures forall k | 0 <= k < |s| :: r[k] >= 0.0 && (r[k] == s[k] || r[k] == -s[k])
  {
    seq(|s|, k requires 0 <= k < |s| => Abs(s[k]))
  }

  // ---------------------------------------------------------------------------
  // Sums

  /** Extending the summed prefix by one element adds that element: the step
      of every accumulation loop. */
  lemma SumPrefixStep(s: seq<real>, i: nat)
    requires i < |s|
    ensures Sum(s[..i + 1]) == Sum(s[..i]) + s[i]
  {
    assert s[..i + 1][..i] == s[..i];
  }

  lemma {:induction false} SumConcat(a: seq<real>, b: seq<real>)
    ensures Sum(a + b) == Sum(a) + Sum(b)
    decreases |b|
  {
    if |b| == 0 {
      assert a + b == a;
    } else {
      var b' := b[..|b| - 1];
      assert (a + b)[..|a + b| - 1] == a + b';
      SumConcat(a, b');
    }
  }

  /** A sum of non-negative terms is non-negative, and it is zero only when
      every term is. */
  lemma {:induction false} SumNonNegative(s: seq<real>)
    requires forall k | 0 <= k < |s| :: s[k] >= 0.0
    ensures Sum(s) >= 0.0
    ensures Sum(s) == 0.0 <==> forall k | 0 <= k < |s| :: s[k] == 0.0
  {
    if |s| > 0 {
      var s' := s[..|s| - 1];
      SumNonNegative(s');
      if Sum(s) == 0.0 {
        forall k | 0 <= k < |s| ensures s[k] == 0.0 {
          if k < |s| - 1 { assert s[k] == s'[k]; }
        }
      }
    }
  }

  lemma {:induction false} SumNonPositive(s: seq<real>)
    requires forall k | 0 <= k < |s| :: s[k] <= 0.0
    ensures Sum(s) <= 0.0
  {
    if |s| > 0 {
      SumNonPositive(s[..|s| - 1]);
    }
  }

  /** A sum whose terms are all zero except the one at `l` equals that term. */
  lemma {:induction false} SumSingleTerm(s: seq<real>, l: nat)
    requires l < |s|
    requires forall k | 0 <= k < |s| && k != l :: s[k] == 0.0
    ensures Sum(s) == s[l]
  {
    var s' := s[..|s| - 1];
    if l == |s| - 1 {
      SumNonNegative(s');
    } else {
      SumSingleTerm(s', l);
    }
  }

  /** Scaling every term scales the sum. */
  lemma {:induction false} SumScaled(s: seq<real>, t: seq<real>, c: real)
    requires |t| == |s|
    requires forall k | 0 <= k < |s| :: t[k] == c * s[k]
    ensures Sum(t) == c * Sum(s)
  {
    if |s| > 0 {
      SumScaled(s[..|s| - 1], t[..|t| - 1], c);
    }
  }

  /** A block `s[lo..lo + len]` that is zero except at offset `c` adds exactly
      `s[lo + c]` to the prefix sum. */
  lemma SumBlockSingle(s: seq<real>, lo: nat, len: nat, c: nat)
    requires lo + len <= |s| && c < len
    requires forall k | lo <= k < lo + len && k != lo + c :: s[k] == 0.0
    ensures Sum(s[..lo + len]) == Sum(s[..lo]) + s[lo + c]
  {
    var block := s[lo..lo + len];
    assert s[..lo + len] == s[..lo] + block;
    SumConcat(s[..lo], block);
    forall m | 0 <= m < |block| && m != c ensures block[m] == 0.0 {
      assert block[m] == s[lo + m];
    }
    SumSingleTerm(block, c);
  }

  /** Row `i`, column `c` of the flat buffer `t` holds `u[i]` when `c` is the
      row's chosen column `cols[i]`, and zero otherwise. */
  ghost predicate SparseEntry(t: seq<real>, u: seq<real>, cols: seq<int>, dim: nat, i: nat, c: nat) {
    i < |u| && i < |cols| && i * dim + c < |t| &&
    t[i * dim + c] == if c == cols[i] then u[i] else 0.0
  }

  /** When each of the first `n` rows of `t` holds a single non-zero entry
      `u[i]` at column `cols[i]`, those rows sum to the first `n` entries of `u`. */
  lemma {:induction false} SumSparseRows(t: seq<real>, u: seq<real>, cols: seq<int>, dim: nat, n: nat)
    requires n <= |cols| && forall i | 0 <= i < n :: 0 <= cols[i] < dim
    requires forall i: nat, c: nat | i < n && c < dim :: SparseEntry(t, u, cols, dim, i, c)
    ensures n <= |u| && n * dim <= |t|
    ensures Sum(t[..n * dim]) == Sum(u[..n])
  {
    if n > 0 {
      var i := n - 1;
      SumSparseRows(t, u, cols, dim, i);
      var lo, col := i * dim, cols[i];
      MulStep(i, dim);
      assert SparseEntry(t, u, cols, dim, i, col);
      assert SparseEntry(t, u, cols, dim, i, dim - 1);
      forall k | lo <= k < lo + dim && k != lo + col ensures t[k] == 0.0 {
        assert SparseEntry(t, u, cols, dim, i, k - lo);
      }
      SumBlockSingle(t, lo, dim, col);
      SumPrefixStep(u, i);
    }
  }

  // ---------------------------------------------------------------------------
  // Filling a zeroed buffer row by row

  /** `d` agrees with `g` on every row (of `dim` elements) below `rows` and is
      zero everywhere else: the state of a zero-filled gradient buffer after
      the loop has written `rows` rows. With `dim == 0` there are no rows and
      the buffer stays zero. */
  ghost predicate RowsWritten(d: seq<real>, g: seq<real>, rows: nat, dim: nat) {
    |d| == |g| && forall k | 0 <= k < |d| :: d[k] == if dim > 0 && k / dim < rows then g[k] else 0.0
  }

  /** Writing the one slot `p` of row `rows` that `g` does not hold at zero
      completes that row. */
  lemma RowWrite(before: seq<real>, g: seq<real>, rows: nat, dim: nat, p: nat)
    requires dim > 0 && RowsWritten(before, g, rows, dim)
    requires p < |before| && p / dim == rows
    requires forall k | 0 <= k < |g| && k / dim == rows && k != p :: g[k] == 0.0
    ensures RowsWritten(before[p := g[p]], g, rows + 1, dim)
  {
  }

  /** A zero-filled buffer has written no row yet. */
  lemma NoRowsWritten(d: seq<real>, g: seq<real>, dim: nat)
    requires |d| == |g|
    requires forall k | 0 <= k < |d| :: d[k] == 0.0
    ensures RowsWritten(d, g, 0, dim)
  {
  }

  /** Once every row that `g` does not hold at zero is written, the buffer is
      `g`. */
  lemma AllRowsWritten(d: seq<real>, g: seq<real>, rows: nat, dim: nat)
    requires RowsWritten(d, g, rows, dim)
    requires forall k | 0 <= k < |g| && !(dim > 0 && k / dim < rows) :: g[k] == 0.0
    ensures d == g
  {
  }

  /** `g` on the first `n` positions and `d` on the rest: the state of a
      buffer `d` that a loop overwrites front to back with `g`. */
  function Overwrite(d: seq<real>, g: seq<real>, n: nat): (r: seq<real>)
    requires |d| == |g| && n <= |g|
    ensures |r| == |d|
  {
    g[..n] + d[n..]
  }

  /** Position `n` still holds `d[n]`, and writing `g[n]` there extends the
      overwritten prefix. */
  lemma OverwriteStep(d: seq<real>, g: seq<real>, n: nat)
    requires |d| == |g| && n < |g|
    ensures Overwrite(d, g, n)[n] == d[n]
    ensures Overwrite(d, g, n)[n := g[n]] == Overwrite(d, g, n + 1)
  {
    assert Overwrite(d, g, n)[n] == d[n..][0];
    var r, r' := Overwrite(d, g, n)[n := g[n]], Overwrite(d, g, n + 1);
    forall k | 0 <= k < |r| ensures r[k] == r'[k] {
      if k < n {
        assert r[k] == g[..n][k];
      } else if n < k {
        assert r[k] == d[n..][k - n];
        assert r'[k] == d[n + 1..][k - n - 1];
      }
    }
  }

  /** Before the loop nothing is overwritten, and after it everything is. */
  lemma OverwriteEnds(d: seq<real>, g: seq<real>)
    requires |d| == |g|
    ensures Overwrite(d, g, 0) == d
    ensures Overwrite(d, g, |g|) == g
  {
    assert g[..0] + d[0..] == d;
    assert g[..|g|] + d[|g|..] == g;
  }

  // ---------------------------------------------------------------------------
  // Row-major index arithmetic

  lemma {:induction false} MulStep(a: int, d: int)
    ensures (a + 1) * d == a * d + d
  {
  }

  lemma {:induction false} MulMonotone(a: nat, b: nat, d: nat)
    requires a <= b
    ensures a * d <= b * d
    decreases b - a
  {
    if a < b {
      MulMonotone(a, b - 1, d);
      MulStep(b - 1, d);
    }
  }

  /** The flat index `i * dim + j` of row `i`, column `j` is in range and
      decomposes back into `i` and `j`. */
  lemma FlatIndex(i: nat, j: nat, num: nat, dim: nat)
    requires i < num && j < dim
    ensures 0 <= i * dim && i * dim + j < num * dim
    ensures (i * dim + j) / dim == i && (i * dim + j) % dim == j
  {
    MulMonotone(i + 1, num, dim);
    MulStep(i, dim);
    var x := i * dim + j;
    var q, r := x / dim, x % dim;
    assert x == q * dim + r;
    if q > i {
      MulMonotone(i + 1, q, dim);
      MulStep(i, dim);
      assert false;
    }
    if q < i {
      MulMonotone(q + 1, i, dim);
      MulStep(q, dim);
      assert false;
    }
  }

  /** Every flat index below `num * dim` is `row * dim + column` for a row below
      `num` and a column below `dim`. */
  lemma FlatSplit(k: nat, num: nat, dim: nat)
    requires k < num * dim
    ensures dim > 0
    ensures k / dim < num && k % dim < dim
    ensures k == (k / dim) * dim + k % dim
  {
    DivBelow(k, num, dim);
  }

  /** Every flat index below `num * dim` lies in a row below `num`. */
  lemma RowsOfFlat(num: nat, dim: nat)
    ensures forall k: nat | k < num * dim :: dim > 0 && k / dim < num
  {
    forall k: nat | k < num * dim ensures dim > 0 && k / dim < num {
      FlatSplit(k, num, dim);
    }
  }

  /** The true-class slot of every sample lies inside the batch. */
  lemma ClassSlots(labels: seq<real>, num: nat, dim: nat)
    requires ClassLabelsOk(labels, num, dim)
    ensures forall i | 0 <= i < num :: i * dim + ToInt(labels[i]) < num * dim
  {
    forall i | 0 <= i < num ensures i * dim + ToInt(labels[i]) < num * dim {
      FlatIndex(i, ToInt(labels[i]), num, dim);
    }
  }

  /** The row of `k` is below `n` exactly when `k` is below `n * dim`. */
  lemma DivBelow(k: nat, n: nat, dim: nat)
    requires dim > 0
    ensures k == (k / dim) * dim + k % dim
    ensures k / dim < n <==> k < n * dim
  {
    var q := k / dim;
    assert k == q * dim + k % dim;
    if q < n {
      MulMonotone(q + 1, n, dim);
      MulStep(q, dim);
    } else {
      MulMonotone(n, q, dim);
    }
  }

  lemma MulDivCancel(n: nat, d: nat)
    requires n > 0
    ensures (n * d) / n == d
  {
    FlatIndex(d, 0, d + 1, n);
    assert d * n == n * d;
  }
}
