/**
 * VOCLossLayer: the label blob holds `num` samples of `dim` binary labels,
 * and the data blob `num * dim` rows of (at least) `dim` values. Label `j` of
 * sample `i` is scored by the diagonal value at column `j` of data row
 * `i * dim + j`, the slot `(i * dim + j) * dim + j`. Each label contributes a
 * logistic term: the clamped sigmoid `p` of its value, the gradient
 * `(p - [label == 1]) / num / dim` at its slot, and the loss term `-log(p)`
 * for a positive label and `-log(1 - p)` otherwise. Every other slot of
 * bottom_diff stays zero, and the summed loss is divided by `num` only.
 *
 * The index arithmetic of the specification is written with `Mul`, a
 * product by repeated addition, so that the loop proofs only ever add;
 * `MulIsProduct` connects it to `*`, which the methods use as the layer does.
 */
module VocLoss {
  import opened LossCommon
  import opened MathFunctions

  /** The shape checks of SetUp: two bottom blobs, no top blob, one data row
      per label. */
  predicate SetUpOk(bottom: seq<Shape>, topCount: nat): (ok: bool)
    ensures ok ==> |bottom| == 2 && bottom[0].num == bottom[1].Count()
  {
    |bottom| == 2 && topCount == 0 &&
    bottom[0].num == bottom[1].num * bottom[1].channels &&
    bottom[1].height == 1 && bottom[1].width == 1
  }

  /** `a * b`, as `a` additions of `b`. */
  function Mul(a: nat, b: nat): nat {
    if a == 0 then 0 else Mul(a - 1, b) + b
  }

  lemma {:induction false} MulIsProduct(a: nat, b: nat)
    ensures Mul(a, b) == a * b
  {
    if a > 0 {
      MulIsProduct(a - 1, b);
      MulStep(a - 1, b);
    }
  }

  lemma {:induction false} MulOrdered(a: nat, b: nat, dim: nat)
    requires a <= b
    ensures Mul(a, dim) <= Mul(b, dim)
  {
    if a < b {
      MulOrdered(a, b - 1, dim);
    }
  }

  /** What Backward_cpu needs of its buffers: `num` samples of `dim` labels,
      and a data row of at least `dim` values for each of the `num * dim`
      labels. */
  predicate BatchOk(data: seq<real>, labels: seq<real>, num: nat, dim: nat) {
    num > 0 && Mul(num, dim) <= |labels| && Mul(Mul(num, dim), dim) <= |data|
  }

  /** The index `i * dim + j` of label `j` of sample `i`. */
  function Label(i: nat, j: nat, dim: nat): nat {
    Mul(i, dim) + j
  }

  /** The index `(i * dim + j) * dim + c` of column `c` of the data row of
      label `j` of sample `i`. */
  function Cell(i: nat, j: nat, c: nat, dim: nat): nat {
    Mul(Label(i, j, dim), dim) + c
  }

  /** The diagonal slot `(i * dim + j) * dim + j` that scores label `j` of
      sample `i`. */
  function Slot(i: nat, j: nat, dim: nat): nat {
    Cell(i, j, j, dim)
  }

  /** Every label of the batch and every column of its data row lie inside
      the buffers. */
  lemma CellBound(num: nat, dim: nat, i: nat, j: nat, c: nat)
    requires i < num && j < dim && c < dim
    ensures Label(i, j, dim) < Mul(num, dim)
    ensures Cell(i, j, c, dim) < Mul(Mul(num, dim), dim)
  {
    MulOrdered(i + 1, num, dim);
    MulOrdered(Label(i, j, dim) + 1, Mul(num, dim), dim);
  }

  lemma SlotBound(num: nat, dim: nat, i: nat, j: nat)
    requires i < num && j < dim
    ensures Label(i, j, dim) < Mul(num, dim)
    ensures Slot(i, j, dim) < Mul(Mul(num, dim), dim)
  {
    CellBound(num, dim, i, j, j);
  }

  /** A row and a column below `dim` are determined by their flat index. */
  lemma FlatUnique(a: nat, c: nat, b: nat, e: nat, dim: nat)
    requires c < dim && e < dim
    ensures Mul(a, dim) + c == Mul(b, dim) + e <==> a == b && c == e
  {
    if a < b {
      MulOrdered(a + 1, b, dim);
    } else if b < a {
      MulOrdered(b + 1, a, dim);
    }
  }

  /** Cell `(i, j, c)` lies in data row `i * dim + j`, at column `c`, and the
      label `i * dim + j` has class `j`. */
  lemma CellQuotient(i: nat, j: nat, c: nat, dim: nat)
    requires j < dim && c < dim
    ensures Cell(i, j, c, dim) / dim == Label(i, j, dim) && Cell(i, j, c, dim) % dim == c
    ensures Label(i, j, dim) % dim == j
  {
    MulIsProduct(i, dim);
    FlatIndex(i, j, i + 1, dim);
    MulIsProduct(Label(i, j, dim), dim);
    FlatIndex(Label(i, j, dim), c, Label(i, j, dim) + 1, dim);
  }

  /** An index below `n` rows of `dim` values is column `c` of row `a`. */
  lemma RowColumn(k: nat, n: nat, dim: nat) returns (a: nat, c: nat)
    requires dim > 0 && k < Mul(n, dim)
    ensures a < n && c < dim && k == Mul(a, dim) + c
  {
    MulIsProduct(n, dim);
    FlatSplit(k, n, dim);
    a, c := k / dim, k % dim;
    MulIsProduct(a, dim);
  }

  /** Every index of the batch's data rows is a cell. */
  lemma Coordinates(k: nat, num: nat, dim: nat) returns (i: nat, j: nat, c: nat)
    requires dim > 0 && k < Mul(Mul(num, dim), dim)
    ensures i < num && j < dim && c < dim && k == Cell(i, j, c, dim)
  {
    var a;
    a, c := RowColumn(k, Mul(num, dim), dim);
    i, j := RowColumn(a, num, dim);
  }

  /** The indices the layer computes are the label and its slot. */
  lemma SourceIndices(i: nat, j: nat, dim: nat)
    ensures i * dim + j == Label(i, j, dim)
    ensures (i * dim + j) * dim + j == Slot(i, j, dim)
  {
    MulIsProduct(i, dim);
    MulIsProduct(Label(i, j, dim), dim);
  }

  /** The value written at a label's slot, for data value `x` and label `y`. */
  function GradientEntry(exp: ExpFn, x: real, y: real, num: nat, dim: nat): real
    requires num > 0 && dim > 0
  {
    (Probability(exp, x) - Indicator(IsPositive(y))) / num as real / dim as real
  }

  /** The gradient Backward_cpu leaves in bottom_diff, in closed form: index
      `k` is in data row `k / dim` at column `k % dim`; it holds the entry of
      label `k / dim` when that is one of the `num * dim` labels and the column
      is the label's class `(k / dim) % dim`, and zero everywhere else. */
  function Gradient(data: seq<real>, labels: seq<real>, num: nat, dim: nat, exp: ExpFn): (g: seq<real>)
    requires BatchOk(data, labels, num, dim)
    ensures |g| == |data|
  {
    seq(|data|, k requires 0 <= k < |data| =>
      if dim > 0 && k / dim < Mul(num, dim) && k % dim == (k / dim) % dim
      then GradientEntry(exp, data[k], labels[k / dim], num, dim)
      else 0.0)
  }

  /** The argument Backward_cpu passes to `log` for the label `y` whose data
      value is `x`: the probability of the label's own class. */
  function LogArgument(exp: ExpFn, x: real, y: real): (a: real)
    ensures 0.0 < a < 1.0
  {
    var p := Probability(exp, x);
    if IsPositive(y) then p else 1.0 - p
  }

  /** `d` after the inner loop of sample `i` has written the entries of its
      first `j` labels. */
  function ScatterRow(data: seq<real>, labels: seq<real>, num: nat, dim: nat, exp: ExpFn,
                      d: seq<real>, i: nat, j: nat): (r: seq<real>)
    requires BatchOk(data, labels, num, dim) && i < num && j <= dim && |d| == |data|
    ensures |r| == |data|
  {
    if j == 0 then d
    else
      SlotBound(num, dim, i, j - 1);
      var p := Slot(i, j - 1, dim);
      ScatterRow(data, labels, num, dim, exp, d, i, j - 1)[
        p := GradientEntry(exp, data[p], labels[Label(i, j - 1, dim)], num, dim)]
  }

  /** bottom_diff after the zero fill and the first `i` samples. */
  function Scatter(data: seq<real>, labels: seq<real>, num: nat, dim: nat, exp: ExpFn, i: nat): (r: seq<real>)
    requires BatchOk(data, labels, num, dim) && i <= num
    ensures |r| == |data|
  {
    if i == 0 then Zeros(|data|)
    else ScatterRow(data, labels, num, dim, exp, Scatter(data, labels, num, dim, exp, i - 1), i - 1, dim)
  }

  /** The logarithm Backward_cpu subtracts from the loss for each label, one
      row of `dim` per sample: row `i`, column `j` is label `j` of sample
      `i`. */
  function LogTerms(data: seq<real>, labels: seq<real>, num: nat, dim: nat, exp: ExpFn, ln: LogFn): (t: seq<seq<real>>)
    requires BatchOk(data, labels, num, dim)
    ensures |t| == num
  {
    seq(num, i requires 0 <= i < num =>
      seq(dim, j requires 0 <= j < dim =>
        SlotBound(num, dim, i, j);
        ln(LogArgument(exp, data[Slot(i, j, dim)], labels[Label(i, j, dim)]))))
  }

  /** The sum of every value of every row. */
  function Total(rows: seq<seq<real>>): real {
    if |rows| == 0 then 0.0 else Total(rows[..|rows| - 1]) + Sum(rows[|rows| - 1])
  }

  lemma TotalPrefixStep(rows: seq<seq<real>>, i: nat)
    requires i < |rows|
    ensures Total(rows[..i + 1]) == Total(rows[..i]) + Sum(rows[i])
  {
    assert rows[..i + 1][..i] == rows[..i];
  }

  /** Rows whose sums are all non-positive have a non-positive total. */
  lemma {:induction false} TotalNonPositive(rows: seq<seq<real>>)
    requires forall i | 0 <= i < |rows| :: Sum(rows[i]) <= 0.0
    ensures Total(rows) <= 0.0
  {
    if |rows| > 0 {
      TotalNonPositive(rows[..|rows| - 1]);
    }
  }

  /** The value Backward_cpu returns. */
  function Loss(data: seq<real>, labels: seq<real>, num: nat, dim: nat, exp: ExpFn, ln: LogFn): real
    requires BatchOk(data, labels, num, dim)
  {
    -Total(LogTerms(data, labels, num, dim, exp, ln)) / num as real
  }

  /** Cell `(i, j, c)` of bottom_diff once the first `m` labels, in label
      order, are written: the entry of label `(i, j)` on its diagonal when
      that label is written, and zero otherwise. */
  ghost function Written(data: seq<real>, labels: seq<real>, num: nat, dim: nat, exp: ExpFn,
                         m: nat, i: nat, j: nat, c: nat): real
    requires BatchOk(data, labels, num, dim) && i < num && j < dim
  {
    SlotBound(num, dim, i, j);
    if Label(i, j, dim) < m && c == j
    then GradientEntry(exp, data[Slot(i, j, dim)], labels[Label(i, j, dim)], num, dim)
    else 0.0
  }

  /** Writing label `l` of sample `s` at its slot extends the written labels
      by one, at every cell `(i, j, c)`. */
  lemma RowStep(data: seq<real>, labels: seq<real>, num: nat, dim: nat, exp: ExpFn, d: seq<real>,
                s: nat, l: nat, i: nat, j: nat, c: nat)
    requires BatchOk(data, labels, num, dim) && s < num && l < dim && |d| == |data|
    requires i < num && j < dim && c < dim && Cell(i, j, c, dim) < |data|
    requires ScatterRow(data, labels, num, dim, exp, d, s, l)[Cell(i, j, c, dim)] ==
             Written(data, labels, num, dim, exp, Label(s, l, dim), i, j, c)
    ensures ScatterRow(data, labels, num, dim, exp, d, s, l + 1)[Cell(i, j, c, dim)] ==
            Written(data, labels, num, dim, exp, Label(s, l, dim) + 1, i, j, c)
  {
    FlatUnique(Label(i, j, dim), c, Label(s, l, dim), l, dim);
    FlatUnique(i, j, s, l, dim);
  }

  /** The inner loop over sample `s` writes its labels in order. */
  lemma {:induction false} RowWritten(data: seq<real>, labels: seq<real>, num: nat, dim: nat, exp: ExpFn,
                                      d: seq<real>, s: nat, l: nat, i: nat, j: nat, c: nat)
    requires BatchOk(data, labels, num, dim) && s < num && l <= dim && |d| == |data|
    requires i < num && j < dim && c < dim && Cell(i, j, c, dim) < |data|
    requires d[Cell(i, j, c, dim)] == Written(data, labels, num, dim, exp, Mul(s, dim), i, j, c)
    ensures ScatterRow(data, labels, num, dim, exp, d, s, l)[Cell(i, j, c, dim)] ==
            Written(data, labels, num, dim, exp, Label(s, l, dim), i, j, c)
  {
    if l > 0 {
      RowWritten(data, labels, num, dim, exp, d, s, l - 1, i, j, c);
      RowStep(data, labels, num, dim, exp, d, s, l - 1, i, j, c);
    }
  }

  /** The outer loop writes the labels of the first `s` samples. */
  lemma {:induction false} ScatterWritten(data: seq<real>, labels: seq<real>, num: nat, dim: nat, exp: ExpFn,
                                          s: nat, i: nat, j: nat, c: nat)
    requires BatchOk(data, labels, num, dim) && s <= num
    requires i < num && j < dim && c < dim && Cell(i, j, c, dim) < |data|
    ensures Scatter(data, labels, num, dim, exp, s)[Cell(i, j, c, dim)] ==
            Written(data, labels, num, dim, exp, Mul(s, dim), i, j, c)
  {
    if s > 0 {
      ScatterWritten(data, labels, num, dim, exp, s - 1, i, j, c);
      RowWritten(data, labels, num, dim, exp, Scatter(data, labels, num, dim, exp, s - 1), s - 1, dim, i, j, c);
    }
  }

  /** The inner loop writes nothing past the batch's data rows. */
  lemma {:induction false} RowUntouched(data: seq<real>, labels: seq<real>, num: nat, dim: nat, exp: ExpFn,
                                        d: seq<real>, s: nat, l: nat, k: nat)
    requires BatchOk(data, labels, num, dim) && s < num && l <= dim && |d| == |data|
    requires Mul(Mul(num, dim), dim) <= k < |data|
    ensures ScatterRow(data, labels, num, dim, exp, d, s, l)[k] == d[k]
  {
    if l > 0 {
      RowUntouched(data, labels, num, dim, exp, d, s, l - 1, k);
      SlotBound(num, dim, s, l - 1);
    }
  }

  /** Past the batch's data rows, bottom_diff stays zero. */
  lemma {:induction false} ScatterUntouched(data: seq<real>, labels: seq<real>, num: nat, dim: nat, exp: ExpFn,
                                            s: nat, k: nat)
    requires BatchOk(data, labels, num, dim) && s <= num
    requires Mul(Mul(num, dim), dim) <= k < |data|
    ensures Scatter(data, labels, num, dim, exp, s)[k] == 0.0
  {
    if s > 0 {
      ScatterUntouched(data, labels, num, dim, exp, s - 1, k);
      RowUntouched(data, labels, num, dim, exp, Scatter(data, labels, num, dim, exp, s - 1), s - 1, dim, k);
    }
  }

  /** The closed-form gradient at cell `(i, j, c)` is what writing every
      label leaves there. */
  lemma GradientAtCell(data: seq<real>, labels: seq<real>, num: nat, dim: nat, exp: ExpFn, i: nat, j: nat, c: nat)
    requires BatchOk(data, labels, num, dim) && i < num && j < dim && c < dim
    ensures Cell(i, j, c, dim) < |data|
    ensures Gradient(data, labels, num, dim, exp)[Cell(i, j, c, dim)] ==
            Written(data, labels, num, dim, exp, Mul(num, dim), i, j, c)
  {
    CellBound(num, dim, i, j, c);
    CellQuotient(i, j, c, dim);
  }

  /** The closed-form gradient is zero past the batch's data rows. */
  lemma GradientOutside(data: seq<real>, labels: seq<real>, num: nat, dim: nat, exp: ExpFn, k: nat)
    requires BatchOk(data, labels, num, dim) && k < |data|
    requires dim == 0 || Mul(Mul(num, dim), dim) <= k
    ensures Gradient(data, labels, num, dim, exp)[k] == 0.0
  {
    if dim > 0 {
      MulIsProduct(Mul(num, dim), dim);
      DivBelow(k, Mul(num, dim), dim);
    }
  }

  /** Writing every label's slot leaves exactly the gradient in bottom_diff:
      the loop misses no slot that is non-zero and writes nothing else. */
  lemma ScatterIsGradient(data: seq<real>, labels: seq<real>, num: nat, dim: nat, exp: ExpFn)
    requires BatchOk(data, labels, num, dim)
    ensures Scatter(data, labels, num, dim, exp, num) == Gradient(data, labels, num, dim, exp)
  {
    forall k | 0 <= k < |data|
      ensures Scatter(data, labels, num, dim, exp, num)[k] == Gradient(data, labels, num, dim, exp)[k]
    {
      if dim > 0 && k < Mul(Mul(num, dim), dim) {
        var i, j, c := Coordinates(k, num, dim);
        GradientAtCell(data, labels, num, dim, exp, i, j, c);
        ScatterWritten(data, labels, num, dim, exp, num, i, j, c);
      } else {
        MulIsProduct(Mul(num, dim), dim);
        GradientOutside(data, labels, num, dim, exp, k);
        ScatterUntouched(data, labels, num, dim, exp, num, k);
      }
    }
  }

  /** Label `j` of sample `i` is scored at `(i * dim + j) * dim + j`, the
      gradient there is the label's entry, and it is negative exactly when
      the label is positive. */
  lemma GradientAtSlot(data: seq<real>, labels: seq<real>, num: nat, dim: nat, exp: ExpFn, i: nat, j: nat)
    requires BatchOk(data, labels, num, dim) && i < num && j < dim
    ensures i * dim + j < |labels| && (i * dim + j) * dim + j < |data|
    ensures Gradient(data, labels, num, dim, exp)[(i * dim + j) * dim + j] ==
      GradientEntry(exp, data[(i * dim + j) * dim + j], labels[i * dim + j], num, dim)
    ensures Gradient(data, labels, num, dim, exp)[(i * dim + j) * dim + j] < 0.0 <==>
      IsPositive(labels[i * dim + j])
  {
    SourceIndices(i, j, dim);
    SlotBound(num, dim, i, j);
    GradientAtCell(data, labels, num, dim, exp, i, j, j);
    var p := Slot(i, j, dim);
    EntrySign(exp, data[p], labels[Label(i, j, dim)], num, dim);
  }

  /** A label's entry is negative exactly when the label is positive. */
  lemma EntrySign(exp: ExpFn, x: real, y: real, num: nat, dim: nat)
    requires num > 0 && dim > 0
    ensures GradientEntry(exp, x, y, num, dim) < 0.0 <==> IsPositive(y)
  {
    var d := Probability(exp, x) - Indicator(IsPositive(y));
    PositiveDivisors(d, num as real, dim as real);
  }

  /** Dividing by two positive numbers keeps the sign. */
  lemma PositiveDivisors(d: real, a: real, b: real)
    requires a > 0.0 && b > 0.0
    ensures d / a / b < 0.0 <==> d < 0.0
  {
    if d < 0.0 {
      assert d / a < 0.0;
    } else {
      assert d / a >= 0.0;
    }
  }

  /** Only the labels' slots carry a gradient: a non-zero entry is at the
      slot of some label `j` of some sample `i`. */
  lemma NonZeroOnlyAtSlots(data: seq<real>, labels: seq<real>, num: nat, dim: nat, exp: ExpFn, k: nat)
    requires BatchOk(data, labels, num, dim) && k < |data|
    ensures Gradient(data, labels, num, dim, exp)[k] != 0.0 ==>
      exists i: nat, j: nat | i < num && j < dim :: k == Slot(i, j, dim)
  {
    if dim > 0 && k < Mul(Mul(num, dim), dim) {
      var i, j, c := Coordinates(k, num, dim);
      GradientAtCell(data, labels, num, dim, exp, i, j, c);
      assert c == j ==> k == Slot(i, j, dim);
    } else {
      GradientOutside(data, labels, num, dim, exp, k);
    }
  }

  /** When `log` is non-positive on (0, 1), the loss is non-negative: every
      argument is a probability strictly between 0 and 1. */
  lemma LossNonNegative(data: seq<real>, labels: seq<real>, num: nat, dim: nat, exp: ExpFn, ln: LogFn)
    requires BatchOk(data, labels, num, dim)
    requires forall x: real | 0.0 < x < 1.0 :: ln(x) <= 0.0
    ensures Loss(data, labels, num, dim, exp, ln) >= 0.0
  {
    var rows := LogTerms(data, labels, num, dim, exp, ln);
    forall i | 0 <= i < num ensures Sum(rows[i]) <= 0.0 {
      RowNonPositive(data, labels, num, dim, exp, ln, i);
    }
    TotalNonPositive(rows);
    NegatedQuotient(Total(rows), num);
  }

  /** Each log term of sample `i` is the log of a probability, so its row sums
      to at most 0. */
  lemma RowNonPositive(data: seq<real>, labels: seq<real>, num: nat, dim: nat, exp: ExpFn, ln: LogFn, i: nat)
    requires BatchOk(data, labels, num, dim) && i < num
    requires forall x: real | 0.0 < x < 1.0 :: ln(x) <= 0.0
    ensures Sum(LogTerms(data, labels, num, dim, exp, ln)[i]) <= 0.0
  {
    var row := LogTerms(data, labels, num, dim, exp, ln)[i];
    forall j | 0 <= j < |row| ensures row[j] <= 0.0 {
      SlotBound(num, dim, i, j);
      var a := LogArgument(exp, data[Slot(i, j, dim)], labels[Label(i, j, dim)]);
      assert row[j] == ln(a);
    }
    SumNonPositive(row);
  }

  lemma NegatedQuotient(s: real, n: nat)
    requires s <= 0.0 && n > 0
    ensures -s / n as real >= 0.0
  {
  }

  /** The arithmetic of the inner loop for a label `y` with data value `x`:
      the value it writes is the label's gradient entry, and the argument it
      passes to `log` is the probability of the label's own class. */
  lemma EntryStep(exp: ExpFn, x: real, y: real, num: nat, dim: nat, g: real, arg: real)
    requires num > 0 && dim > 0
    requires g == (Clamp(Sigmoid(exp, x)) - Indicator(ToInt(y) == 1)) / num as real / dim as real
    requires arg == if ToInt(y) == 1 then Clamp(Sigmoid(exp, x)) else 1.0 - Clamp(Sigmoid(exp, x))
    ensures g == GradientEntry(exp, x, y, num, dim)
    ensures arg == LogArgument(exp, x, y)
  {
  }

  /** One iteration of the inner loop: label `j` of sample `i`. `start` is
      bottom_diff and `base` the loss when sample `i` began, and `rows` the
      log terms of the batch. */
  method WriteEntry(data: array<real>, labels: array<real>, diff: array<real>,
                    exp: ExpFn, ln: LogFn, num: nat, dim: nat, i: nat, j: nat, loss: real,
                    ghost start: seq<real>, ghost base: real, ghost rows: seq<seq<real>>)
    returns (loss': real)
    requires BatchOk(data[..], labels[..], num, dim) && i < num && j < dim
    requires diff.Length == data.Length && diff != data && diff != labels && |start| == data.Length
    requires rows == LogTerms(data[..], labels[..], num, dim, exp, ln)
    requires diff[..] == ScatterRow(data[..], labels[..], num, dim, exp, start, i, j)
    requires loss == base - Sum(rows[i][..j])
    modifies diff
    ensures diff[..] == ScatterRow(data[..], labels[..], num, dim, exp, start, i, j + 1)
    ensures loss' == base - Sum(rows[i][..j + 1])
  {
    ghost var d, l := data[..], labels[..];
    SlotBound(num, dim, i, j);
    var m := i * dim + j;
    var p := m * dim + j;
    SourceIndices(i, j, dim);
    var cls := ToInt(labels[m]);
    var prob := Clamp(Sigmoid(exp, data[p]));
    var g := (prob - Indicator(cls == 1)) / num as real / dim as real;
    var arg := if cls == 1 then prob else 1.0 - prob;
    EntryStep(exp, data[p], labels[m], num, dim, g, arg);
    assert data[p] == d[p] && labels[m] == l[m];
    SumPrefixStep(rows[i], j);
    ghost var before := diff[..];
    diff[p] := g;
    assert diff[..] == before[p := g];
    loss' := loss - ln(arg);
  }

  /** The inner loop of Backward_cpu for sample `i`. */
  method BackwardSample(data: array<real>, labels: array<real>, diff: array<real>,
                        exp: ExpFn, ln: LogFn, num: nat, dim: nat, i: nat, loss: real,
                        ghost rows: seq<seq<real>>)
    returns (loss': real)
    requires BatchOk(data[..], labels[..], num, dim) && i < num
    requires diff.Length == data.Length && diff != data && diff != labels
    requires rows == LogTerms(data[..], labels[..], num, dim, exp, ln)
    requires diff[..] == Scatter(data[..], labels[..], num, dim, exp, i)
    requires loss == -Total(rows[..i])
    modifies diff
    ensures diff[..] == Scatter(data[..], labels[..], num, dim, exp, i + 1)
    ensures loss' == -Total(rows[..i + 1])
  {
    ghost var start := diff[..];
    loss' := loss;
    for j := 0 to dim
      invariant diff[..] == ScatterRow(data[..], labels[..], num, dim, exp, start, i, j)
      invariant loss' == loss - Sum(rows[i][..j])
    {
      loss' := WriteEntry(data, labels, diff, exp, ln, num, dim, i, j, loss', start, loss, rows);
    }
    assert rows[i][..dim] == rows[i];
    TotalPrefixStep(rows, i);
  }

  /** The outer loop of Backward_cpu over the `num` samples, on a zeroed
      bottom_diff. */
  method BackwardBatch(data: array<real>, labels: array<real>, diff: array<real>,
                       exp: ExpFn, ln: LogFn, num: nat, dim: nat)
    returns (acc: real)
    requires BatchOk(data[..], labels[..], num, dim)
    requires diff.Length == data.Length && diff != data && diff != labels
    requires diff[..] == Zeros(diff.Length)
    modifies diff
    ensures diff[..] == Scatter(data[..], labels[..], num, dim, exp, num)
    ensures acc == -Total(LogTerms(data[..], labels[..], num, dim, exp, ln))
  {
    ghost var rows := LogTerms(data[..], labels[..], num, dim, exp, ln);
    acc := 0.0;
    for i := 0 to num
      invariant diff[..] == Scatter(data[..], labels[..], num, dim, exp, i)
      invariant acc == -Total(rows[..i])
    {
      acc := BackwardSample(data, labels, diff, exp, ln, num, dim, i, acc, rows);
    }
    assert rows[..num] == rows;
  }

  /** Backward_cpu: `num` and `dim` come from the label blob; zero
      bottom_diff, then write every label's slot while accumulating the loss,
      which is returned divided by `num`. */
  method Backward(dataShape: Shape, labelShape: Shape, data: array<real>, labels: array<real>,
                  diff: array<real>, exp: ExpFn, ln: LogFn) returns (loss: real)
    requires SetUpOk([dataShape, labelShape], 0) && labelShape.num > 0
    requires data.Length == dataShape.Count() && labels.Length == labelShape.Count()
    requires labelShape.Count() * labelShape.Dim() <= data.Length
    requires diff.Length == data.Length && diff != data && diff != labels
    modifies diff
    ensures BatchOk(data[..], labels[..], labelShape.num, labelShape.Dim())
    ensures diff[..] == Gradient(data[..], labels[..], labelShape.num, labelShape.Dim(), exp)
    ensures loss == Loss(data[..], labels[..], labelShape.num, labelShape.Dim(), exp, ln)
  {
    var num := labelShape.num;
    var dim := labels.Length / num;
    MulDivCancel(num, labelShape.Dim());
    MulIsProduct(num, dim);
    MulIsProduct(num * dim, dim);
    FillZero(diff);
    var acc := BackwardBatch(data, labels, diff, exp, ln, num, dim);
    loss := acc / num as real;
    ScatterIsGradient(data[..], labels[..], num, dim, exp);
  }
}
