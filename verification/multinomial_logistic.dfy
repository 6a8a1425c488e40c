/**
 * MultinomialLogisticLossLayer: each sample holds a probability per class and
 * its label names the true class. The loss is the batch mean of
 * `-log(max(p_true, kLOG_THRESHOLD))`; the gradient is zero everywhere except at
 * each sample's true-class slot.
 */
module MultinomialLogisticLoss {
  import opened LossCommon
  import opened MathFunctions

  /** The shape checks of SetUp: two bottom blobs, no top blob, one label per
      sample. */
  predicate SetUpOk(bottom: seq<Shape>, topCount: nat): (ok: bool)
    ensures ok ==> |bottom| == 2 && bottom[1].Count() == bottom[0].num
  {
    |bottom| == 2 && topCount == 0 &&
    bottom[0].num == bottom[1].num &&
    bottom[1].channels == 1 && bottom[1].height == 1 && bottom[1].width == 1
  }

  /** The requirements Backward_cpu places on its batch: `num` samples of `dim`
      values each, with a class index below `dim` for every sample. */
  predicate BatchOk(data: seq<real>, labels: seq<real>, num: nat, dim: nat) {
    num > 0 && |data| == num * dim && ClassLabelsOk(labels, num, dim)
  }

  /** The gradient Backward_cpu leaves in bottom_diff. */
  function Gradient(data: seq<real>, labels: seq<real>, num: nat, dim: nat): (g: seq<real>)
    requires BatchOk(data, labels, num, dim)
    ensures |g| == |data|
  {
    RowsOfFlat(num, dim);
    seq(|data|, k requires 0 <= k < |data| && dim > 0 && k / dim < num =>
      if k % dim == ToInt(labels[k / dim]) then -1.0 / Clamp(data[k]) / num as real else 0.0)
  }

  /** `log(max(p_true, kLOG_THRESHOLD))` for each sample. */
  function LogTerms(data: seq<real>, labels: seq<real>, num: nat, dim: nat, ln: LogFn): (t: seq<real>)
    requires BatchOk(data, labels, num, dim)
    ensures |t| == num
  {
    ClassSlots(labels, num, dim);
    seq(num, i requires 0 <= i < num && i * dim + ToInt(labels[i]) < |data| =>
      ln(Clamp(data[i * dim + ToInt(labels[i])])))
  }

  /** The value Backward_cpu returns. */
  function Loss(data: seq<real>, labels: seq<real>, num: nat, dim: nat, ln: LogFn): real
    requires BatchOk(data, labels, num, dim)
  {
    -Sum(LogTerms(data, labels, num, dim, ln)) / num as real
  }

  /** Row `i`, column `j` of the gradient: `-1 / max(p, 1e-20) / num` at the
      true class, zero elsewhere. */
  lemma GradientAt(data: seq<real>, labels: seq<real>, num: nat, dim: nat, i: nat, j: nat)
    requires BatchOk(data, labels, num, dim)
    requires i < num && j < dim
    ensures i * dim + j < |data|
    ensures Gradient(data, labels, num, dim)[i * dim + j] ==
      if j == ToInt(labels[i]) then -1.0 / Clamp(data[i * dim + j]) / num as real else 0.0
  {
    FlatIndex(i, j, num, dim);
  }

  /** Row `i` of the gradient is zero except at the true-class slot, which
      holds `-1 / max(p, 1e-20) / num`. */
  lemma GradientRow(data: seq<real>, labels: seq<real>, num: nat, dim: nat, i: nat)
    requires BatchOk(data, labels, num, dim)
    requires i < num
    ensures 0 <= i * dim + ToInt(labels[i]) < |data|
    ensures (i * dim + ToInt(labels[i])) / dim == i
    ensures Gradient(data, labels, num, dim)[i * dim + ToInt(labels[i])] ==
      -1.0 / Clamp(data[i * dim + ToInt(labels[i])]) / num as real
    ensures forall k | 0 <= k < |data| && k / dim == i && k != i * dim + ToInt(labels[i]) ::
      Gradient(data, labels, num, dim)[k] == 0.0
  {
    var cls := ToInt(labels[i]);
    FlatIndex(i, cls, num, dim);
    forall k | 0 <= k < |data| && k / dim == i && k != i * dim + cls
      ensures Gradient(data, labels, num, dim)[k] == 0.0
    {
      FlatSplit(k, num, dim);
    }
  }

  /** Every gradient entry is non-positive, and it is non-zero exactly at a
      true-class slot: one entry per sample. */
  lemma GradientSupport(data: seq<real>, labels: seq<real>, num: nat, dim: nat, k: nat)
    requires BatchOk(data, labels, num, dim)
    requires k < |data|
    ensures dim > 0 && k / dim < num
    ensures Gradient(data, labels, num, dim)[k] <= 0.0
    ensures Gradient(data, labels, num, dim)[k] < 0.0 <==> k % dim == ToInt(labels[k / dim])
  {
    FlatSplit(k, num, dim);
    var c := Clamp(data[k]);
    assert -1.0 / c < 0.0;
    assert -1.0 / c / num as real < 0.0;
  }

  /** When every value is a probability (at most 1) and log is non-positive on
      (0, 1], the loss is non-negative. */
  lemma LossNonNegative(data: seq<real>, labels: seq<real>, num: nat, dim: nat, ln: LogFn)
    requires BatchOk(data, labels, num, dim)
    requires forall k | 0 <= k < |data| :: data[k] <= 1.0
    requires forall x: real | 0.0 < x <= 1.0 :: ln(x) <= 0.0
    ensures Loss(data, labels, num, dim, ln) >= 0.0
  {
    var t := LogTerms(data, labels, num, dim, ln);
    forall i | 0 <= i < num ensures t[i] <= 0.0 {
      FlatIndex(i, ToInt(labels[i]), num, dim);
    }
    SumNonPositive(t);
  }

  /** When every true-class probability is exactly 1 (and log 1 = 0), the loss
      is zero. */
  lemma LossZeroWhenCertain(data: seq<real>, labels: seq<real>, num: nat, dim: nat, ln: LogFn)
    requires BatchOk(data, labels, num, dim)
    requires forall i | 0 <= i < num :: i * dim + ToInt(labels[i]) < |data| && data[i * dim + ToInt(labels[i])] == 1.0
    requires ln(1.0) == 0.0
    ensures Loss(data, labels, num, dim, ln) == 0.0
  {
    var t := LogTerms(data, labels, num, dim, ln);
    forall i | 0 <= i < num ensures t[i] == 0.0 {
      FlatIndex(i, ToInt(labels[i]), num, dim);
    }
    SumNonPositive(t);
    SumNonNegative(t);
  }

  /** One iteration of Backward_cpu's loop: writing `-1 / prob / num` into
      sample `i`'s true-class slot `p` completes row `i` of the gradient, and
      subtracting `log(prob)` extends the accumulated loss by one sample. */
  lemma BackwardStep(data: seq<real>, labels: seq<real>, num: nat, dim: nat, ln: LogFn,
                     before: seq<real>, acc: real, i: nat, p: nat, prob: real)
    requires BatchOk(data, labels, num, dim) && i < num && dim > 0
    requires p == i * dim + ToInt(labels[i]) && p < |data| && prob == Clamp(data[p])
    requires RowsWritten(before, Gradient(data, labels, num, dim), i, dim)
    requires acc == -Sum(LogTerms(data, labels, num, dim, ln)[..i])
    ensures RowsWritten(before[p := -1.0 / prob / num as real], Gradient(data, labels, num, dim), i + 1, dim)
    ensures acc - ln(prob) == -Sum(LogTerms(data, labels, num, dim, ln)[..i + 1])
  {
    GradientRow(data, labels, num, dim, i);
    RowWrite(before, Gradient(data, labels, num, dim), i, dim, p);
    SumPrefixStep(LogTerms(data, labels, num, dim, ln), i);
  }

  /** Backward_cpu: zero bottom_diff, then for every sample write the
      true-class slot and accumulate the loss. */
  method Backward(dataShape: Shape, labelShape: Shape, data: array<real>, labels: array<real>,
                  diff: array<real>, ln: LogFn) returns (loss: real)
    requires SetUpOk([dataShape, labelShape], 0) && dataShape.num > 0
    requires data.Length == dataShape.Count() && labels.Length == labelShape.Count()
    requires diff.Length == data.Length && diff != data && diff != labels
    requires ClassLabelsOk(labels[..], dataShape.num, dataShape.Dim())
    modifies diff
    ensures diff[..] == Gradient(data[..], labels[..], dataShape.num, dataShape.Dim())
    ensures loss == Loss(data[..], labels[..], dataShape.num, dataShape.Dim(), ln)
  {
    var num := dataShape.num;
    var dim := data.Length / num;
    MulDivCancel(num, dataShape.Dim());
    ghost var d, l := data[..], labels[..];
    ghost var grad := Gradient(d, l, num, dim);
    ghost var terms := LogTerms(d, l, num, dim, ln);
    FillZero(diff);
    assert 0 <= ToInt(l[0]) < dim;
    NoRowsWritten(diff[..], grad, dim);
    var acc := 0.0;
    for i := 0 to num
      invariant RowsWritten(diff[..], grad, i, dim)
      invariant acc == -Sum(terms[..i])
    {
      var cls := ToInt(labels[i]);
      assert labels[i] == l[i];
      var p := i * dim + cls;
      FlatIndex(i, cls, num, dim);
      assert data[p] == d[p];
      var prob := Clamp(data[p]);
      BackwardStep(d, l, num, dim, ln, diff[..], acc, i, p, prob);
      acc := acc - ln(prob);
      ghost var before := diff[..];
      diff[p] := -1.0 / prob / num as real;
      assert diff[..] == before[p := -1.0 / prob / num as real];
    }
    assert terms[..num] == terms;
    loss := acc / num as real;
    RowsOfFlat(num, dim);
    AllRowsWritten(diff[..], grad, num, dim);
  }
}
