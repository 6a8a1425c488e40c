/**
 * MultiLabelLogisticLossLayer: every element is an independent binary
 * prediction. Its probability is the sigmoid floored at kLOG_THRESHOLD, its
 * gradient `prob - [label == 1]` (not divided by `num`), and its loss term
 * `-log(prob + kLOG_THRESHOLD)` for a positive label and
 * `-log(1 - prob + kLOG_THRESHOLD)` otherwise; only the summed loss is
 * divided by `num`.
 */
module MultiLabelLogisticLoss {
  import opened LossCommon
  import opened MathFunctions

  /** The shape checks of SetUp: two bottom blobs, no top blob, one label row
      per sample. */
  predicate SetUpOk(bottom: seq<Shape>, topCount: nat): (ok: bool)
    ensures ok ==> |bottom| == 2 && bottom[0].num == bottom[1].num
  {
    |bottom| == 2 && topCount == 0 &&
    bottom[0].num == bottom[1].num && bottom[1].height == 1 && bottom[1].width == 1
  }

  /** The gradient Backward_cpu leaves in bottom_diff. */
  function Gradient(data: seq<real>, labels: seq<real>, exp: ExpFn): (g: seq<real>)
    requires |data| <= |labels|
    ensures |g| == |data|
  {
    seq(|data|, k requires 0 <= k < |data| =>
      Probability(exp, data[k]) - Indicator(IsPositive(labels[k])))
  }

  /** The argument Backward_cpu passes to `log` for one element. */
  function LogArgument(exp: ExpFn, x: real, y: real): (a: real)
    ensures a > LogThreshold
  {
    var p := Probability(exp, x);
    if IsPositive(y) then p + LogThreshold else 1.0 - p + LogThreshold
  }

  /** The logarithm of every element's argument. */
  function LogTerms(data: seq<real>, labels: seq<real>, exp: ExpFn, ln: LogFn): (t: seq<real>)
    requires |data| <= |labels|
    ensures |t| == |data|
  {
    seq(|data|, k requires 0 <= k < |data| => ln(LogArgument(exp, data[k], labels[k])))
  }

  /** The value Backward_cpu returns. */
  function Loss(data: seq<real>, labels: seq<real>, num: nat, exp: ExpFn, ln: LogFn): real
    requires |data| <= |labels| && num > 0
  {
    -Sum(LogTerms(data, labels, exp, ln)) / num as real
  }

  /** Every gradient entry lies strictly between -1 and 1, and it is negative
      exactly when the label is positive. */
  lemma GradientSign(data: seq<real>, labels: seq<real>, exp: ExpFn, k: nat)
    requires |data| <= |labels| && k < |data|
    ensures -1.0 < Gradient(data, labels, exp)[k] < 1.0
    ensures Gradient(data, labels, exp)[k] < 0.0 <==> IsPositive(labels[k])
  {
    var p := Probability(exp, data[k]);
    assert LogThreshold <= p < 1.0;
  }

  /** One element of the inner loop: the value it writes is the gradient
      entry, and subtracting its log term extends the accumulated loss. */
  lemma ElementStep(data: seq<real>, labels: seq<real>, exp: ExpFn, ln: LogFn,
                    loss: real, k: nat, g: real, arg: real)
    requires |data| <= |labels| && k < |data|
    requires g == Probability(exp, data[k]) - Indicator(IsPositive(labels[k]))
    requires arg == LogArgument(exp, data[k], labels[k])
    requires loss == -Sum(LogTerms(data, labels, exp, ln)[..k])
    ensures Gradient(data, labels, exp)[k] == g
    ensures loss - ln(arg) == -Sum(LogTerms(data, labels, exp, ln)[..k + 1])
  {
    SumPrefixStep(LogTerms(data, labels, exp, ln), k);
  }

  /** One element `k` of the inner loop: write its gradient and subtract its
      log term from `loss`. `start` is bottom_diff before the loops. */
  method WriteElement(data: array<real>, labels: array<real>, diff: array<real>,
                      exp: ExpFn, ln: LogFn, k: nat, loss: real,
                      ghost start: seq<real>, ghost grad: seq<real>, ghost terms: seq<real>)
    returns (loss': real)
    requires data.Length <= labels.Length && k < data.Length
    requires diff.Length == data.Length && diff != data && diff != labels && |start| == data.Length
    requires grad == Gradient(data[..], labels[..], exp)
    requires terms == LogTerms(data[..], labels[..], exp, ln)
    requires diff[..] == Overwrite(start, grad, k) && loss == -Sum(terms[..k])
    modifies diff
    ensures diff[..] == Overwrite(start, grad, k + 1) && loss' == -Sum(terms[..k + 1])
  {
    ghost var d, l := data[..], labels[..];
    assert data[k] == d[k] && labels[k] == l[k];
    var cls := ToInt(labels[k]);
    var prob := Clamp(Sigmoid(exp, data[k]));
    var g := prob - Indicator(cls == 1);
    var arg := if cls == 1 then prob + LogThreshold else 1.0 - prob + LogThreshold;
    ElementStep(d, l, exp, ln, loss, k, g, arg);
    OverwriteStep(start, grad, k);
    ghost var before := diff[..];
    diff[k] := g;
    assert diff[..] == before[k := g];
    loss' := loss - ln(arg);
  }

  /** The inner loop of Backward_cpu for sample `i`: overwrite its `dim`
      elements and subtract their log terms from `loss`. */
  method BackwardSample(data: array<real>, labels: array<real>, diff: array<real>,
                        exp: ExpFn, ln: LogFn, lo: nat, dim: nat, loss: real,
                        ghost start: seq<real>, ghost grad: seq<real>, ghost terms: seq<real>)
    returns (loss': real)
    requires data.Length <= labels.Length && lo + dim <= data.Length
    requires diff.Length == data.Length && diff != data && diff != labels && |start| == data.Length
    requires grad == Gradient(data[..], labels[..], exp)
    requires terms == LogTerms(data[..], labels[..], exp, ln)
    requires diff[..] == Overwrite(start, grad, lo) && loss == -Sum(terms[..lo])
    modifies diff
    ensures diff[..] == Overwrite(start, grad, lo + dim) && loss' == -Sum(terms[..lo + dim])
  {
    loss' := loss;
    for j := 0 to dim
      invariant diff[..] == Overwrite(start, grad, lo + j)
      invariant loss' == -Sum(terms[..lo + j])
    {
      loss' := WriteElement(data, labels, diff, exp, ln, lo + j, loss', start, grad, terms);
    }
  }

  /** The outer loop of Backward_cpu: run the inner loop for each of the
      `num` samples of `dim` elements. */
  method BackwardBatch(data: array<real>, labels: array<real>, diff: array<real>,
                       exp: ExpFn, ln: LogFn, num: nat, dim: nat,
                       ghost grad: seq<real>, ghost terms: seq<real>)
    returns (acc: real)
    requires data.Length <= labels.Length && data.Length == num * dim
    requires diff.Length == data.Length && diff != data && diff != labels
    requires grad == Gradient(data[..], labels[..], exp)
    requires terms == LogTerms(data[..], labels[..], exp, ln)
    modifies diff
    ensures diff[..] == grad && acc == -Sum(terms)
  {
    ghost var start := diff[..];
    OverwriteEnds(start, grad);
    acc := 0.0;
    var lo: nat := 0;
    for i := 0 to num
      invariant lo == i * dim && lo <= data.Length
      invariant diff[..] == Overwrite(start, grad, lo)
      invariant acc == -Sum(terms[..lo])
    {
      MulStep(i, dim);
      MulMonotone(i + 1, num, dim);
      acc := BackwardSample(data, labels, diff, exp, ln, lo, dim, acc, start, grad, terms);
      lo := lo + dim;
    }
    assert terms[..lo] == terms;
  }

  /** Backward_cpu: zero bottom_diff, then overwrite every element with its
      gradient while accumulating the loss, which is returned divided by
      `num`. */
  method Backward(dataShape: Shape, labelShape: Shape, data: array<real>, labels: array<real>,
                  diff: array<real>, exp: ExpFn, ln: LogFn) returns (loss: real)
    requires SetUpOk([dataShape, labelShape], 0) && dataShape.num > 0
    requires data.Length == dataShape.Count() && labels.Length == labelShape.Count()
    requires data.Length <= labels.Length
    requires diff.Length == data.Length && diff != data && diff != labels
    modifies diff
    ensures diff[..] == Gradient(data[..], labels[..], exp)
    ensures loss == Loss(data[..], labels[..], dataShape.num, exp, ln)
  {
    var num := dataShape.num;
    var dim := data.Length / num;
    MulDivCancel(num, dataShape.Dim());
    ghost var grad := Gradient(data[..], labels[..], exp);
    ghost var terms := LogTerms(data[..], labels[..], exp, ln);
    FillZero(diff);
    var acc := BackwardBatch(data, labels, diff, exp, ln, num, dim, grad, terms);
    loss := acc / num as real;
  }
}
