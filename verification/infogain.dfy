/**
 * InfogainLossLayer: a multinomial logistic loss in which every class `j`
 * of a sample with true class `l` contributes, weighted by entry `H[l][j]` of
 * a square information-gain matrix `H` loaded at set-up. Every gradient slot is
 * overwritten.
 */
module InfogainLoss {
  import opened LossCommon
  import Multinomial = MultinomialLogisticLoss

  /** The shape checks of SetUp: those of the multinomial layer, and an
      information-gain blob of one square matrix. */
  predicate SetUpOk(bottom: seq<Shape>, topCount: nat, gain: Shape): (ok: bool)
    ensures ok ==> |bottom| == 2 && bottom[1].Count() == bottom[0].num
    ensures ok ==> gain.Count() == gain.height * gain.height
  {
    Multinomial.SetUpOk(bottom, topCount) &&
    gain.num == 1 && gain.channels == 1 && gain.height == gain.width
  }

  /** A batch Backward_cpu accepts: `num` samples of `dim` values, a class
      index below `dim` for each, and a `dim` by `dim` matrix. */
  predicate BatchOk(data: seq<real>, labels: seq<real>, gain: seq<real>, num: nat, dim: nat) {
    Multinomial.BatchOk(data, labels, num, dim) && |gain| == dim * dim
  }

  /** The matrix entry `H[label(k / dim)][k % dim]` Backward_cpu applies at
      flat index `k`. The guard holds at every index of a batch that `BatchOk`
      accepts (`GradientAt`), so the fallback 0 is never used there. */
  function Weight(labels: seq<real>, gain: seq<real>, dim: nat, k: nat): real {
    if dim > 0 && k / dim < |labels| && 0 <= ToInt(labels[k / dim]) * dim + k % dim < |gain|
    then gain[ToInt(labels[k / dim]) * dim + k % dim]
    else 0.0
  }

  /** The gradient Backward_cpu leaves in bottom_diff. */
  function Gradient(data: seq<real>, labels: seq<real>, gain: seq<real>, num: nat, dim: nat): (g: seq<real>)
    requires num > 0
    ensures |g| == |data|
  {
    seq(|data|, k requires 0 <= k < |data| => -Weight(labels, gain, dim, k) / Clamp(data[k]) / num as real)
  }

  /** One term of the loss sum: a matrix weight times a log-probability. */
  function WeightedLog(weight: real, logProb: real): real {
    weight * logProb
  }

  /** `H[l][j] * log(max(p_j, kLOG_THRESHOLD))` for each flat index. */
  function LogTerms(data: seq<real>, labels: seq<real>, gain: seq<real>, dim: nat, ln: LogFn): (t: seq<real>)
    ensures |t| == |data|
  {
    seq(|data|, k requires 0 <= k < |data| => WeightedLog(Weight(labels, gain, dim, k), ln(Clamp(data[k]))))
  }

  /** The value Backward_cpu returns. */
  function Loss(data: seq<real>, labels: seq<real>, gain: seq<real>, num: nat, dim: nat, ln: LogFn): real
    requires num > 0
  {
    -Sum(LogTerms(data, labels, gain, dim, ln)) / num as real
  }

  /** At row `i`, column `j` (flat index `k = i * dim + j`) the weight is
      `H[label_i][j]`, an entry inside the matrix. */
  lemma WeightAt(labels: seq<real>, gain: seq<real>, num: nat, dim: nat, i: nat, j: nat, k: nat, cls: int)
    requires ClassLabelsOk(labels, num, dim) && |gain| == dim * dim
    requires i < num && j < dim && k == i * dim + j && cls == ToInt(labels[i])
    ensures k < num * dim && 0 <= cls * dim + j < |gain|
    ensures Weight(labels, gain, dim, k) == gain[cls * dim + j]
  {
    FlatIndex(i, j, num, dim);
    FlatIndex(cls, j, dim, dim);
  }

  /** Row `i`, column `j` (flat index `k = i * dim + j`) of the gradient is
      `-H[label_i][j] / max(p, 1e-20) / num`, and its loss term is
      `H[label_i][j] * log(max(p, 1e-20))`. */
  lemma GradientAt(data: seq<real>, labels: seq<real>, gain: seq<real>, num: nat, dim: nat, ln: LogFn,
                   i: nat, j: nat, k: nat)
    requires BatchOk(data, labels, gain, num, dim)
    requires i < num && j < dim && k == i * dim + j
    ensures k < |data| && 0 <= ToInt(labels[i]) * dim + j < |gain|
    ensures Gradient(data, labels, gain, num, dim)[k] ==
      -gain[ToInt(labels[i]) * dim + j] / Clamp(data[k]) / num as real
    ensures LogTerms(data, labels, gain, dim, ln)[k] ==
      WeightedLog(gain[ToInt(labels[i]) * dim + j], ln(Clamp(data[k])))
  {
    WeightAt(labels, gain, num, dim, i, j, k, ToInt(labels[i]));
  }

  /** The `dim` by `dim` identity matrix, row-major. */
  function Identity(dim: nat): (h: seq<real>)
    ensures |h| == dim * dim
  {
    seq(dim * dim, k requires 0 <= k < dim * dim => if k / dim == k % dim then 1.0 else 0.0)
  }

  lemma IdentityAt(dim: nat, r: nat, c: nat)
    requires r < dim && c < dim
    ensures 0 <= r * dim + c < |Identity(dim)|
    ensures Identity(dim)[r * dim + c] == if r == c then 1.0 else 0.0
  {
    FlatIndex(r, c, dim, dim);
  }

  /** With the identity matrix, the information-gain layer computes exactly the
      multinomial logistic layer's gradient and loss. */
  lemma IdentityGainIsMultinomial(data: seq<real>, labels: seq<real>, num: nat, dim: nat, ln: LogFn)
    requires Multinomial.BatchOk(data, labels, num, dim)
    ensures BatchOk(data, labels, Identity(dim), num, dim)
    ensures Gradient(data, labels, Identity(dim), num, dim) == Multinomial.Gradient(data, labels, num, dim)
    ensures Loss(data, labels, Identity(dim), num, dim, ln) == Multinomial.Loss(data, labels, num, dim, ln)
  {
    assert Gradient(data, labels, Identity(dim), num, dim) == Multinomial.Gradient(data, labels, num, dim) by {
      var g := Gradient(data, labels, Identity(dim), num, dim);
      var m := Multinomial.Gradient(data, labels, num, dim);
      forall k | 0 <= k < |data| ensures g[k] == m[k] {
        FlatSplit(k, num, dim);
        IdentityGradient(data, labels, num, dim, ln, k / dim, k % dim, k);
      }
    }
    IdentityLogSum(data, labels, num, dim, ln);
  }

  /** With the identity matrix, the loss terms sum to the multinomial ones. */
  lemma IdentityLogSum(data: seq<real>, labels: seq<real>, num: nat, dim: nat, ln: LogFn)
    requires Multinomial.BatchOk(data, labels, num, dim)
    ensures Sum(LogTerms(data, labels, Identity(dim), dim, ln)) == Sum(Multinomial.LogTerms(data, labels, num, dim, ln))
  {
    var t := LogTerms(data, labels, Identity(dim), dim, ln);
    var u := Multinomial.LogTerms(data, labels, num, dim, ln);
    var cols := seq(num, i requires 0 <= i < num => ToInt(labels[i]));
    forall i: nat, c: nat | i < num && c < dim ensures SparseEntry(t, u, cols, dim, i, c) {
      IdentityTerm(data, labels, num, dim, ln, i, c, i * dim + c);
    }
    SumSparseRows(t, u, cols, dim, num);
    assert t[..num * dim] == t && u[..num] == u;
  }

  /** With the identity matrix, the gradient at row `i`, column `j` is the
      multinomial one. */
  lemma IdentityGradient(data: seq<real>, labels: seq<real>, num: nat, dim: nat, ln: LogFn, i: nat, j: nat, k: nat)
    requires Multinomial.BatchOk(data, labels, num, dim) && i < num && j < dim && k == i * dim + j
    ensures k < |data|
    ensures Gradient(data, labels, Identity(dim), num, dim)[k] == Multinomial.Gradient(data, labels, num, dim)[k]
  {
    var cls := ToInt(labels[i]);
    GradientAt(data, labels, Identity(dim), num, dim, ln, i, j, k);
    IdentityAt(dim, cls, j);
    Multinomial.GradientAt(data, labels, num, dim, i, j);
    var c := Clamp(data[k]);
    if j == cls {
      assert Identity(dim)[cls * dim + j] == 1.0;
    } else {
      assert Identity(dim)[cls * dim + j] == 0.0;
      assert -0.0 / c / num as real == 0.0;
    }
  }

  /** With the identity matrix, the loss term at row `i`, column `c` is the
      multinomial log term of sample `i` at its true class and zero elsewhere. */
  lemma IdentityTerm(data: seq<real>, labels: seq<real>, num: nat, dim: nat, ln: LogFn, i: nat, c: nat, k: nat)
    requires Multinomial.BatchOk(data, labels, num, dim) && i < num && c < dim && k == i * dim + c
    ensures k < |data|
    ensures LogTerms(data, labels, Identity(dim), dim, ln)[k] ==
      if c == ToInt(labels[i]) then Multinomial.LogTerms(data, labels, num, dim, ln)[i] else 0.0
  {
    GradientAt(data, labels, Identity(dim), num, dim, ln, i, c, k);
    IdentityAt(dim, ToInt(labels[i]), c);
  }

  /** One iteration of the inner loop, on bottom_diff: overwriting flat slot
      `k` of the partly written buffer with `-weight / prob / num` extends the
      written prefix by one slot. */
  lemma WriteStep(data: seq<real>, labels: seq<real>, gain: seq<real>, num: nat, dim: nat,
                  start: seq<real>, k: nat, weight: real, prob: real)
    requires num > 0 && k < |data| && |start| == |data|
    requires weight == Weight(labels, gain, dim, k) && prob == Clamp(data[k])
    ensures Overwrite(start, Gradient(data, labels, gain, num, dim), k)[k := -weight / prob / num as real]
         == Overwrite(start, Gradient(data, labels, gain, num, dim), k + 1)
  {
    OverwriteStep(start, Gradient(data, labels, gain, num, dim), k);
  }

  /** One iteration of the inner loop, on the loss: subtracting the weighted
      log term of slot `k` extends the accumulated sum. */
  lemma LossStep(data: seq<real>, labels: seq<real>, gain: seq<real>, dim: nat, ln: LogFn,
                 acc: real, k: nat, weight: real, prob: real)
    requires k < |data|
    requires acc == -Sum(LogTerms(data, labels, gain, dim, ln)[..k])
    requires weight == Weight(labels, gain, dim, k) && prob == Clamp(data[k])
    ensures acc - WeightedLog(weight, ln(prob)) == -Sum(LogTerms(data, labels, gain, dim, ln)[..k + 1])
  {
    SumPrefixStep(LogTerms(data, labels, gain, dim, ln), k);
  }

  class InfogainLossLayer {
    /** infogain_: the matrix blob read at set-up. */
    var gainShape: Shape
    var gain: seq<real>

    ghost predicate Valid()
      reads this
    {
      gainShape.num == 1 && gainShape.channels == 1 && gainShape.height == gainShape.width &&
      |gain| == gainShape.Count()
    }

    /** SetUp: the shape checks, with the matrix blob (read from the file the
        layer's parameters name) given as `blobShape` and `blob`. */
    constructor (bottom: seq<Shape>, topCount: nat, blobShape: Shape, blob: seq<real>)
      requires SetUpOk(bottom, topCount, blobShape) && |blob| == blobShape.Count()
      ensures Valid() && gainShape == blobShape && gain == blob
    {
      gainShape := blobShape;
      gain := blob;
    }

    /** Backward_cpu: overwrite every slot of bottom_diff and accumulate the
        weighted loss. */
    method Backward(dataShape: Shape, labelShape: Shape, data: array<real>, labels: array<real>,
                    diff: array<real>, ln: LogFn) returns (loss: real)
      requires Valid()
      requires Multinomial.SetUpOk([dataShape, labelShape], 0) && dataShape.num > 0
      requires data.Length == dataShape.Count() && labels.Length == labelShape.Count()
      requires diff.Length == data.Length && diff != data && diff != labels
      requires ClassLabelsOk(labels[..], dataShape.num, dataShape.Dim())
      requires gainShape.height == dataShape.Dim()
      modifies diff
      ensures diff[..] == Gradient(data[..], labels[..], gain, dataShape.num, dataShape.Dim())
      ensures loss == Loss(data[..], labels[..], gain, dataShape.num, dataShape.Dim(), ln)
    {
      var num := dataShape.num;
      var dim := data.Length / num;
      MulDivCancel(num, dataShape.Dim());
      ghost var terms := LogTerms(data[..], labels[..], gain, dim, ln);
      var acc := BackwardBatch(data, labels, diff, ln, num, dim, Gradient(data[..], labels[..], gain, num, dim), terms);
      loss := acc / num as real;
    }

    /** The outer loop of Backward_cpu: run the inner loop for each of the
        `num` samples of `dim` slots. */
    method BackwardBatch(data: array<real>, labels: array<real>, diff: array<real>, ln: LogFn,
                         num: nat, dim: nat, ghost grad: seq<real>, ghost terms: seq<real>)
      returns (acc: real)
      requires BatchOk(data[..], labels[..], gain, num, dim)
      requires diff.Length == data.Length && diff != data && diff != labels
      requires grad == Gradient(data[..], labels[..], gain, num, dim)
      requires terms == LogTerms(data[..], labels[..], gain, dim, ln)
      modifies diff
      ensures diff[..] == grad && acc == -Sum(terms)
    {
      ghost var start := diff[..];
      OverwriteEnds(start, grad);
      acc := 0.0;
      var lo: nat := 0;
      for i := 0 to num
        invariant lo == i * dim && lo <= data.Length
        invariant diff[..] == Overwrite(start, grad, lo)
        invariant acc == -Sum(terms[..lo])
      {
        MulStep(i, dim);
        MulMonotone(i + 1, num, dim);
        acc := BackwardSample(data, labels, diff, ln, num, dim, i, lo, acc, start);
        lo := lo + dim;
      }
      assert terms[..lo] == terms;
    }

    /** The inner loop of Backward_cpu for sample `i`: overwrite the `dim`
        slots of its row and subtract their weighted log terms from `acc`. */
    method BackwardSample(data: array<real>, labels: array<real>, diff: array<real>, ln: LogFn,
                          num: nat, dim: nat, i: nat, lo: nat, acc: real, ghost start: seq<real>)
      returns (acc': real)
      requires BatchOk(data[..], labels[..], gain, num, dim) && i < num
      requires lo == i * dim && lo + dim <= data.Length
      requires diff.Length == data.Length && diff != data && diff != labels && |start| == data.Length
      requires diff[..] == Overwrite(start, Gradient(data[..], labels[..], gain, num, dim), lo)
      requires acc == -Sum(LogTerms(data[..], labels[..], gain, dim, ln)[..lo])
      modifies diff
      ensures diff[..] == Overwrite(start, Gradient(data[..], labels[..], gain, num, dim), lo + dim)
      ensures acc' == -Sum(LogTerms(data[..], labels[..], gain, dim, ln)[..lo + dim])
    {
      var cls := ToInt(labels[i]);
      acc' := acc;
      for j := 0 to dim
        invariant diff[..] == Overwrite(start, Gradient(data[..], labels[..], gain, num, dim), lo + j)
        invariant acc' == -Sum(LogTerms(data[..], labels[..], gain, dim, ln)[..lo + j])
      {
        acc' := WriteSlot(data, labels, diff, ln, num, dim, i, j, lo + j, cls, acc', start);
      }
    }

    /** One iteration of the inner loop, at row `i`, column `j` (flat index
        `k`) of a sample whose class is `cls`: overwrite the slot with `-weight / prob / num`
        and subtract its weighted log term from `acc`. */
    method WriteSlot(data: array<real>, labels: array<real>, diff: array<real>, ln: LogFn,
                     num: nat, dim: nat, i: nat, j: nat, k: nat, cls: int, acc: real, ghost start: seq<real>)
      returns (acc': real)
      requires BatchOk(data[..], labels[..], gain, num, dim) && i < num && j < dim
      requires k == i * dim + j && k < data.Length && cls == ToInt(labels[i])
      requires diff.Length == data.Length && diff != data && diff != labels && |start| == data.Length
      requires diff[..] == Overwrite(start, Gradient(data[..], labels[..], gain, num, dim), k)
      requires acc == -Sum(LogTerms(data[..], labels[..], gain, dim, ln)[..k])
      modifies diff
      ensures diff[..] == Overwrite(start, Gradient(data[..], labels[..], gain, num, dim), k + 1)
      ensures acc' == -Sum(LogTerms(data[..], labels[..], gain, dim, ln)[..k + 1])
    {
      var h := gain;
      ghost var d, l := data[..], labels[..];
      assert l[i] == labels[i];
      WeightAt(l, h, num, dim, i, j, k, cls);
      assert d[k] == data[k];
      var prob := Clamp(data[k]);
      var weight := h[cls * dim + j];
      LossStep(d, l, h, dim, ln, acc, k, weight, prob);
      acc' := acc - WeightedLog(weight, ln(prob));
      WriteStep(d, l, h, num, dim, start, k, weight, prob);
      ghost var before := diff[..];
      diff[k] := -weight / prob / num as real;
      assert diff[..] == before[k := -weight / prob / num as real];
    }
  }
}
