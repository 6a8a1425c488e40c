/**
 * AccuracyLayer: for every sample, the predicted class is the first index of
 * the row's maximum (scanned from -FLT_MAX with a strict `>`); the first
 * output is the fraction of samples whose prediction equals the label, the
 * second the mean of `-log(max(p_label, kLOG_THRESHOLD))`.
 */
module AccuracyMetric {
  import opened LossCommon
  import Multinomial = MultinomialLogisticLoss

  /** FLT_MAX, the largest finite single-precision value; the scan starts from
      its negation. */
  const FltMax: real := 340282346638528859811704183484516925440.0

  /** The shape SetUp gives the top blob: (1, 2, 1, 1). */
  const TopShape: Shape := Shape(1, 2, 1, 1)

  /** The shape checks of SetUp: two bottom blobs, one top blob, one label per
      sample. */
  predicate SetUpOk(bottom: seq<Shape>, topCount: nat): (ok: bool)
    ensures ok ==> |bottom| == 2 && bottom[1].Count() == bottom[0].num
  {
    |bottom| == 2 && topCount == 1 &&
    bottom[0].num == bottom[1].num &&
    bottom[1].channels == 1 && bottom[1].height == 1 && bottom[1].width == 1
  }

  /** How Forward_cpu ends: with both outputs written, or at LOG(FATAL). */
  datatype Outcome = Done | Fatal

  /** Sample `i`'s `dim` values (empty past the end of the buffer). */
  function Row(data: seq<real>, i: nat, dim: nat): seq<real> {
    if i * dim + dim <= |data| then data[i * dim..i * dim + dim] else []
  }

  /** The state `(max_id, maxval)` of the scan over a row after its first `n`
      values: it starts at `(0, -FLT_MAX)` and moves only to a strictly greater
      value. */
  function Scan(row: seq<real>, n: nat): (r: (nat, real))
    requires n <= |row|
  {
    if n == 0 then (0, -FltMax)
    else
      var (id, maxval) := Scan(row, n - 1);
      if row[n - 1] > maxval then (n - 1, row[n - 1]) else (id, maxval)
  }

  /** The class the scan predicts for a row. */
  function ArgMax(row: seq<real>): nat {
    Scan(row, |row|).0
  }

  /** `m` is the lowest index at which `row` attains its maximum. */
  ghost predicate IsFirstMax(row: seq<real>, m: int) {
    0 <= m < |row| &&
    (forall j | 0 <= j < |row| :: row[j] <= row[m]) &&
    (forall j | 0 <= j < m :: row[j] < row[m])
  }

  /** What the scan keeps after `n` values: either it has not moved from the
      sentinel, or it holds the first maximum of the prefix, which exceeds
      -FLT_MAX. */
  lemma {:induction false} ScanInvariant(row: seq<real>, n: nat)
    requires n <= |row|
    ensures Scan(row, n).1 >= -FltMax
    ensures forall j | 0 <= j < n :: row[j] <= Scan(row, n).1
    ensures (Scan(row, n).0 == 0 && Scan(row, n).1 == -FltMax) ||
            (Scan(row, n).0 < n && row[Scan(row, n).0] == Scan(row, n).1 > -FltMax &&
             forall j | 0 <= j < Scan(row, n).0 :: row[j] < Scan(row, n).1)
  {
    if n > 0 {
      ScanInvariant(row, n - 1);
    }
  }

  /** The predicted class is the lowest index of the row's maximum when some
      value exceeds -FLT_MAX, and 0 otherwise. */
  lemma ArgMaxIsFirstMax(row: seq<real>)
    ensures (exists j | 0 <= j < |row| :: row[j] > -FltMax) ==> IsFirstMax(row, ArgMax(row))
    ensures (forall j | 0 <= j < |row| :: row[j] <= -FltMax) ==> ArgMax(row) == 0
  {
    ScanInvariant(row, |row|);
  }

  /** The class predicted for each of the first `num` samples. */
  function Predictions(data: seq<real>, num: nat, dim: nat): (p: seq<nat>)
    ensures |p| == num
  {
    seq(num, i requires 0 <= i < num => ArgMax(Row(data, i, dim)))
  }

  /** The number of samples among the first `n` whose prediction equals their
      label cast to an integer. */
  function Matches(predictions: seq<nat>, labels: seq<real>, n: nat): (h: nat)
    requires n <= |predictions| && n <= |labels|
    ensures h <= n
  {
    if n == 0 then 0
    else Matches(predictions, labels, n - 1) + if predictions[n - 1] == ToInt(labels[n - 1]) then 1 else 0
  }

  /** The hit count of a batch of `num` samples. */
  function Hits(data: seq<real>, labels: seq<real>, num: nat, dim: nat): nat
    requires num <= |labels|
  {
    Matches(Predictions(data, num, dim), labels, num)
  }

  /** The first output, `accuracy / num`, is a fraction in [0, 1]. */
  lemma AccuracyInUnitInterval(data: seq<real>, labels: seq<real>, num: nat, dim: nat)
    requires Multinomial.BatchOk(data, labels, num, dim)
    ensures 0.0 <= Hits(data, labels, num, dim) as real / num as real <= 1.0
  {
    Fraction(Hits(data, labels, num, dim) as real, num as real);
  }

  lemma Fraction(h: real, n: real)
    requires 0.0 <= h <= n && n > 0.0
    ensures 0.0 <= h / n <= 1.0
  {
  }

  /** The inner loop of Forward_cpu: scan sample `i`'s row for its first
      maximum. */
  method ArgMaxOfRow(data: array<real>, lo: nat, dim: nat) returns (maxId: nat)
    requires lo + dim <= data.Length
    ensures maxId == ArgMax(data[lo..lo + dim])
  {
    ghost var row := data[lo..lo + dim];
    var maxval := -FltMax;
    maxId := 0;
    for j := 0 to dim
      invariant (maxId, maxval) == Scan(row, j)
    {
      assert data[lo + j] == row[j];
      if data[lo + j] > maxval {
        maxval := data[lo + j];
        maxId := j;
      }
    }
    assert row[..dim] == row;
  }

  /** Sample `i`'s prediction is the scan of the `dim` values starting at
      its row offset `lo`. */
  lemma PredictionAt(data: seq<real>, num: nat, dim: nat, i: nat, lo: nat)
    requires i < num && lo == i * dim && lo + dim <= |data|
    ensures Predictions(data, num, dim)[i] == ArgMax(data[lo..lo + dim])
  {
  }

  /** Counting sample `i`'s hit extends the hit count by one sample. */
  lemma HitStep(predictions: seq<nat>, labels: seq<real>, i: nat, maxId: nat, accuracy: real)
    requires i < |predictions| && i < |labels| && maxId == predictions[i]
    requires accuracy == Matches(predictions, labels, i) as real
    ensures (if maxId == ToInt(labels[i]) then accuracy + 1.0 else accuracy) ==
            Matches(predictions, labels, i + 1) as real
  {
  }

  /** Subtracting sample `i`'s `log(max(p_label, kLOG_THRESHOLD))` extends
      the summed log terms by one sample. */
  lemma LogStep(data: seq<real>, labels: seq<real>, num: nat, dim: nat, ln: LogFn,
                i: nat, p: nat, prob: real, logprob: real)
    requires Multinomial.BatchOk(data, labels, num, dim) && i < num
    requires p == i * dim + ToInt(labels[i]) && p < |data| && prob == Clamp(data[p])
    requires logprob == -Sum(Multinomial.LogTerms(data, labels, num, dim, ln)[..i])
    ensures logprob - ln(prob) == -Sum(Multinomial.LogTerms(data, labels, num, dim, ln)[..i + 1])
  {
    SumPrefixStep(Multinomial.LogTerms(data, labels, num, dim, ln), i);
  }

  /** The body of Forward_cpu's loop for sample `i`: predict its class, count
      a hit, and subtract the log of its clamped label probability. */
  method ForwardSample(data: array<real>, labels: array<real>, num: nat, dim: nat, ln: LogFn,
                       i: nat, accuracy: real, logprob: real) returns (accuracy': real, logprob': real)
    requires Multinomial.BatchOk(data[..], labels[..], num, dim) && i < num
    requires accuracy == Matches(Predictions(data[..], num, dim), labels[..], i) as real
    requires logprob == -Sum(Multinomial.LogTerms(data[..], labels[..], num, dim, ln)[..i])
    ensures accuracy' == Matches(Predictions(data[..], num, dim), labels[..], i + 1) as real
    ensures logprob' == -Sum(Multinomial.LogTerms(data[..], labels[..], num, dim, ln)[..i + 1])
  {
    ghost var d, l := data[..], labels[..];
    ghost var predictions := Predictions(d, num, dim);
    var cls := ToInt(labels[i]);
    assert labels[i] == l[i];
    FlatIndex(i, cls, num, dim);
    MulStep(i, dim);
    MulMonotone(i + 1, num, dim);
    var lo: nat := i * dim;
    var maxId := ArgMaxOfRow(data, lo, dim);
    PredictionAt(d, num, dim, i, lo);
    HitStep(predictions, l, i, maxId, accuracy);
    accuracy' := if maxId == cls then accuracy + 1.0 else accuracy;
    var p := lo + cls;
    assert data[p] == d[p];
    var prob := Clamp(data[p]);
    LogStep(d, l, num, dim, ln, i, p, prob, logprob);
    logprob' := logprob - ln(prob);
  }

  /** The loop of Forward_cpu over the samples: the hit count and the summed
      `-log(max(p_label, kLOG_THRESHOLD))` of the batch. */
  method Tally(data: array<real>, labels: array<real>, num: nat, dim: nat, ln: LogFn)
    returns (accuracy: real, logprob: real)
    requires Multinomial.BatchOk(data[..], labels[..], num, dim)
    ensures accuracy == Hits(data[..], labels[..], num, dim) as real
    ensures logprob == -Sum(Multinomial.LogTerms(data[..], labels[..], num, dim, ln))
  {
    ghost var predictions := Predictions(data[..], num, dim);
    ghost var terms := Multinomial.LogTerms(data[..], labels[..], num, dim, ln);
    accuracy, logprob := 0.0, 0.0;
    for i := 0 to num
      invariant accuracy == Matches(predictions, labels[..], i) as real
      invariant logprob == -Sum(terms[..i])
    {
      accuracy, logprob := ForwardSample(data, labels, num, dim, ln, i, accuracy, logprob);
    }
    assert terms[..num] == terms;
  }

  /** Forward_cpu, leaving out the dump files: LOG(FATAL) unless both or
      neither dump is configured; otherwise top[0] := accuracy / num and
      top[1] := logprob / num, the multinomial logistic loss of the batch. */
  method Forward(dataShape: Shape, labelShape: Shape, data: array<real>, labels: array<real>,
                 top: array<real>, hasDataDump: bool, hasLabelDump: bool, ln: LogFn)
    returns (outcome: Outcome)
    requires SetUpOk([dataShape, labelShape], 1) && dataShape.num > 0
    requires data.Length == dataShape.Count() && labels.Length == labelShape.Count()
    requires top.Length == TopShape.Count() && top != data && top != labels
    requires ClassLabelsOk(labels[..], dataShape.num, dataShape.Dim())
    modifies top
    ensures outcome == Fatal <==> hasDataDump != hasLabelDump
    ensures outcome == Fatal ==> top[..] == old(top[..])
    ensures outcome == Done ==>
      top[0] == Hits(data[..], labels[..], dataShape.num, dataShape.Dim()) as real /
                dataShape.num as real &&
      top[1] == Multinomial.Loss(data[..], labels[..], dataShape.num, dataShape.Dim(), ln)
  {
    if hasDataDump && !hasLabelDump {
      return Fatal;
    }
    if !hasDataDump && hasLabelDump {
      return Fatal;
    }
    var num := dataShape.num;
    var dim := data.Length / num;
    MulDivCancel(num, dataShape.Dim());
    var accuracy, logprob := Tally(data, labels, num, dim, ln);
    top[0] := accuracy / num as real;
    top[1] := logprob / num as real;
    return Done;
  }
}
