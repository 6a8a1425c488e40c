/**
 * L2HingeLossLayer: the forward pass turns each prediction into a margin,
 * `max(0, 1 - x)` at the sample's true class and `max(0, 1 + x)` elsewhere,
 * by negating the true-class slot and applying `max(0, 1 + v)`. The backward
 * pass negates the true-class slots again, scales the buffer by `C / num` and
 * returns the scaled sum of absolute values times `C / num`.
 */
module L2HingeLoss {
  import opened LossCommon
  import opened MathFunctions

  /** The shape checks of SetUp: two bottom blobs, no top blob. */
  predicate SetUpOk(bottom: seq<Shape>, topCount: nat): (ok: bool)
    ensures ok ==> |bottom| == 2
  {
    |bottom| == 2 && topCount == 0
  }

  /** `k` is the true-class slot of its row, among the first `num` rows. */
  predicate IsTrueSlot(labels: seq<real>, num: nat, dim: nat, k: int) {
    dim > 0 && 0 <= k && k / dim < num && k / dim < |labels| && k % dim == ToInt(labels[k / dim])
  }

  /** The buffer with every true-class slot negated: the loop both passes run
      over the samples. */
  function Flip(x: seq<real>, labels: seq<real>, num: nat, dim: nat): (y: seq<real>)
    ensures |y| == |x|
  {
    seq(|x|, k requires 0 <= k < |x| => if IsTrueSlot(labels, num, dim, k) then -x[k] else x[k])
  }

  /** `std::max(Dtype(0), 1 + v)`. */
  function Hinge(v: real): real {
    if 0.0 < 1.0 + v then 1.0 + v else 0.0
  }

  /** The hinge applied to every element. */
  function HingeAll(v: seq<real>): (h: seq<real>)
    ensures |h| == |v| && forall k | 0 <= k < |v| :: h[k] >= 0.0
  {
    seq(|v|, k requires 0 <= k < |v| => Hinge(v[k]))
  }

  /** The margins Forward_cpu leaves in bottom_diff. */
  function Margins(x: seq<real>, labels: seq<real>, num: nat, dim: nat): (m: seq<real>)
    ensures |m| == |x| && forall k | 0 <= k < |x| :: m[k] >= 0.0
  {
    HingeAll(Flip(x, labels, num, dim))
  }

  /** The value Backward_cpu returns for the final buffer `d`:
      `asum(d) / num * C`. */
  function Loss(d: seq<real>, num: nat, c: real): real
    requires num > 0
  {
    PerSample(Sum(AbsAll(d)), num, c)
  }

  /** `total / num * C`. */
  function PerSample(total: real, num: nat, c: real): real
    requires num > 0
  {
    total / num as real * c
  }

  /** Within row `i`, the true-class slot is exactly `i * dim + label[i]`. */
  lemma TrueSlotOfRow(labels: seq<real>, num: nat, dim: nat, i: nat, k: nat)
    requires ClassLabelsOk(labels, num, dim) && i < num
    requires k < num * dim && k / dim == i
    ensures IsTrueSlot(labels, num, dim, k) <==> k == i * dim + ToInt(labels[i])
  {
    FlatSplit(k, num, dim);
    FlatIndex(i, ToInt(labels[i]), num, dim);
  }

  /** Negating the true-class slots twice restores the buffer. */
  lemma FlipInvolutive(x: seq<real>, labels: seq<real>, num: nat, dim: nat)
    ensures Flip(Flip(x, labels, num, dim), labels, num, dim) == x
  {
    var y := Flip(Flip(x, labels, num, dim), labels, num, dim);
    forall k | 0 <= k < |x| ensures y[k] == x[k] {
      if IsTrueSlot(labels, num, dim, k) {
        assert y[k] == --x[k];
      }
    }
  }

  /** Each margin is `max(0, 1 - x)` at the sample's true class and
      `max(0, 1 + x)` elsewhere, and never negative. */
  lemma MarginAt(x: seq<real>, labels: seq<real>, num: nat, dim: nat, i: nat, j: nat)
    requires ClassLabelsOk(labels, num, dim) && |x| == num * dim
    requires i < num && j < dim
    ensures i * dim + j < |x|
    ensures Margins(x, labels, num, dim)[i * dim + j] ==
      if j == ToInt(labels[i]) then Hinge(-x[i * dim + j]) else Hinge(x[i * dim + j])
    ensures Margins(x, labels, num, dim)[i * dim + j] >= 0.0
  {
    FlatIndex(i, j, num, dim);
  }

  /** After the backward pass's second negation, the margins of the true-class
      slots are non-positive and every other slot is non-negative: the sign
      pattern of the hinge gradient. */
  lemma BackwardSigns(x: seq<real>, labels: seq<real>, num: nat, dim: nat, k: nat)
    requires k < |x|
    ensures IsTrueSlot(labels, num, dim, k) ==> Flip(Margins(x, labels, num, dim), labels, num, dim)[k] <= 0.0
    ensures !IsTrueSlot(labels, num, dim, k) ==> Flip(Margins(x, labels, num, dim), labels, num, dim)[k] >= 0.0
  {
    assert Margins(x, labels, num, dim)[k] >= 0.0;
  }

  /** The returned loss is non-negative whenever `C` is. */
  lemma LossNonNegative(d: seq<real>, num: nat, c: real)
    requires num > 0 && c >= 0.0
    ensures Loss(d, num, c) >= 0.0
  {
    SumNonNegative(AbsAll(d));
    assert Sum(AbsAll(d)) / num as real >= 0.0;
  }

  /** Run after the forward pass, the backward pass sums absolute values
      `|scale| * sum(margins)`: the negation does not change them, and the
      scale factors out of the sum. */
  lemma AbsSumAfterForward(x: seq<real>, labels: seq<real>, num: nat, dim: nat, scale: real)
    ensures Sum(AbsAll(Scaled(scale, Flip(Margins(x, labels, num, dim), labels, num, dim)))) ==
            Abs(scale) * Sum(Margins(x, labels, num, dim))
  {
    AbsOfFlipped(x, labels, num, dim, scale);
    SumOfScaled(Abs(scale), Margins(x, labels, num, dim));
  }

  /** Negating the true-class slots of the margins, which are non-negative,
      and then scaling by `c` gives the absolute values `|c| * margin`. */
  lemma AbsOfFlipped(x: seq<real>, labels: seq<real>, num: nat, dim: nat, c: real)
    ensures AbsAll(Scaled(c, Flip(Margins(x, labels, num, dim), labels, num, dim))) ==
            Scaled(Abs(c), Margins(x, labels, num, dim))
  {
    forall k | 0 <= k < |x|
      ensures AbsAll(Scaled(c, Flip(Margins(x, labels, num, dim), labels, num, dim)))[k] ==
              Scaled(Abs(c), Margins(x, labels, num, dim))[k]
    {
      AbsOfFlippedAt(x, labels, num, dim, c, k);
    }
  }

  lemma AbsOfFlippedAt(x: seq<real>, labels: seq<real>, num: nat, dim: nat, c: real, k: nat)
    requires k < |x|
    ensures AbsAll(Scaled(c, Flip(Margins(x, labels, num, dim), labels, num, dim)))[k] ==
            Scaled(Abs(c), Margins(x, labels, num, dim))[k]
  {
    var m := Margins(x, labels, num, dim);
    var f := Flip(m, labels, num, dim);
    var y := Scaled(c, f);
    assert AbsAll(y)[k] == Abs(y[k]);
    assert y[k] == c * f[k];
    assert f[k] == m[k] || f[k] == -m[k];
    ScaledAbs(c, f[k], m[k]);
  }

  /** The scale factors out of the sum. */
  lemma SumOfScaled(c: real, m: seq<real>)
    ensures Sum(Scaled(c, m)) == c * Sum(m)
  {
    SumScaled(m, Scaled(c, m), c);
  }

  /** Scaling `v` or `-v` by `c` gives absolute value `|c| * v` for `v >= 0`. */
  lemma ScaledAbs(c: real, f: real, v: real)
    requires v >= 0.0 && (f == v || f == -v)
    ensures Abs(c * f) == Abs(c) * v
  {
    AbsProduct(c, f);
  }

  /** `|c * v| == |c| * |v|`. */
  lemma AbsProduct(c: real, v: real)
    ensures Abs(c * v) == Abs(c) * Abs(v)
  {
    if c < 0.0 && v < 0.0 {
      assert c * v == (-c) * (-v);
    } else if c < 0.0 {
      assert -(c * v) == (-c) * v;
    } else if v < 0.0 {
      assert -(c * v) == c * (-v);
    }
  }

  /** The true-class slot `i * dim + label[i]` of each of the first `num`
      rows, in the order the sample loop visits them. */
  function TrueSlots(labels: seq<real>, num: nat, dim: nat): (slots: seq<int>)
    requires num <= |labels|
    ensures |slots| == num
  {
    seq(num, i requires 0 <= i < num => i * dim + ToInt(labels[i]))
  }

  /** `x` with the positions `slots[..n]` negated one after another. */
  function NegateSlots(x: seq<real>, slots: seq<int>, n: nat): (y: seq<real>)
    requires n <= |slots|
    ensures |y| == |x|
  {
    if n == 0 then x
    else
      var y := NegateSlots(x, slots, n - 1);
      var p := slots[n - 1];
      if 0 <= p < |y| then y[p := -y[p]] else y
  }

  /** Negating distinct positions in turn negates exactly those positions. */
  lemma {:induction false} NegateSlotsAt(x: seq<real>, slots: seq<int>, n: nat, k: nat)
    requires n <= |slots| && k < |x|
    requires forall j | 0 <= j < n :: 0 <= slots[j] < |x|
    requires forall a, b | 0 <= a < b < n :: slots[a] < slots[b]
    ensures NegateSlots(x, slots, n)[k] == if k in slots[..n] then -x[k] else x[k]
  {
    if n > 0 {
      var p := slots[n - 1];
      NegateSlotsAt(x, slots, n - 1, k);
      NegateSlotsAt(x, slots, n - 1, p);
      assert slots[..n] == slots[..n - 1] + [p];
      assert p !in slots[..n - 1] by {
        forall j | 0 <= j < n - 1 ensures slots[j] < p {}
      }
    }
  }

  /** The true-class slots lie in the buffer and increase from row to row. */
  lemma TrueSlotsIncreasing(labels: seq<real>, num: nat, dim: nat)
    requires ClassLabelsOk(labels, num, dim)
    ensures forall j | 0 <= j < num :: 0 <= TrueSlots(labels, num, dim)[j] < num * dim
    ensures forall a, b | 0 <= a < b < num :: TrueSlots(labels, num, dim)[a] < TrueSlots(labels, num, dim)[b]
  {
    var slots := TrueSlots(labels, num, dim);
    ClassSlots(labels, num, dim);
    forall a, b | 0 <= a < b < num ensures slots[a] < slots[b] {
      MulStep(a, dim);
      MulMonotone(a + 1, b, dim);
    }
  }

  /** The true-class slot of row `k / dim` is listed at position `k / dim`. */
  lemma TrueSlotListed(labels: seq<real>, num: nat, dim: nat, k: nat)
    requires ClassLabelsOk(labels, num, dim) && IsTrueSlot(labels, num, dim, k)
    ensures k / dim < num && TrueSlots(labels, num, dim)[k / dim] == k
  {
    var r := k / dim;
    assert k == r * dim + k % dim;
  }

  /** The slot listed for row `j` is a true-class slot. */
  lemma ListedIsTrueSlot(labels: seq<real>, num: nat, dim: nat, j: nat)
    requires ClassLabelsOk(labels, num, dim) && j < num
    ensures IsTrueSlot(labels, num, dim, TrueSlots(labels, num, dim)[j])
  {
    FlatIndex(j, ToInt(labels[j]), num, dim);
  }

  /** A flat index is a true-class slot exactly when it is one of the listed
      slots. */
  lemma TrueSlotMembership(labels: seq<real>, num: nat, dim: nat, k: nat)
    requires ClassLabelsOk(labels, num, dim)
    ensures IsTrueSlot(labels, num, dim, k) <==> k in TrueSlots(labels, num, dim)
  {
    var slots := TrueSlots(labels, num, dim);
    if IsTrueSlot(labels, num, dim, k) {
      TrueSlotListed(labels, num, dim, k);
    }
    if k in slots {
      var j :| 0 <= j < num && slots[j] == k;
      ListedIsTrueSlot(labels, num, dim, j);
    }
  }

  /** Negating the true-class slots one row at a time flips the buffer. */
  lemma NegateSlotsIsFlip(x: seq<real>, labels: seq<real>, num: nat, dim: nat)
    requires ClassLabelsOk(labels, num, dim) && |x| == num * dim
    ensures NegateSlots(x, TrueSlots(labels, num, dim), num) == Flip(x, labels, num, dim)
  {
    var slots := TrueSlots(labels, num, dim);
    TrueSlotsIncreasing(labels, num, dim);
    assert slots[..num] == slots;
    forall k | 0 <= k < |x| ensures NegateSlots(x, slots, num)[k] == Flip(x, labels, num, dim)[k] {
      NegateSlotsAt(x, slots, num, k);
      TrueSlotMembership(labels, num, dim, k);
    }
  }

  /** The sample loop of both passes: negate each true-class slot in place
      (`bottom_diff[i * dim + label[i]] *= -1`). */
  method FlipTrueSlots(diff: array<real>, labels: array<real>, num: nat, dim: nat)
    requires diff != labels && diff.Length == num * dim
    requires ClassLabelsOk(labels[..], num, dim)
    modifies diff
    ensures diff[..] == Flip(old(diff[..]), labels[..], num, dim)
  {
    ghost var x, l := diff[..], labels[..];
    ghost var slots := TrueSlots(l, num, dim);
    TrueSlotsIncreasing(l, num, dim);
    for i := 0 to num
      invariant diff[..] == NegateSlots(x, slots, i)
    {
      var cls := ToInt(labels[i]);
      assert labels[i] == l[i];
      var p := i * dim + cls;
      assert p == slots[i];
      ghost var before := diff[..];
      diff[p] := -1.0 * diff[p];
      assert diff[..] == before[p := -before[p]];
    }
    NegateSlotsIsFlip(x, l, num, dim);
  }

  /** The nested loop of Forward_cpu: `bottom_diff[k] = max(0, 1 +
      bottom_diff[k])` for every element, row by row. */
  method HingeInPlace(diff: array<real>, num: nat, dim: nat)
    requires diff.Length == num * dim
    modifies diff
    ensures diff[..] == HingeAll(old(diff[..]))
  {
    ghost var v := diff[..];
    ghost var h := HingeAll(v);
    OverwriteEnds(v, h);
    for i := 0 to num
      invariant i * dim <= diff.Length
      invariant diff[..] == Overwrite(v, h, i * dim)
    {
      MulStep(i, dim);
      MulMonotone(i + 1, num, dim);
      HingeRow(diff, i * dim, dim, v, h);
    }
  }

  /** The inner loop of Forward_cpu for the row starting at `lo`: apply the
      hinge to its `dim` elements. `v` is bottom_diff before the loops. */
  method HingeRow(diff: array<real>, lo: nat, dim: nat, ghost v: seq<real>, ghost h: seq<real>)
    requires lo + dim <= diff.Length && |v| == diff.Length && h == HingeAll(v)
    requires diff[..] == Overwrite(v, h, lo)
    modifies diff
    ensures diff[..] == Overwrite(v, h, lo + dim)
  {
    for j := 0 to dim
      invariant diff[..] == Overwrite(v, h, lo + j)
    {
      var k := lo + j;
      OverwriteStep(v, h, k);
      ghost var before := diff[..];
      diff[k] := if 0.0 < 1.0 + diff[k] then 1.0 + diff[k] else 0.0;
      assert diff[..] == before[k := h[k]];
    }
  }

  class L2HingeLossLayer {
    /** C_: the weight of the loss, set to 1 by SetUp and never changed. */
    const C: real

    /** SetUp: checks the blob counts and sets C_ to 1. */
    constructor (bottom: seq<Shape>, topCount: nat)
      requires SetUpOk(bottom, topCount)
      ensures C == 1.0
    {
      C := 1.0;
    }

    /** Forward_cpu: copy the predictions into bottom_diff, negate each
        true-class slot, then apply `max(0, 1 + v)` to every element. */
    method Forward(dataShape: Shape, data: array<real>, labels: array<real>, diff: array<real>)
      requires dataShape.num > 0 && data.Length == dataShape.Count()
      requires diff.Length == data.Length && diff != data && diff != labels
      requires ClassLabelsOk(labels[..], dataShape.num, dataShape.Dim())
      modifies diff
      ensures diff[..] == Margins(data[..], labels[..], dataShape.num, dataShape.Dim())
    {
      var num := dataShape.num;
      var dim := data.Length / num;
      MulDivCancel(num, dataShape.Dim());
      Copy(data, diff);
      FlipTrueSlots(diff, labels, num, dim);
      HingeInPlace(diff, num, dim);
    }

    /** Backward_cpu: negate each true-class slot of bottom_diff again,
        multiply every element by `scale` (the value of `Dtype(C_ / num)`),
        and return `asum(bottom_diff) / num * C_`. */
    method Backward(dataShape: Shape, labels: array<real>, diff: array<real>, scale: real)
      returns (loss: real)
      requires dataShape.num > 0 && diff.Length == dataShape.Count() && diff != labels
      requires ClassLabelsOk(labels[..], dataShape.num, dataShape.Dim())
      modifies diff
      ensures diff[..] == Scaled(scale, Flip(old(diff[..]), labels[..], dataShape.num, dataShape.Dim()))
      ensures loss == Loss(diff[..], dataShape.num, C)
    {
      var num := dataShape.num;
      var dim := diff.Length / num;
      MulDivCancel(num, dataShape.Dim());
      FlipTrueSlots(diff, labels, num, dim);
      Scale(scale, diff);
      var asum := CpuAsum(diff);
      loss := PerSample(asum, num, C);
    }
  }
}
