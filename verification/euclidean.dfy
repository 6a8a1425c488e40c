/**
 * EuclideanLossLayer: the loss is half the mean squared distance between the
 * prediction and the target, `sum_k (pred[k] - target[k])^2 / num / 2`, and the
 * gradient is the difference divided by `num`. The layer keeps the difference
 * in a scratch buffer of its own between the two steps.
 */
module EuclideanLoss {
  import opened LossCommon
  import opened MathFunctions

  /** The shape checks of SetUp: two bottom blobs of one shape, no top blob. */
  predicate SetUpOk(bottom: seq<Shape>, topCount: nat): (ok: bool)
    ensures ok ==> |bottom| == 2 && bottom[0].Count() == bottom[1].Count()
  {
    |bottom| == 2 && topCount == 0 &&
    bottom[0].num == bottom[1].num && bottom[0].channels == bottom[1].channels &&
    bottom[0].height == bottom[1].height && bottom[0].width == bottom[1].width
  }

  /** The element-wise difference `pred - target`. */
  function Difference(pred: seq<real>, target: seq<real>): (d: seq<real>)
    requires |pred| == |target|
    ensures |d| == |pred|
  {
    seq(|pred|, k requires 0 <= k < |pred| => pred[k] - target[k])
  }

  /** The value Backward_cpu returns. */
  function Loss(pred: seq<real>, target: seq<real>, num: nat): real
    requires |pred| == |target| && num > 0
  {
    Dot(Difference(pred, target), Difference(pred, target)) / num as real / 2.0
  }

  /** The gradient Backward_cpu leaves in bottom_diff: `(1 / num) * difference`. */
  function Gradient(pred: seq<real>, target: seq<real>, num: nat): (g: seq<real>)
    requires |pred| == |target| && num > 0
    ensures |g| == |pred|
  {
    seq(|pred|, k requires 0 <= k < |pred| => 1.0 / num as real * Difference(pred, target)[k])
  }

  /** The loss is non-negative, and it is zero exactly when the prediction
      equals the target element by element. */
  lemma LossZeroIffEqual(pred: seq<real>, target: seq<real>, num: nat)
    requires |pred| == |target| && num > 0
    ensures Loss(pred, target, num) >= 0.0
    ensures Loss(pred, target, num) == 0.0 <==> pred == target
  {
    var d := Difference(pred, target);
    DotSelf(d);
    var n := num as real;
    assert Loss(pred, target, num) == Dot(d, d) / n / 2.0;
    if pred == target {
      assert forall k | 0 <= k < |d| :: d[k] == 0.0;
    }
    if Loss(pred, target, num) == 0.0 {
      assert Dot(d, d) == 0.0;
      forall k | 0 <= k < |pred| ensures pred[k] == target[k] {
        assert d[k] == 0.0;
      }
    }
  }

  /** The gradient vanishes exactly when the prediction equals the target. */
  lemma GradientZeroIffEqual(pred: seq<real>, target: seq<real>, num: nat)
    requires |pred| == |target| && num > 0
    ensures (forall k | 0 <= k < |pred| :: Gradient(pred, target, num)[k] == 0.0) <==> pred == target
  {
    var g := Gradient(pred, target, num);
    var d := Difference(pred, target);
    var c := 1.0 / num as real;
    assert forall k | 0 <= k < |pred| :: g[k] == c * d[k];
    if forall k | 0 <= k < |pred| :: g[k] == 0.0 {
      forall k | 0 <= k < |pred| ensures pred[k] == target[k] {
        FactorZero(c, d[k]);
      }
    }
    if pred == target {
      forall k | 0 <= k < |pred| ensures g[k] == 0.0 {
        assert d[k] == 0.0;
      }
    }
  }

  /** A product with a positive factor is zero only when the other factor is. */
  lemma FactorZero(c: real, x: real)
    requires c > 0.0 && c * x == 0.0
    ensures x == 0.0
  {
  }

  /** The loss is half the inner product of the gradient with the difference:
      `loss = <grad, pred - target> / 2`. */
  lemma LossIsHalfGradientDot(pred: seq<real>, target: seq<real>, num: nat)
    requires |pred| == |target| && num > 0
    ensures Loss(pred, target, num) == Dot(Gradient(pred, target, num), Difference(pred, target)) / 2.0
  {
    var d := Difference(pred, target);
    var g := Gradient(pred, target, num);
    var c := 1.0 / num as real;
    var sq := Products(d, d);
    var gd := Products(g, d);
    forall k | 0 <= k < |d| ensures gd[k] == c * sq[k] {
      assert gd[k] == (c * d[k]) * d[k];
    }
    SumScaled(sq, gd, c);
    assert Dot(d, d) / num as real == c * Dot(d, d);
  }

  class EuclideanLossLayer {
    /** difference_: the scratch buffer holding `pred - target`. */
    var difference: array<real>

    /** SetUp: checks the shapes and sizes the scratch buffer like the
        prediction blob. */
    constructor (bottom: seq<Shape>, topCount: nat)
      requires SetUpOk(bottom, topCount)
      ensures fresh(difference) && difference.Length == bottom[0].Count()
    {
      difference := new real[bottom[0].Count()];
    }

    /** Backward_cpu: difference := pred - target; loss := <difference,
        difference> / num / 2; bottom_diff := (1 / num) * difference + 0 *
        bottom_diff. */
    method Backward(predShape: Shape, pred: array<real>, target: array<real>, diff: array<real>)
      returns (loss: real)
      requires predShape.num > 0 && pred.Length == predShape.Count()
      requires target.Length == pred.Length && diff.Length == pred.Length
      requires difference.Length == pred.Length
      requires difference != pred && difference != target && difference != diff
      requires diff != pred && diff != target
      modifies difference, diff
      ensures difference[..] == Difference(pred[..], target[..])
      ensures diff[..] == Gradient(pred[..], target[..], predShape.num)
      ensures loss == Loss(pred[..], target[..], predShape.num)
    {
      var num := predShape.num;
      ghost var p, t := pred[..], target[..];
      Subtract(pred, target, difference);
      ghost var d := difference[..];
      assert d == Difference(p, t);
      var dot := CpuDot(difference, difference);
      loss := dot / num as real / 2.0;
      Axpby(1.0 / num as real, difference, 0.0, diff);
      forall k | 0 <= k < diff.Length ensures diff[k] == Gradient(p, t, num)[k] {
        assert difference[k] == d[k];
      }
      assert diff[..] == Gradient(p, t, num);
    }
  }
}
