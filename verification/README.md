# Caffe loss layers (SODLT tracker copy), modelled in Dafny

This project models the seven loss and metric layers of the Caffe copy bundled
with the SODLT tracker, in `loss_layer.cpp`. Each layer reads a prediction blob
and a label blob, both flat row-major buffers addressed as `i * dim + j`.

- **MultinomialLogisticLossLayer**: writes `-1 / max(p, kLOG_THRESHOLD) / num` into each sample's true-class slot of a zeroed gradient.
- **InfogainLossLayer**: overwrites every slot with `-H[label][j] / max(p, kLOG_THRESHOLD) / num`. `H` is a square matrix read at set-up.
- **EuclideanLossLayer**: keeps `pred - target` in its own scratch buffer, returns half the mean squared distance, and writes the difference divided by `num`.
- **AccuracyLayer**: predicts each row's first strictly greater maximum and counts hits. It writes the hit fraction and the mean `-log(max(p_label, kLOG_THRESHOLD))` to its top blob. It ends at LOG(FATAL) when exactly one of the two dump files is configured.
- **L2HingeLossLayer**:
  - forward: copies the predictions, negates each true-class slot and applies `max(0, 1 + v)`;
  - backward: negates the true-class slots again, scales by `C_ / num` and returns `asum / num * C_`.
- **MultiLabelLogisticLossLayer**: overwrites every element with `max(sigmoid(x), kLOG_THRESHOLD) - [label == 1]`.
- **VOCLossLayer**: zeroes the gradient and writes only the diagonal slots `(i * dim + j) * dim + j`, each with `(p - [label == 1]) / num / dim`.

Each layer is a Dafny module. The buffer helpers from Caffe's math functions (`memset`, `caffe_copy`, `caffe_sub`, `caffe_cpu_dot`, `caffe_axpby`, `caffe_scal`, `caffe_cpu_asum`) are methods of `MathFunctions`, each specified by its effect on every element. `LossCommon` holds what the layers share:
- blob shapes and `kLOG_THRESHOLD`;
- the clamp, the `static_cast<int>` of a label and the sigmoid;
- finite sums and the row-major index arithmetic.

How the code is modelled:
- Buffers the code writes are `array<real>`, changed in place by methods with `for` loops. Every method is proved against a specification function on sequences: its `ensures` says the final buffer equals `Gradient(...)` or `Margins(...)`, and the returned scalar equals `Loss(...)`. Lemmas then prove what the layer promises about those functions.
- The reference definitions, which the methods' `ensures` name and the lemmas reason about, are these functions, each written from what the layer computes over the whole batch rather than from its loops:
  - `MultinomialLogisticLoss`: `Gradient`, `LogTerms` and `Loss`;
  - `InfogainLoss`: `Weight`, `Gradient`, `WeightedLog`, `LogTerms` and `Loss`;
  - `EuclideanLoss`: `Difference`, `Loss` and `Gradient`;
  - `AccuracyMetric`: `Scan` and `ArgMax` (the first strictly greater maximum of a row), `Predictions`, `Matches` and `Hits`;
  - `L2HingeLoss`: `Flip`, `Hinge`, `HingeAll`, `Margins`, `Loss` and `PerSample`;
  - `MultiLabelLogisticLoss`: `Gradient`, `LogArgument`, `LogTerms` and `Loss`;
  - `VocLoss`: `GradientEntry`, `Gradient` (in closed form), `LogArgument`, `LogTerms`, `Total` and `Loss`, with `Scatter` and `ScatterRow` for the loop's order of writes.
- Layers with state of their own are classes:
  - `EuclideanLossLayer` holds the `difference_` buffer;
  - `InfogainLossLayer` holds the matrix;
  - `L2HingeLossLayer` holds `C_`.
- Arithmetic is over `real`. `log` and `exp` are parameters:
  - `LogFn` is a partial function defined on the positive reals, so every call proves its argument is positive;
  - `ExpFn` is a positive function.
- A `CHECK_EQ` in SetUp is a `SetUpOk` predicate. It is the precondition of the class constructor or of the backward method.

Where the code differs from the layers' usual description, the model follows the code:
- The multi-label gradient is not divided by `num`; only the loss is.
- The multi-label loss takes `log(p + 1e-20)` and `log(1 - p + 1e-20)` rather than clamping the argument.
- The VOC loss takes `log(p)` and `log(1 - p)` with no clamp.
- The VOC layer zeroes the whole gradient itself, with `memset`; it does not rely on the caller to do so.
- The VOC layer takes `num` and `dim` from the label blob.

## Model

| member | source | states |
|---|---|---|
| LossCommon.Shape.Dim | trackers/SODLT/external/caffe/src/caffe/layers/loss_layer.cpp:39-40 | `count / num` is the per-sample size `channels * height * width`, and `count == num * dim` |
| LossCommon.Clamp | trackers/SODLT/external/caffe/src/caffe/layers/loss_layer.cpp:17-45 | `max(p, kLOG_THRESHOLD)` is at least 1e-20 and at least `p`, and is one of the two |
| LossCommon.ToInt | trackers/SODLT/external/caffe/src/caffe/layers/loss_layer.cpp:44 | the `static_cast<int>` of a label truncates toward zero: it is within 1 of the value, on the value's side of 0 |
| LossCommon.Sigmoid | trackers/SODLT/external/caffe/src/caffe/layers/loss_layer.cpp:283 | `1 / (1 + exp(-x))` lies strictly between 0 and 1 for any positive `exp` |
| LossCommon.Probability | trackers/SODLT/external/caffe/src/caffe/layers/loss_layer.cpp:283-284 | the clamped sigmoid lies in [1e-20, 1) |
| LossCommon.AbsAll | trackers/SODLT/external/caffe/src/caffe/layers/loss_layer.cpp:253 | every element of the absolute values is non-negative and equals the input element or its negation |
| LossCommon.SumPrefixStep | trackers/SODLT/external/caffe/src/caffe/layers/loss_layer.cpp:42-46 | extending the summed prefix by one element adds that element, which is the accumulation step of every loss loop |
| MathFunctions.DotSelf | trackers/SODLT/external/caffe/src/caffe/layers/loss_layer.cpp:119-120 | a buffer's dot product with itself is non-negative, and zero exactly when every element is zero |
| MathFunctions.FillZero | trackers/SODLT/external/caffe/src/caffe/layers/loss_layer.cpp:41 | `memset` leaves every element 0 |
| MathFunctions.Copy | trackers/SODLT/external/caffe/src/caffe/layers/loss_layer.cpp:227 | `caffe_copy` leaves the destination equal to the source |
| MathFunctions.Subtract | trackers/SODLT/external/caffe/src/caffe/layers/loss_layer.cpp:117-118 | `caffe_sub` writes `y[k] = a[k] - b[k]` at every index |
| MathFunctions.CpuDot | trackers/SODLT/external/caffe/src/caffe/layers/loss_layer.cpp:119-120 | `caffe_cpu_dot` returns the sum of the element-wise products |
| MathFunctions.Axpby | trackers/SODLT/external/caffe/src/caffe/layers/loss_layer.cpp:122-123 | `caffe_axpby` writes `y[k] = alpha * x[k] + beta * old y[k]` at every index |
| MathFunctions.Scale | trackers/SODLT/external/caffe/src/caffe/layers/loss_layer.cpp:252 | `caffe_scal` multiplies every element by `alpha` |
| MathFunctions.CpuAsum | trackers/SODLT/external/caffe/src/caffe/layers/loss_layer.cpp:253 | `caffe_cpu_asum` returns the sum of absolute values, which is non-negative |
| MultinomialLogisticLoss.SetUpOk | trackers/SODLT/external/caffe/src/caffe/layers/loss_layer.cpp:20-29 | the accepted shapes have two bottom blobs with one label per sample |
| MultinomialLogisticLoss.GradientAt | trackers/SODLT/external/caffe/src/caffe/layers/loss_layer.cpp:41-47 | row `i`, column `j` of the gradient is `-1 / max(p, 1e-20) / num` at the true class and 0 elsewhere, and the index is in bounds |
| MultinomialLogisticLoss.GradientRow | trackers/SODLT/external/caffe/src/caffe/layers/loss_layer.cpp:41-47 | in row `i`, the slot `i * dim + label[i]` is in bounds and holds `-1 / max(p, 1e-20) / num`, and every other slot of the row is 0 |
| MultinomialLogisticLoss.GradientSupport | trackers/SODLT/external/caffe/src/caffe/layers/loss_layer.cpp:41-47 | every gradient entry is at most 0, and it is non-zero exactly at the true-class slot of its row |
| MultinomialLogisticLoss.LossNonNegative | trackers/SODLT/external/caffe/src/caffe/layers/loss_layer.cpp:42-49 | the loss is non-negative when the inputs are at most 1 and log is non-positive on (0, 1] |
| MultinomialLogisticLoss.LossZeroWhenCertain | trackers/SODLT/external/caffe/src/caffe/layers/loss_layer.cpp:42-49 | the loss is 0 when every true-class probability is 1 and log 1 = 0 |
| MultinomialLogisticLoss.BackwardStep | trackers/SODLT/external/caffe/src/caffe/layers/loss_layer.cpp:43-48 | one iteration completes row `i` of the gradient and extends the accumulated loss by sample `i`'s log term |
| MultinomialLogisticLoss.Backward | trackers/SODLT/external/caffe/src/caffe/layers/loss_layer.cpp:33-50 | bottom_diff ends equal to the gradient, whatever it held before, and the result is the summed `-log(max(p, 1e-20))` divided by `num` |
| InfogainLoss.SetUpOk | trackers/SODLT/external/caffe/src/caffe/layers/loss_layer.cpp:58-70 | the multinomial shape checks hold, and the matrix blob is one square matrix, so its count is height² |
| InfogainLoss.WeightAt | trackers/SODLT/external/caffe/src/caffe/layers/loss_layer.cpp:87-91 | at row `i`, column `j`, the weight applied is `H[label_i * dim + j]`, an index inside the matrix |
| InfogainLoss.GradientAt | trackers/SODLT/external/caffe/src/caffe/layers/loss_layer.cpp:89-91 | entry `i * dim + j` of the gradient is `-H[label_i][j] / max(p, 1e-20) / num`, and its loss term is `H[label_i][j] * log(max(p, 1e-20))` |
| InfogainLoss.IdentityGainIsMultinomial | trackers/SODLT/external/caffe/src/caffe/layers/loss_layer.cpp:86-94 | with the identity matrix, the gradient and the loss are exactly those of the multinomial logistic layer |
| InfogainLoss.WriteStep | trackers/SODLT/external/caffe/src/caffe/layers/loss_layer.cpp:91 | writing `-weight / prob / num` at slot `k` extends the overwritten prefix of bottom_diff by that slot |
| InfogainLoss.LossStep | trackers/SODLT/external/caffe/src/caffe/layers/loss_layer.cpp:90 | subtracting `weight * log(prob)` extends the accumulated loss by slot `k`'s term |
| InfogainLoss.InfogainLossLayer.constructor | trackers/SODLT/external/caffe/src/caffe/layers/loss_layer.cpp:56-71 | SetUp stores the matrix blob and its shape once the shape checks pass |
| InfogainLoss.InfogainLossLayer.WriteSlot | trackers/SODLT/external/caffe/src/caffe/layers/loss_layer.cpp:89-91 | one inner iteration overwrites slot `k` with its gradient entry and extends the loss by that slot's term |
| InfogainLoss.InfogainLossLayer.BackwardSample | trackers/SODLT/external/caffe/src/caffe/layers/loss_layer.cpp:87-92 | the inner loop overwrites the `dim` slots of row `i` with the gradient and extends the loss by those slots' terms |
| InfogainLoss.InfogainLossLayer.BackwardBatch | trackers/SODLT/external/caffe/src/caffe/layers/loss_layer.cpp:85-93 | the nested loops leave bottom_diff equal to the gradient, whatever it held before, and return the negated sum of the weighted log terms |
| InfogainLoss.InfogainLossLayer.Backward | trackers/SODLT/external/caffe/src/caffe/layers/loss_layer.cpp:75-95 | given the matrix side equals `dim`, bottom_diff ends equal to the gradient with no stale entry, and the result is the loss |
| EuclideanLoss.SetUpOk | trackers/SODLT/external/caffe/src/caffe/layers/loss_layer.cpp:101-107 | accepted blobs have the same shape, hence the same count |
| EuclideanLoss.LossZeroIffEqual | trackers/SODLT/external/caffe/src/caffe/layers/loss_layer.cpp:119-120 | the loss is non-negative, and it is 0 exactly when the prediction equals the target |
| EuclideanLoss.GradientZeroIffEqual | trackers/SODLT/external/caffe/src/caffe/layers/loss_layer.cpp:122-123 | the gradient is 0 everywhere exactly when the prediction equals the target |
| EuclideanLoss.LossIsHalfGradientDot | trackers/SODLT/external/caffe/src/caffe/layers/loss_layer.cpp:119-123 | the loss equals half the inner product of the gradient with the difference |
| EuclideanLoss.EuclideanLossLayer.constructor | trackers/SODLT/external/caffe/src/caffe/layers/loss_layer.cpp:99-110 | SetUp allocates a fresh scratch buffer of the prediction's count |
| EuclideanLoss.EuclideanLossLayer.Backward | trackers/SODLT/external/caffe/src/caffe/layers/loss_layer.cpp:113-125 | the scratch buffer holds `pred - target`, bottom_diff is overwritten with `difference / num`, and the result is `<difference, difference> / num / 2` |
| AccuracyMetric.SetUpOk | trackers/SODLT/external/caffe/src/caffe/layers/loss_layer.cpp:130-136 | the accepted shapes have two bottom blobs with one label per sample |
| AccuracyMetric.ScanInvariant | trackers/SODLT/external/caffe/src/caffe/layers/loss_layer.cpp:165-184 | after `n` values, the scan holds either the initial `(0, -FLT_MAX)` or the first maximum of the prefix, and no scanned value exceeds `maxval` |
| AccuracyMetric.ArgMaxIsFirstMax | trackers/SODLT/external/caffe/src/caffe/layers/loss_layer.cpp:165-184 | the predicted class is the lowest index of the row's maximum, or 0 when no value exceeds -FLT_MAX |
| AccuracyMetric.Matches | trackers/SODLT/external/caffe/src/caffe/layers/loss_layer.cpp:190-192 | the hit count over `n` samples is at most `n` |
| AccuracyMetric.AccuracyInUnitInterval | trackers/SODLT/external/caffe/src/caffe/layers/loss_layer.cpp:198 | `accuracy / num` lies in [0, 1] |
| AccuracyMetric.ArgMaxOfRow | trackers/SODLT/external/caffe/src/caffe/layers/loss_layer.cpp:165-184 | the inner loop returns the class the strict-`>` scan predicts for the row |
| AccuracyMetric.HitStep | trackers/SODLT/external/caffe/src/caffe/layers/loss_layer.cpp:190-192 | counting sample `i`'s hit extends the hit count by that sample |
| AccuracyMetric.LogStep | trackers/SODLT/external/caffe/src/caffe/layers/loss_layer.cpp:193-195 | subtracting `log(max(p_label, 1e-20))` extends the summed log terms by sample `i` |
| AccuracyMetric.ForwardSample | trackers/SODLT/external/caffe/src/caffe/layers/loss_layer.cpp:162-196 | one sample extends both the hit count and the summed log terms by that sample |
| AccuracyMetric.Tally | trackers/SODLT/external/caffe/src/caffe/layers/loss_layer.cpp:156-196 | the loop returns the batch's hit count and the negated sum of its true-class log probabilities |
| AccuracyMetric.Forward | trackers/SODLT/external/caffe/src/caffe/layers/loss_layer.cpp:141-206 | the call is fatal exactly when one dump file is configured without the other, and then top is unchanged; otherwise `top[0]` is hits / `num` and `top[1]` the multinomial loss |
| L2HingeLoss.SetUpOk | trackers/SODLT/external/caffe/src/caffe/layers/loss_layer.cpp:211-212 | the accepted blob lists have two bottom blobs |
| L2HingeLoss.HingeAll | trackers/SODLT/external/caffe/src/caffe/layers/loss_layer.cpp:231-235 | `max(0, 1 + v)` on every element gives a buffer of the same length whose entries are all non-negative |
| L2HingeLoss.Margins | trackers/SODLT/external/caffe/src/caffe/layers/loss_layer.cpp:227-235 | every margin the forward pass leaves is non-negative |
| L2HingeLoss.TrueSlotOfRow | trackers/SODLT/external/caffe/src/caffe/layers/loss_layer.cpp:229 | within row `i`, the only negated slot is `i * dim + label[i]` |
| L2HingeLoss.FlipInvolutive | trackers/SODLT/external/caffe/src/caffe/layers/loss_layer.cpp:229-250 | negating the true-class slots twice, once in each pass, restores the buffer |
| L2HingeLoss.MarginAt | trackers/SODLT/external/caffe/src/caffe/layers/loss_layer.cpp:227-235 | each margin is `max(0, 1 - x)` at the true class and `max(0, 1 + x)` elsewhere, and is at least 0 |
| L2HingeLoss.BackwardSigns | trackers/SODLT/external/caffe/src/caffe/layers/loss_layer.cpp:249-251 | after the second negation, the true-class slots are at most 0 and every other slot is at least 0 |
| L2HingeLoss.LossNonNegative | trackers/SODLT/external/caffe/src/caffe/layers/loss_layer.cpp:253 | the returned loss is non-negative when `C_` is |
| L2HingeLoss.AbsSumAfterForward | trackers/SODLT/external/caffe/src/caffe/layers/loss_layer.cpp:249-253 | run after the forward pass, the absolute sum of the backward buffer is `abs(scale)` times the sum of the margins |
| L2HingeLoss.NegateSlotsAt | trackers/SODLT/external/caffe/src/caffe/layers/loss_layer.cpp:228-230 | negating a list of distinct in-range slots negates exactly the listed slots |
| L2HingeLoss.TrueSlotsIncreasing | trackers/SODLT/external/caffe/src/caffe/layers/loss_layer.cpp:228-230 | the slots `i * dim + label[i]` the loop visits are in bounds and strictly increasing |
| L2HingeLoss.TrueSlotMembership | trackers/SODLT/external/caffe/src/caffe/layers/loss_layer.cpp:229 | an index is one the loop visits exactly when it is its row's true-class slot |
| L2HingeLoss.NegateSlotsIsFlip | trackers/SODLT/external/caffe/src/caffe/layers/loss_layer.cpp:228-230 | negating the visited slots one by one gives the buffer with every true-class slot negated |
| L2HingeLoss.FlipTrueSlots | trackers/SODLT/external/caffe/src/caffe/layers/loss_layer.cpp:228-230 | the sample loop negates exactly the `num` true-class slots and leaves the rest unchanged |
| L2HingeLoss.HingeInPlace | trackers/SODLT/external/caffe/src/caffe/layers/loss_layer.cpp:231-235 | the nested loop replaces every element `v` with `max(0, 1 + v)` |
| L2HingeLoss.HingeRow | trackers/SODLT/external/caffe/src/caffe/layers/loss_layer.cpp:232-234 | the inner loop applies the hinge to the `dim` elements of one row and leaves the rest as they were |
| L2HingeLoss.L2HingeLossLayer.constructor | trackers/SODLT/external/caffe/src/caffe/layers/loss_layer.cpp:209-215 | SetUp sets `C_` to 1 |
| L2HingeLoss.L2HingeLossLayer.Forward | trackers/SODLT/external/caffe/src/caffe/layers/loss_layer.cpp:218-237 | bottom_diff ends equal to the margins of a fresh copy of the data |
| L2HingeLoss.L2HingeLossLayer.Backward | trackers/SODLT/external/caffe/src/caffe/layers/loss_layer.cpp:240-254 | bottom_diff becomes `scale` times the old buffer with its true-class slots negated, and the result is `asum / num * C_` |
| MultiLabelLogisticLoss.SetUpOk | trackers/SODLT/external/caffe/src/caffe/layers/loss_layer.cpp:257-265 | the accepted shapes have two bottom blobs with the same `num` |
| MultiLabelLogisticLoss.LogArgument | trackers/SODLT/external/caffe/src/caffe/layers/loss_layer.cpp:290 | the argument passed to `log` is greater than 1e-20 |
| MultiLabelLogisticLoss.GradientSign | trackers/SODLT/external/caffe/src/caffe/layers/loss_layer.cpp:283-285 | every gradient entry lies in (-1, 1) and is negative exactly when its label is 1 |
| MultiLabelLogisticLoss.ElementStep | trackers/SODLT/external/caffe/src/caffe/layers/loss_layer.cpp:285-290 | the value written at `k` is the gradient entry, and subtracting its log extends the loss by element `k` |
| MultiLabelLogisticLoss.WriteElement | trackers/SODLT/external/caffe/src/caffe/layers/loss_layer.cpp:281-290 | one inner iteration overwrites element `k` with its gradient entry and extends the loss by that element's term |
| MultiLabelLogisticLoss.BackwardSample | trackers/SODLT/external/caffe/src/caffe/layers/loss_layer.cpp:280-291 | the inner loop overwrites the `dim` elements of one sample and extends the loss by their terms |
| MultiLabelLogisticLoss.BackwardBatch | trackers/SODLT/external/caffe/src/caffe/layers/loss_layer.cpp:278-292 | the nested loops leave bottom_diff equal to the gradient and return the negated sum of the log terms |
| MultiLabelLogisticLoss.Backward | trackers/SODLT/external/caffe/src/caffe/layers/loss_layer.cpp:269-295 | bottom_diff ends equal to `max(sigmoid(x), 1e-20) - [label == 1]` at every element, with no division by `num`, and the result is the loss divided by `num` |
| VocLoss.SetUpOk | trackers/SODLT/external/caffe/src/caffe/layers/loss_layer.cpp:298-306 | the accepted shapes have one data row per label: data `num` equals the label count |
| VocLoss.SourceIndices | trackers/SODLT/external/caffe/src/caffe/layers/loss_layer.cpp:322-326 | the code's `i * dim + j` and `(i * dim + j) * dim + j` are the label index and the diagonal slot of the model |
| VocLoss.SlotBound | trackers/SODLT/external/caffe/src/caffe/layers/loss_layer.cpp:322-326 | every label index is below `num * dim` and every diagonal slot below `num * dim * dim` |
| VocLoss.LogArgument | trackers/SODLT/external/caffe/src/caffe/layers/loss_layer.cpp:332 | the unclamped argument `p` or `1 - p` passed to `log` lies strictly between 0 and 1 |
| VocLoss.ScatterUntouched | trackers/SODLT/external/caffe/src/caffe/layers/loss_layer.cpp:318-334 | past the first `num * dim * dim` slots, bottom_diff stays zero |
| VocLoss.ScatterIsGradient | trackers/SODLT/external/caffe/src/caffe/layers/loss_layer.cpp:318-334 | zero-filling and then writing every label's diagonal slot, sample by sample, gives exactly the closed-form gradient |
| VocLoss.GradientAtSlot | trackers/SODLT/external/caffe/src/caffe/layers/loss_layer.cpp:322-326 | the gradient at `(i * dim + j) * dim + j` is `(p - [label == 1]) / num / dim`, and it is negative exactly when the label is 1 |
| VocLoss.EntrySign | trackers/SODLT/external/caffe/src/caffe/layers/loss_layer.cpp:326 | a written entry is negative exactly when its label is 1 |
| VocLoss.NonZeroOnlyAtSlots | trackers/SODLT/external/caffe/src/caffe/layers/loss_layer.cpp:318-326 | a non-zero gradient entry is at the diagonal slot of some label |
| VocLoss.RowNonPositive | trackers/SODLT/external/caffe/src/caffe/layers/loss_layer.cpp:332 | the log terms of one sample sum to at most 0 when log is non-positive on (0, 1) |
| VocLoss.LossNonNegative | trackers/SODLT/external/caffe/src/caffe/layers/loss_layer.cpp:332-336 | the returned loss is non-negative when log is non-positive on (0, 1) |
| VocLoss.WriteEntry | trackers/SODLT/external/caffe/src/caffe/layers/loss_layer.cpp:321-332 | one inner iteration writes label `j`'s entry at its slot and extends the loss by its term |
| VocLoss.BackwardSample | trackers/SODLT/external/caffe/src/caffe/layers/loss_layer.cpp:321-333 | the inner loop writes the `dim` labels of sample `i` and extends the loss by that sample's terms |
| VocLoss.BackwardBatch | trackers/SODLT/external/caffe/src/caffe/layers/loss_layer.cpp:320-334 | on a zeroed buffer, the nested loops write every label's slot and return the negated total of the log terms |
| VocLoss.Backward | trackers/SODLT/external/caffe/src/caffe/layers/loss_layer.cpp:310-337 | given a data count of at least `num * dim * dim`, bottom_diff ends equal to the gradient: diagonal entries `(p - [label == 1]) / num / dim` and zero elsewhere. The result is the loss divided by `num` only |

## Left out

- The dump files of AccuracyLayer::Forward_cpu are I/O and are not modelled. This covers opening, writing the thresholded values and the labels, closing, and the `Caffe::phase()` test that gates the writes. Only the both-or-neither check on the two file names is kept.
- `ReadProtoFromBinaryFile` and `FromProto` read the information-gain matrix from a file. The model takes the matrix and its shape as constructor parameters.
- `LOG(INFO)` output, `INSTANTIATE_CLASS`, and the unused `top` and `propagate_down` parameters are not modelled.
- A failing `CHECK_EQ` aborts the process. The model makes each check a precondition instead.
- The code never checks that a label, cast to an integer, is a class index below `dim`. The multinomial, accuracy and hinge layers read bottom_data or bottom_diff at `i * dim + label` with it, and the infogain layer reads row `label` of the matrix, at `label * dim + j`. The model requires it (`ClassLabelsOk`).
- The code never checks that the batch is non-empty. With `num == 0`, the integer division `count() / num` that computes `dim` (loss_layer.cpp lines 40, 83, 161, 225, 246, 276 and 317) divides by zero, and the Euclidean layer divides by `num` directly (lines 120 and 122). Every forward and backward method of the model requires `num > 0` instead.
- The code never checks the sizes the multi-label and VOC layers rely on. The model requires that the multi-label label count covers the data, and that the VOC data holds at least `num * dim * dim` values.
- IEEE single and double precision are not modelled; arithmetic is exact over the reals. Rounding, overflow, infinities and NaN are out of scope. So is the float edge case where `p` rounds to 1, making `log(1 - p)` in the VOC layer diverge.
- `FLT_MAX` is the exact real `340282346638528859811704183484516925440`. A row whose values are all at or below `-FLT_MAX` predicts class 0, which `ArgMaxIsFirstMax` states.
- `log` and `exp` are uninterpreted parameters. The loss-sign lemmas therefore require what they need of `log`: non-positive on (0, 1] or (0, 1), and `log 1 = 0`.
- The bodies of Caffe's math-function helpers are not part of this model. The methods in `MathFunctions` realise only the element-wise effect the layers rely on.
- L2HingeLoss.L2HingeLossLayer.Backward: the scale `Dtype(C_ / num)` is a parameter. The declaration of `C_` is not part of this model; if `C_` is an integer, `C_ / num` is integer division and the scale is 0 for `num > 1`.
- MultiLabelLogisticLoss.Backward: the loss-sign property is not stated. Its log arguments exceed 1e-20 but can reach `1 + 1e-20`, so the loss can be slightly negative.
- EuclideanLoss.EuclideanLossLayer.Backward: the `Reshape` of the scratch buffer is modelled as allocating a fresh array of the prediction's count. Blob memory reuse is not modelled.
