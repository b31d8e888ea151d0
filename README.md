# neuroforge CPU training core, modelled in Dafny

This project models the CPU core of neuroforge, a small C library for training
feed-forward neural networks:

- the strided matrix type and its routines (`src/matrix.c`);
- the activation functions and losses (`src/activations/activation.c`);
- the dense and dropout layers (`src/layers/dense.c`, `src/layers/dropout.c`);
- the layer chain with its forward pass, backward pass, compile step, training
  step and teardown (`src/network.c`);
- the SGD, Adam and RMSProp optimizers (`src/optimizers/*.c`);
- the binary model format and the checkpoint files (`src/serialization.c`).

Modules, one per part of the library:

| module | file | what it holds |
|---|---|---|
| `Numeric` | numeric.dfy | scalar facts; the C math library as a record of functions (`Libm`) and the laws the proofs use (`Lawful`) |
| `Grids` | grids.dfy | matrices as values (`seq<seq<real>>`): the specifications `Product`, `Transposed`, `ZipGrid`, `MapGrid`, `SumAll` and the facts about them |
| `Matrices` | matrix.dfy | the `Matrix` class (a shared `array<real>` with offset, rows, cols and stride, so views alias their parent) and every matrix routine as a method proved against `Grids` |
| `Activations` | activation.dfy | the activation kinds and their names, the pointwise functions, softmax, the derivative pass and the three losses |
| `Layers` | layers.dfy | the `Layer` class with the dense and dropout forward, backward, update and free functions |
| `Optimizers` | optimizers.dfy | the `Optimizer` class: the four parallel lists bound at compile time and the three update rules |
| `Networks` | network.dfy | the `Network` class: the chain of layers as a sequence, with every pass of `network.c` |
| `Serialization` | serialization.dfy | the files as the sequence of values handed to `fwrite`, the reader with its checks, and the round trip |

State the C code updates in place is modelled as classes with `modifies` clauses:
matrices, layers, the network and the optimizer. Each method is proved against a
value-level function: `Matrix.Elems()` for a matrix, `Layer.Snapshot()` for a
layer, `Network.Stages()` and `Run` for a chain, and `Optimizer.EntryAt(k)` for a
bound (parameter, gradient, m, v) entry. What a layer keeps from its forward pass
for its backward pass (the input copy and the pre-activation values) is
`Layer.Remembered()`; `MemosFrom` says that every layer of a chain keeps what the
forward pass of given stages on a given input left it. The pure parts are functions and lemmas:
name lookup, activations, losses as values and the file format.

Behaviour of the source that the model keeps as written:

- `matrix_copy` with mismatched shapes writes nothing (the release build, where
  its `assert` is compiled out).
- `network_backward` therefore gives every hidden layer a fresh matrix of its own
  output's shape. The copies are chained from the output layer back: layer k
  holds the output layer's gradient only when its output shape and those of all
  later layers agree, and zeros as soon as one copy on the way does not match
  (output shapes r×3, r×5, r×3 give layer 0 zeros). See `Handed`, `Incoming`,
  `IncomingIsSeed` and `IncomingMismatch`. No layer's `grad_input` is passed on.
- RMSProp's "restore" steps turn a gradient g into |g|/√(1−decay), not back into
  g. The parameter step uses that value (`RestoredGradientIsMagnitude`).
- `network_deserialize` stops at any tag other than dense, conv2d and rnn, so a
  saved dropout layer makes the file unloadable (`DropoutNotLoadable`).
- The SGD optimizer ignores its momentum; `network_compile`'s L2 factor is
  stored but never read.

Where the prose description of the library and the code disagree, the model
follows the code. `layer.h` lacks the `grad_input`, `mask` and `is_training`
fields that `dense.c` and `dropout.c` use; the model has them.

## Model

| member | source | states |
|---|---|---|
| `Numeric.Abs` | src/matrix.c:246-260 | the absolute value is non-negative and is x or −x (the `fabsf` of matrix_equal) |
| `Numeric.SquareSign` | src/activations/activation.c:198-205 | a squared difference is never negative, and it is zero exactly at zero |
| `Numeric.Pow` | src/optimizers/adam.c:12-13 | powf with a whole exponent: for a base in [0, 1) and exponent ≥ 1 the power is in [0, 1), so 1 − β^t is never zero |
| `Numeric.PowOne` | src/optimizers/adam.c:10-13 | at the first step (t = 1) the bias-correction power is the rate itself |
| `Numeric.NonNegSquareUnique` | src/matrix.c:270-276 | two non-negative numbers with the same square are equal: sqrtf has one possible value |
| `Numeric.SqrtOfPositive` | src/matrix.c:270-276 | the root of a positive number is positive and squares back to it |
| `Numeric.SqrtOfScaledSquare` | src/optimizers/rmsprop.c:16-21 | sqrt(g²·c) = \|g\|·sqrt(c), the step RMSProp's restoration takes |
| `Grids.DotCommutes` | src/matrix.c:181-184 | the inner-product loop gives the same value with its arguments swapped |
| `Grids.TransposeTwice` | src/matrix.c:190-199 | transposing twice gives the original matrix back |
| `Grids.TransposeOfProduct` | src/matrix.c:166-199 | (AB)ᵀ = BᵀAᵀ for the product and transpose that matrix_multiply and matrix_transpose compute |
| `Grids.ProductExample` | tests/text_matrix.c:74-86 | the 2×3 by 3×2 product in the matrix test is [[58, 64], [139, 154]] |
| `Grids.AddThenSubtract` | src/matrix.c:110-137 | matrix_add then matrix_subtract of the same b restores a |
| `Grids.ScaleThenUnscale` | src/matrix.c:150-156 | scaling by s and then by 1/s (s ≠ 0) restores the matrix |
| `Grids.ShiftThenUnshift` | src/matrix.c:158-164 | adding a scalar and then its negation restores the matrix |
| `Grids.WithinZeroIsEquality` | src/matrix.c:246-260 | matrix_equal with tolerance 0 is exact equality |
| `Grids.FlattenFromFlat` | src/matrix.c:262-268 | reading a row-major buffer into a matrix and flattening it back is the identity |
| `Grids.FlattenSize` | src/matrix.c:262-268 | the flat buffer of an r×c matrix has r·c values |
| `Grids.ReductionExample` | tests/text_matrix.c:104-114 | the test matrix 1..6 sums to 21, with maximum 6 and minimum 1 |
| `Matrices.Matrix.constructor` | src/matrix.c:16-34 | matrix_create: a fresh zero-filled r×c matrix that owns its buffer, with stride = cols |
| `Matrices.Matrix.View` | src/matrix.c:36-49 | matrix_view: shares the parent's buffer and stride, element (i, j) is the parent's (r0+i, c0+j), its values are that sub-matrix |
| `Matrices.Matrix.Contiguous` | src/matrix.c:16-34 | when stride = cols the elements lie row-major from the offset |
| `Matrices.Matrix.ContiguousFlat` | src/matrix.c:262-268 | a contiguous matrix's values are its flat buffer read row-major |
| `Matrices.Free` | src/matrix.c:51-67 | matrix_free releases the buffer exactly when the matrix is not a view |
| `Matrices.Copy` | src/matrix.c:69-80 | with equal shapes dst's values become src's; otherwise dst is untouched; nothing outside dst's cells changes |
| `Matrices.Fill` | src/matrix.c:82-88 | every element becomes the value |
| `Matrices.RandomUniform` | src/matrix.c:90-96 | each element is min + (max − min)·draw for the rand()/RAND_MAX draws passed in |
| `Matrices.UniformWithinBounds` | src/matrix.c:90-96 | draws in [0, 1] give values in [min, max] |
| `Matrices.Add` | src/matrix.c:110-126 | a becomes a + b element by element; b, when it is another matrix, is unchanged |
| `Matrices.Subtract` | src/matrix.c:128-137 | a becomes a − b element by element; b, when it is another matrix, is unchanged |
| `Matrices.MultiplyElementwise` | src/matrix.c:139-148 | a becomes a ⊙ b element by element (a ⊙ a squares it); b, when it is another matrix, is unchanged |
| `Matrices.Scale` | src/matrix.c:150-156 | every element is multiplied by the scalar |
| `Matrices.AddScalar` | src/matrix.c:158-164 | the scalar is added to every element |
| `Matrices.Sqrt` | src/matrix.c:270-276 | every element becomes its square root |
| `Matrices.RowTimesColumn` | src/matrix.c:181-184 | the inner loop returns the dot product of row i of a and column j of b |
| `Matrices.ProductRow` | src/matrix.c:179-187 | one pass of the row loop writes row i of the product and nothing else |
| `Matrices.Multiply` | src/matrix.c:166-188 | c holds the matrix product of a and b |
| `Matrices.Transpose` | src/matrix.c:190-199 | dst holds the transpose of src |
| `Matrices.Sum` | src/matrix.c:201-209 | returns the sum of all elements |
| `Matrices.Max` | src/matrix.c:211-221 | returns an element that no element exceeds |
| `Matrices.Min` | src/matrix.c:223-233 | returns an element that no element is below |
| `Matrices.Equal` | src/matrix.c:246-260 | true exactly when the shapes agree and every pair of elements differs by at most the tolerance |
| `Matrices.FromArray` | src/matrix.c:262-268 | an existing matrix (any stride, views included) takes values[i·cols + j] at (i, j); nothing outside its cells changes |
| `Activations.FromString` | src/activations/activation.c:224-231 | returns the index of the first name that matches, and ACTIVATION_NONE (0) when none does; always a valid code |
| `Activations.LookupFromFinds` | src/activations/activation.c:224-231 | the search stops at the first matching name |
| `Activations.LookupFromMisses` | src/activations/activation.c:224-231 | a name matching none of the table gives 0 |
| `Activations.NamesDistinct` | src/activations/activation.c:6-9 | the eleven names are pairwise different |
| `Activations.Name` | src/activations/activation.c:217-222 | the name is one of the table's names exactly when the code is in range; any other code gets a name outside the table |
| `Activations.NameRoundTrip` | src/activations/activation.c:217-231 | from_string(get_name(a)) = a for every valid code; an out-of-range code names "unknown", which reads back as 0 |
| `Activations.SigmoidOf` | src/activations/activation.c:13-17 | sigmoid lies strictly between 0 and 1 |
| `Activations.Pointwise` | src/activations/activation.c:11-102 | the value `activate` writes: softmax and none leave it; sigmoid lies in (0, 1); relu is non-negative and keeps positive values |
| `Activations.DerivativeFactor` | src/activations/activation.c:104-185 | the factor `activate_derivative` multiplies by: 1 for softmax and none; in (0, 1/4] for sigmoid; 1 above zero for relu and leaky relu, 0 at or below zero for relu |
| `Activations.ReluExample` | tests/test_layers.c:134-138 | relu of [-1, 0, 1, 2] is [0, 0, 1, 2] |
| `Activations.ReluIdempotent` | src/activations/activation.c:19-23 | relu is non-negative and applying it twice changes nothing |
| `Activations.PiecewiseLinear` | src/activations/activation.c:113-130 | relu and leaky relu are their derivative factor times x, the factor being 1 above zero and 0 or 0.01 below |
| `Activations.ReluMask` | src/activations/activation.c:113-117 | relu's backward pass keeps the gradient where the output is positive and zeroes it elsewhere |
| `Activations.LeakyReluInvertible` | src/activations/activation.c:235-237 | leaky relu with a positive slope is a bijection with an explicit inverse, and keeps the sign |
| `Activations.ExponentialUnitsBounded` | src/activations/activation.c:239-247 | elu stays above −α and selu above −scale·α |
| `Activations.SumOfPositives` | src/activations/activation.c:31-54 | a non-empty sum of positive exponentials is positive and bounds each term |
| `Activations.NormalizeSumsToOne` | src/activations/activation.c:49-51 | dividing a row by its non-zero sum makes it sum to 1 |
| `Activations.NormalizeIsDistribution` | src/activations/activation.c:31-54 | normalised positive values each lie in (0, 1] and sum to 1 |
| `Activations.SoftmaxIsDistribution` | src/activations/activation.c:31-54 | every softmax row is a probability distribution: entries in (0, 1], sum 1 |
| `Activations.SeqMaxShift` | src/activations/activation.c:35-45 | shifting a row by c shifts its maximum by c |
| `Activations.SoftmaxShiftInvariant` | src/activations/activation.c:31-54 | softmax is unchanged when a constant is added to the whole row, which is why subtracting the row maximum is safe |
| `Activations.SegmentMax` | src/activations/activation.c:35-41 | the loop finds the maximum of the row |
| `Activations.SegmentExp` | src/activations/activation.c:43-47 | the row becomes exp(x − max) element by element, and the sum returned is their sum; nothing else changes |
| `Activations.SegmentDivide` | src/activations/activation.c:49-51 | the row is divided by its sum; nothing else changes |
| `Activations.SoftmaxRow` | src/activations/activation.c:33-52 | one pass of the row loop leaves softmax of the row in it and touches nothing else |
| `Activations.SoftmaxRows` | src/activations/activation.c:31-54 | every row becomes its softmax; nothing outside the matrix's cells changes |
| `Activations.SegmentMap` | src/activations/activation.c:11-102 | the flat loop applies the pointwise function to every value |
| `Activations.SegmentBackprop` | src/activations/activation.c:104-185 | the flat loop multiplies every gradient value by the derivative factor at the matching activation value |
| `Activations.Activate` | src/activations/activation.c:11-102 | softmax works row by row; the pointwise kinds map the r·c values from the offset; `none` changes nothing; for a contiguous matrix the values become the activation of the old values |
| `Activations.MapFromFlat` | src/activations/activation.c:11-102 | mapping the flat buffer is the same as mapping the matrix element by element |
| `Activations.FlatBackprop` | src/activations/activation.c:104-185 | the pointwise derivative pass over the flat buffers, as a value |
| `Activations.ActivateDerivative` | src/activations/activation.c:104-185 | for pointwise kinds grad is multiplied by the derivative factor; softmax and none leave grad untouched; for contiguous operands the result is `Backprop` of the grids |
| `Activations.BackpropFromFlat` | src/activations/activation.c:104-185 | the flat derivative pass is the grid one |
| `Activations.RowCrossEntropy` | src/activations/activation.c:190-195 | the inner loop sums −t·log(o + 1e-10) over row i |
| `Activations.CrossEntropyLoss` | src/activations/activation.c:187-196 | the loss is the sum of −t·log(o + 1e-10) over all elements, divided by the number of rows |
| `Activations.MseLoss` | src/activations/activation.c:198-205 | the loss is the mean of the squared differences over the r·c flat values |
| `Activations.SquaresNonNegative` | src/activations/activation.c:198-205 | the sum of squared errors is non-negative and zero exactly when output equals target |
| `Activations.MseProperties` | src/activations/activation.c:198-205 | the mean squared error is non-negative, and zero if and only if output equals target |
| `Activations.BinaryCrossEntropyLoss` | src/activations/activation.c:207-215 | the loss is the mean of −y·log(ŷ + 1e-10) − (1 − y)·log(1 − ŷ + 1e-10) over the flat values |
| `Layers.TypeTag` | src/layers/layer.h:6-14 | the layer kinds get the enum values 0..6 |
| `Layers.XavierLimit` | src/layers/dense.c:127-129 | the Xavier bound is non-negative and its square is 6/(in + out) |
| `Layers.TransposedRow` | src/layers/dense.c:58-67 | row i of xᵀ is column i of x |
| `Layers.TransposeProductEntry` | src/layers/dense.c:58-67 | entry (i, j) of xᵀ·g is the dot product of columns i of x and j of g |
| `Layers.DropMask` | src/layers/dropout.c:17-33 | one mask value per draw; each is 0 or the keep scale (`DropoutOutcomes`) |
| `Layers.Dropped` | src/layers/dropout.c:17-33 | one output per input; each is 0 or the input times the keep scale, and it equals the input times the mask (`DropoutOutcomes`, `DroppedIsMasked`) |
| `Layers.DroppedIsMasked` | src/layers/dropout.c:17-33 | the dropout output is the input times the stored mask |
| `Layers.DropoutOutcomes` | src/layers/dropout.c:17-33 | each value is either dropped (mask 0, output 0) or kept and scaled by 1/(1 − rate) |
| `Layers.HalfRateOnOnes` | tests/test_layers.c:160-175 | with rate 0.5 every output of an all-ones input is 0 or 2 |
| `Layers.LinearOutput` | src/activations/activation.c:97-100 | activation code 0 leaves the dense output as the affine map |
| `Layers.SgdFromFlat` | src/layers/dense.c:83-97 | the flat update loop is the SGD step on the grid |
| `Layers.DenseUpdateIsSgd` | src/layers/dense.c:83-97 | dense_update is the SGD entry step: w − lr·g, with the gradient cleared |
| `Layers.AddBias` | src/layers/dense.c:24-29 | the bias row is added to every row of the output |
| `Layers.AddBiasRow` | src/layers/dense.c:24-29 | one pass adds the bias to row i only |
| `Layers.ColumnTimesColumn` | src/layers/dense.c:58-67 | the inner loop returns the dot product of two columns |
| `Layers.TransposeRow` | src/layers/dense.c:58-67 | one pass writes row i of xᵀ·g only |
| `Layers.TransposeTimes` | src/layers/dense.c:58-67 | grad_weights becomes input ᵀ · gradient |
| `Layers.ColumnSum` | src/layers/dense.c:70-76 | one pass writes the sum of column i only |
| `Layers.ColumnSumsInto` | src/layers/dense.c:70-76 | grad_biases becomes the column sums of the gradient |
| `Layers.FlatSgd` | src/layers/dense.c:83-97 | the parameter becomes p − lr·g |
| `Layers.DropoutLoop` | src/layers/dropout.c:17-33 | output holds the dropped input and mask the mask drawn from the coin values |
| `Layers.MaskLoop` | src/layers/dropout.c:41-53 | the gradient becomes the incoming gradient times the mask |
| `Layers.StageOutput` | src/layers/dense.c:8-42 | what one layer computes on an argument has rows × the layer's output columns |
| `Layers.Filled` | src/layers/dense.c:127-135 | a fresh owned matrix with every value set |
| `Layers.Drawn` | src/layers/dense.c:127-129 | fresh weights uniform in [−limit, limit] from the draws |
| `Layers.CopyOf` | src/layers/dense.c:10-13 | a fresh owned copy of the argument |
| `Layers.AffineInto` | src/layers/dense.c:16-29 | out becomes x·W + b |
| `Layers.ActivateKeeping` | src/layers/dense.c:32-41 | the pre-activation is kept in the cache and the output becomes its activation |
| `Layers.DenseCompute` | src/layers/dense.c:16-41 | out = act(x·W + b), and the cache holds x·W + b when there is an activation |
| `Layers.DenseGradients` | src/layers/dense.c:49-76 | grad_weights = inputᵀ·g′ and grad_biases = column sums of g′, g′ being the gradient through the activation |
| `Layers.DropoutCompute` | src/layers/dropout.c:17-37 | with a mask, output and mask as DropoutLoop; without, a plain copy |
| `Layers.PushDistinct` | src/layers/dense.c:100-109 | releasing a new buffer keeps the released list free of repeats |
| `Layers.Release` | src/layers/dense.c:100-109 | one matrix_free of an owned matrix appends its buffer, still without repeats |
| `Layers.Layer.Snapshot` | src/layers/layer.h:16-56 | the layer's settings, mode and parameter values that its forward pass depends on |
| `Layers.Layer.DenseLayer` | src/layers/dense.c:112-144 | dense_layer: weights uniform in ±Xavier limit, biases 0.1, zero gradients, no caches, not training |
| `Layers.Layer.DropoutLayer` | src/layers/dropout.c:72-88 | dropout_layer: the rate, no parameters, no caches, training on |
| `Layers.Layer.EnsureOutput` | src/layers/dense.c:16-18 | the output buffer is reused when present and created otherwise, with the output shape |
| `Layers.Layer.KeepInput` | src/layers/dense.c:10-13 | the input cache becomes a fresh copy of the argument |
| `Layers.Layer.EnsureCache` | src/layers/dense.c:32-36 | the pre-activation cache exists, reused when present |
| `Layers.Layer.EnsureMask` | src/layers/dropout.c:17-20 | the mask buffer exists, reused when present |
| `Layers.Layer.PrepareDense` | src/layers/dense.c:8-18 | the buffers dense_forward needs, reused or fresh |
| `Layers.Layer.DenseForward` | src/layers/dense.c:8-42 | output = act(x·W + b); the cache holds x·W + b when there is an activation; input is a fresh copy of x |
| `Layers.Layer.LocalGradient` | src/layers/dense.c:49-55 | the gradient through the activation keeps the gradient's shape |
| `Layers.Layer.DenseBackward` | src/layers/dense.c:45-80 | without a forward pass nothing changes; otherwise grad_weights = inputᵀ·g′ and grad_biases = column sums of g′ |
| `Layers.Layer.DenseUpdate` | src/layers/dense.c:83-97 | weights and biases take one SGD step with their gradients, which become zero |
| `Layers.Layer.PrepareDropout` | src/layers/dropout.c:7-20 | the buffers dropout_forward needs, reused or fresh |
| `Layers.Layer.DropoutForward` | src/layers/dropout.c:7-38 | in training with a positive rate: dropped output and mask; otherwise the output is a copy of the input |
| `Layers.Layer.DropoutBackward` | src/layers/dropout.c:41-53 | with an input and a mask, grad_input = incoming gradient times mask; otherwise nothing changes |
| `Layers.Layer.ParamsOutsideForward` | src/layers/dense.c:8-42 | the forward pass never writes the weights or biases |
| `Layers.Layer.Forward` | src/layers/layer.h:16-56 | layer->forward: the output is the layer's stage applied to the argument, and the layer's parameters and settings are unchanged |
| `Layers.Layer.Backward` | src/layers/layer.h:16-56 | layer->backward: afterwards the layer holds what its backward pass leaves for the gradient (`BackwardDone`), and its input copy and pre-activation cache (`Remembered`) are unchanged |
| `Layers.Layer.Update` | src/layers/dense.c:83-97 | dense: one SGD step and zeroed gradients; dropout (dropout.c:56-60): nothing to update |
| `Layers.Layer.FreeReleasesAll` | src/layers/dense.c:100-109 | the free order lists exactly the buffers the layer holds |
| `Layers.Layer.FreeOrderDistinct` | src/layers/dropout.c:63-69 | no buffer is released twice |
| `Layers.Layer.DenseFreeDistinct` | src/layers/dense.c:100-109 | dense_free releases no buffer twice |
| `Layers.Layer.DropoutFreeDistinct` | src/layers/dropout.c:63-69 | dropout_free releases no buffer twice |
| `Layers.Layer.FreeDense` | src/layers/dense.c:100-109 | releases weights, biases, their gradients and the caches in source order, each once |
| `Layers.Layer.FreeDropout` | src/layers/dropout.c:63-69 | releases input, output, mask and gradient in source order, each once |
| `Layers.Layer.Free` | src/layers/layer.h:16-56 | layer->free: the kind's free function, each buffer once |
| `Optimizers.SgdStep` | src/optimizers/sgd.c:9-14 | the SGD step keeps the shape |
| `Optimizers.MovingAverage` | src/optimizers/adam.c:22-36 | the decaying average keeps the shape |
| `Optimizers.Descent` | src/optimizers/adam.c:47-51 | the Adam/RMSProp parameter step keeps the shape |
| `Optimizers.RestoredGradient` | src/optimizers/rmsprop.c:16-21 | what the restoration leaves keeps the shape |
| `Optimizers.MovingAverageOfSquaresNonNeg` | src/optimizers/adam.c:28-36 | v and the RMSProp cache stay non-negative, so √v is defined |
| `Optimizers.RestoredValue` | src/optimizers/rmsprop.c:16-21 | the restoration turns g into \|g\|/√(1 − decay) |
| `Optimizers.RestoredGradientIsMagnitude` | src/optimizers/rmsprop.c:16-21 | element by element, the restored gradient is \|g\|/√(1 − decay), not g |
| `Optimizers.RestoredGradientExample` | src/optimizers/rmsprop.c:16-21 | with decay 0 a gradient of −1 is "restored" to 1 |
| `Optimizers.DescentMoves` | src/optimizers/adam.c:47-51 | a non-zero rate and numerator always move the parameter |
| `Optimizers.AdamRateNonZero` | src/optimizers/adam.c:12-14 | lr_t is non-zero for a non-zero learning rate and betas in [0, 1) |
| `Optimizers.AdamFirstStepMoves` | tests/test_optimizers.c:146-157 | from zero moments, the first Adam step of a value with a non-zero gradient moves it |
| `Optimizers.Corrected` | src/optimizers/adam.c:38-45 | the bias correction keeps the shape and keeps non-negative values non-negative |
| `Optimizers.SgdEntryStep` | src/optimizers/sgd.c:9-14 | the SGD step of an entry keeps it well shaped |
| `Optimizers.AdamStep` | src/optimizers/adam.c:16-56 | one Adam step of an entry keeps it ready for the next (v non-negative) and keeps the shape |
| `Optimizers.AdamParamAt` | src/optimizers/adam.c:38-51 | element (i, j) after the Adam step is p − lr_t·m̂/(√v̂ + ε) with v̂ ≥ 0 |
| `Optimizers.ZeroMomentMHat` | src/optimizers/adam.c:22-41 | from m = 0 at t = 1, m̂ is the gradient itself |
| `Optimizers.AdamFirstElementMoves` | tests/test_optimizers.c:146-157 | from a zero first moment, a value with a non-zero gradient moves at the first step (the single-update test's assertion, element by element) |
| `Optimizers.AdamFirstEntryStepMoves` | tests/test_optimizers.c:285-305 | from zero moments, the first Adam step moves every element of an entry whose gradient is non-zero |
| `Optimizers.RmsPropStep` | src/optimizers/rmsprop.c:10-31 | one RMSProp step keeps the cache non-negative and the shape |
| `Optimizers.ScaledAddIsSgdStep` | src/optimizers/sgd.c:9-14 | scaling the gradient by −lr and adding it is the SGD step |
| `Optimizers.ScaledSumIsAverage` | src/optimizers/adam.c:22-25 | scale, scale and add is the decaying average |
| `Optimizers.ScaledByZero` | src/optimizers/adam.c:55 | scaling by 0 clears a gradient |
| `Optimizers.ClearedIsZeros` | src/optimizers/sgd.c:9-14 | filling with 0 gives the zero matrix |
| `Optimizers.RestoreSteps` | src/optimizers/rmsprop.c:16-21 | the five matrix calls of the restoration compute `RestoredGradient` |
| `Optimizers.DescentFromFlat` | src/optimizers/adam.c:47-51 | the flat parameter loop is the grid step |
| `Optimizers.DescentLoop` | src/optimizers/adam.c:47-51 | p becomes p − rate·num/(√den + ε) element by element |
| `Optimizers.SgdPair` | src/optimizers/sgd.c:9-14 | p becomes p − lr·g and g becomes zero |
| `Optimizers.FirstMoment` | src/optimizers/adam.c:22-26 | m becomes β₁m + (1 − β₁)g and g is restored |
| `Optimizers.SecondMoment` | src/optimizers/adam.c:28-36 | v becomes β₂v + (1 − β₂)g² and stays non-negative |
| `Optimizers.CorrectedStep` | src/optimizers/adam.c:38-54 | p takes the step with the bias-corrected moments |
| `Optimizers.AdamPair` | src/optimizers/adam.c:16-56 | one pass of adam_update's loop: new m, new v (non-negative), p stepped with their corrections, g zero |
| `Optimizers.CacheStep` | src/optimizers/rmsprop.c:16-19 | the cache becomes d·cache + (1 − d)g² and stays non-negative |
| `Optimizers.RmsPropPair` | src/optimizers/rmsprop.c:10-31 | one pass of rmsprop_update's loop: new cache, p stepped with the restored gradient, g zero |
| `Optimizers.Zeroed` | src/network.c:52-55 | a fresh matrix filled with zeros |
| `Optimizers.Optimizer.Sgd` | src/optimizers/sgd.c:28-42 | name "sgd", the learning rate, momentum kept in beta1, ε = 1e-8, t = 0, empty lists |
| `Optimizers.Optimizer.Adam` | src/optimizers/adam.c:75-90 | name "adam", the four hyper-parameters, t = 0, empty lists |
| `Optimizers.Optimizer.RmsProp` | src/optimizers/rmsprop.c:50-64 | name "rmsprop", decay kept in beta1, ε, t = 0, empty lists |
| `Optimizers.Optimizer.ClearBindings` | src/network.c:40-43 | the four lists start empty |
| `Optimizers.Optimizer.Bind` | src/network.c:49-66 | one parameter and its gradient are appended, with fresh zero m and v of its shape |
| `Optimizers.Optimizer.Append` | src/network.c:49-66 | the four lists each grow by the given matrix |
| `Optimizers.Optimizer.BindNext` | src/network.c:46-68 | one round of the fill loop keeps the moments zero and the lists the prefix of the parameters |
| `Optimizers.Optimizer.BindAll` | src/network.c:39-70 | the lists are exactly the given parameters and gradients, with fresh zero moments |
| `Optimizers.Optimizer.Tick` | src/optimizers/adam.c:10 | t goes up by one and no entry changes |
| `Optimizers.Optimizer.SgdAt` | src/optimizers/sgd.c:9-14 | entry i takes the SGD step, the others are unchanged |
| `Optimizers.Optimizer.SgdPass` | src/optimizers/sgd.c:9-14 | every entry takes the SGD step |
| `Optimizers.Optimizer.SgdUpdate` | src/optimizers/sgd.c:6-17 | sgd_update: every entry takes the SGD step and t goes up by one |
| `Optimizers.Optimizer.AdamAt` | src/optimizers/adam.c:16-56 | entry i takes the Adam step, the others are unchanged |
| `Optimizers.Optimizer.AdamPass` | src/optimizers/adam.c:16-56 | every entry takes the Adam step and v stays non-negative |
| `Optimizers.Optimizer.MomentsOfEntries` | src/optimizers/adam.c:28-36 | non-negative v in every entry is non-negative moments |
| `Optimizers.Optimizer.EntriesOfMoments` | src/optimizers/adam.c:28-36 | and back |
| `Optimizers.Optimizer.AdamUpdate` | src/optimizers/adam.c:7-57 | adam_update: t goes up first, then every entry takes the Adam step with powers β^t and lr_t |
| `Optimizers.Optimizer.RmsPropAt` | src/optimizers/rmsprop.c:10-31 | entry i takes the RMSProp step, the others are unchanged |
| `Optimizers.Optimizer.RmsPropPass` | src/optimizers/rmsprop.c:10-31 | every entry takes the RMSProp step |
| `Optimizers.Optimizer.RmsPropUpdate` | src/optimizers/rmsprop.c:7-34 | rmsprop_update: every entry takes the RMSProp step, then t goes up |
| `Optimizers.Optimizer.RuleStep` | src/optimizers/optimizer.h:6-26 | the step of the optimizer's own rule keeps an entry well shaped with non-negative v |
| `Optimizers.Optimizer.RuleSteps` | src/optimizers/optimizer.h:6-26 | the rule applied to a list of entries gives a list as long |
| `Optimizers.Optimizer.ZeroMomentsInEntries` | src/network.c:52-64 | moments freshly bound at compile time are zero in every entry |
| `Optimizers.Optimizer.AdamFirstUpdateMoves` | tests/test_optimizers.c:285-305 | Adam's first update from zero moments moves every element with a non-zero gradient, in every bound entry |
| `Optimizers.Optimizer.Update` | src/optimizers/optimizer.h:6-26 | optimizer->update: each entry takes its rule's step, every gradient ends zero, t goes up by one, the lists are unchanged |
| `Optimizers.Optimizer.Free` | src/optimizers/adam.c:60-72 | SGD releases nothing, Adam its m and v in turn, RMSProp its v (rmsprop.c:37-47); never a parameter or gradient |
| `Optimizers.Optimizer.MomentsApart` | src/optimizers/optimizer.h:6-26 | no moment buffer shares an array with a parameter or gradient |
| `Networks.Run` | src/network.c:78-92 | the forward threading keeps the row count and gives the last stage's columns |
| `Networks.RunNext` | src/network.c:82-86 | one more layer runs on the output of the ones before it |
| `Networks.RunPassThrough` | tests/test_layers.c:177-184 | a chain of dropout layers outside training returns its input |
| `Networks.Handed` | src/network.c:109-116 | a fresh r×c matrix copied from g: g when the shapes agree, zeros otherwise |
| `Networks.HandOn` | src/network.c:111-114 | matrix_create then matrix_copy build `Handed` |
| `Networks.Incoming` | src/network.c:99-119 | the gradient layer k receives has layer k's output shape |
| `Networks.IncomingIsSeed` | src/network.c:99-119 | when all outputs have the same shape every layer receives output − target |
| `Networks.IncomingMismatch` | src/network.c:109-116 | a hidden layer whose shape differs from the next one's receives zeros |
| `Networks.GradsOf` | src/network.c:49-66 | there is one gradient per bound parameter |
| `Networks.ParamCountIsBound` | src/network.c:31-70 | the counting loop and the fill loop agree |
| `Networks.ParamsOfFull` | src/network.c:46-68 | in a chain of dense layers, layer i's weights are parameter 2i and its biases 2i + 1, each with its gradient |
| `Networks.InterleavedAppend` | src/network.c:49-66 | a dense layer extends the interleaving by its two parameters |
| `Networks.ParamsOfStep` | src/network.c:46-68 | each layer appends its weights, then its biases |
| `Networks.GradsOfStep` | src/network.c:46-68 | each layer appends the matching gradients |
| `Networks.FreedOnce` | src/network.c:169-182 | freeing the layers releases every buffer they hold, none twice |
| `Networks.ParamsUnshared` | src/network.c:46-68 | the parameters and gradients compile binds share no buffer |
| `Networks.BindChain` | src/network.c:24-72 | the optimizer is bound to exactly the chain's parameters, in chain order, with zero moments |
| `Networks.SubtractCopy` | src/network.c:104-108 | the output becomes output − target through a copy of target |
| `Networks.ChainLoss` | src/network.c:137-167 | the cross-entropy of the chain's output for x against target, averaged over the rows: the loss network_train and network_test return (a definition; Train, Test and Evaluate are proved to return it) |
| `Networks.ChainResidual` | src/network.c:99-108 | the chain's output minus target, element by element, with the output's shape: the seed network_backward hands to the output layer |
| `Networks.Network.constructor` | src/network.c:7-11 | network_create: an empty chain with no optimizer and zero settings |
| `Networks.Network.AddLayer` | src/network.c:13-22 | the layer goes at the tail, becomes the output layer (and the input layer when first), and layer_count goes up by one |
| `Networks.Network.SetOptimizer` | src/network.c:74-76 | the optimizer is replaced |
| `Networks.Network.CountParams` | src/network.c:31-37 | the count equals the number of parameters compile binds |
| `Networks.Network.Compile` | src/network.c:24-72 | the optimizer and L2 factor are stored; the optimizer holds every parameter in chain order with zero moments, and param_count is the count |
| `Networks.Network.RunChain` | src/network.c:79-86 | the loop leaves the output layer's output holding `Run` of the input, no layer's parameters change, and every layer's input copy and pre-activation cache hold what this pass gave it (`MemosFrom`) |
| `Networks.Network.Forward` | src/network.c:78-92 | returns a fresh copy of the chain's output for x; parameters and x are untouched; every layer's input copy is what reached it from x and every activated dense layer's cache is its values before the activation (`MemosFrom`) |
| `Networks.Network.Deliver` | src/network.c:88-91 | the returned matrix is a fresh copy of the last output |
| `Networks.Network.SubtractTarget` | src/network.c:100-108 | the output layer's output becomes output − target |
| `Networks.Network.BackChain` | src/network.c:99-126 | every layer, last to first, ends as its backward pass leaves it for the gradient `Incoming` hands it; the stages and every layer's input copy and pre-activation cache are unchanged (`Memos`) |
| `Networks.Network.BackThrough` | src/network.c:99-126 | the loop carries the gradient `Incoming` from layer to layer |
| `Networks.Network.Backward` | src/network.c:94-129 | the output becomes output − target and every layer is `DoneAt` for that seed; output shapes, stages and every layer's input copy and pre-activation cache are kept (`Memos`), so `DoneAt` reads the caches of the forward pass before it |
| `Networks.Network.BackwardKeeping` | src/network.c:94-129 | as Backward, caches included, also leaving the optimizer and its moments as they were |
| `Networks.Network.Update` | src/network.c:131-135 | with an optimizer, every bound entry becomes one step of its rule, gradients end zero, t goes up; without one nothing happens; in a compiled network no layer's input copy or pre-activation cache changes |
| `Networks.Network.Step` | src/network.c:131-135 | with an optimizer, `before` is the bound entries as they were before the update, every bound entry becomes one rule step of them (`SteppedFrom`) and t goes up by one; the layers and every other buffer are untouched, and in a compiled network so are the layers' caches (`Memos`) |
| `Networks.Network.StepKeeping` | src/network.c:131-135 | as Step, also keeping the network compiled, the output unchanged and the statement that the gradients are those of the backward pass (`GradsFrom`) true of `before`, the caches (`Memos`) unchanged, and every layer's kind, sizes and activation as before (`SettledAs`) |
| `Networks.Network.SetMode` | src/network.c:138 | the training flag is set; the layers, their buffers, the optimizer, its entries and whether the network is compiled do not change |
| `Networks.Network.Evaluate` | src/network.c:156-167 | the loss is `ChainLoss` of x and target, no layer's parameters change, and the layers' caches are those of the forward pass on x (`MemosFrom`) |
| `Networks.Network.ForwardKeeping` | src/network.c:78-92 | the forward pass, leaving parameters and moments unchanged; its output is `Run` of x and the caches are those of that pass (`MemosFrom`) |
| `Networks.Network.Loss` | src/network.c:144 | cross_entropy_loss of the output copy against target |
| `Networks.Network.Test` | src/network.c:156-167 | training is off, the loss is `ChainLoss` of x and target, the parameters are unchanged and the caches are those of the forward pass on x (`MemosFrom`) |
| `Networks.Network.Learn` | src/network.c:146-150 | the backward pass then the update: every bound entry is one rule step from `before` and t goes up by one; in a compiled network `before` has the parameters and moments of the entries before the call (`SameButGrads`), its gradients are what the backward pass computes for the seed output − target (`GradsFrom`), and the output holds output − target; the caches (`Memos`) and every layer's settings (`SettledAs`) are unchanged |
| `Networks.Network.Passes` | src/network.c:140-150 | the forward pass, the loss, the backward pass and the update: the loss is `ChainLoss`, and in a compiled network the output is `ChainResidual`, `before` is as for Learn, the caches are those of the forward pass on x (`MemosFrom`), and every layer keeps its settings (`SettledAs`) |
| `Networks.Network.Train` | src/network.c:137-154 | training is on, every layer keeps its kind, sizes and activation (`SettledAs`), and the loss is `ChainLoss` of x and target; every bound entry is one rule step from `before` and t goes up by one; in a compiled network `before` holds the parameters and moments the entries had before the call, and as gradients what the backward pass seeded with output − target computes, and the output holds `ChainResidual`, and every layer's input copy and pre-activation cache are those of the forward pass on x (`MemosFrom`) |
| `Networks.Network.CachedGradients` | src/layers/dense.c:45-80 | at a dense layer whose caches are those of the forward pass of the stages on x, the weight and bias gradients dense_backward computes for any og are `ChainWeightGradient` and `ChainBiasGradient` of that pass: the caches `DoneAt` and `GradsFrom` read stand for the forward pass on x |
| `Networks.Network.GradsOfRun` | src/network.c:137-154 | where `GradsFrom` holds of entries whose layers have the settings of the stages S0 and the caches of the forward pass of S0 on X0, every bound weight or bias gradient is `ChainWeightGradient`/`ChainBiasGradient` of that pass for the gradient `Incoming` hands its layer: applied after Train, the gradients in `before` are the chain's gradients for x, target and the old stages |
| `Networks.Network.GradsDone` | src/network.c:94-129 | once every layer is done for a seed, each bound gradient of a compiled network is the weight or bias gradient its layer computed (`GradsFrom`) |
| `Networks.Network.EntriesKept` | src/network.c:140-147 | the forward and backward passes leave a compiled network compiled, and each bound entry changed at most in its gradient |
| `Networks.Network.FreeLayers` | src/network.c:169-177 | every layer's buffers are released, none twice |
| `Networks.Network.FreeOptimizer` | src/network.c:178-181 | the optimizer releases only its moments, never a layer's buffer |
| `Networks.Network.MomentsReleasedApart` | src/network.c:169-182 | no moment buffer is among the layers' released buffers |
| `Networks.Network.Free` | src/network.c:169-182 | network_free: every layer buffer released once, then the optimizer's moments, which are none of them |
| `Serialization.Floats` | src/serialization.c:49-56 | one float field per value, in order |
| `Serialization.RecordFields` | src/serialization.c:36-70 | a layer's fields: its type tag, then for a dense layer the sizes, the activation, the two shapes and the values; its layout is stated by `DenseLayout` and read back by `RecordBack` |
| `Serialization.Encode` | src/serialization.c:22-73 | a file starts with the magic, the version and the layer count, then the records; `RoundTrip` reads it back |
| `Serialization.RecordOf` | src/serialization.c:36-70 | a dense layer gives a dense record, any other kind its type tag; the record is well formed |
| `Serialization.RecordsOf` | src/serialization.c:32-73 | one record per layer, in chain order |
| `Serialization.WriteLayer` | src/serialization.c:36-70 | writes the fields of the layer's record |
| `Serialization.WriteLayers` | src/serialization.c:32-73 | writes the records of every layer in chain order |
| `Serialization.BodyNext` | src/serialization.c:32-73 | the body of k + 1 records is that of k followed by record k |
| `Serialization.Serialize` | src/serialization.c:15-76 | network_serialize writes the magic, the version, the layer count and the records |
| `Serialization.ReadLayer` | src/serialization.c:106-168 | dense reads a well-formed record; conv2d and rnn read nothing and make no layer; other tags fail |
| `Serialization.ReadDense` | src/serialization.c:113-148 | a dense record read back is well formed |
| `Serialization.ReadWeights` | src/serialization.c:120-133 | the weight shape must be in × out, else the read fails |
| `Serialization.ReadBiases` | src/serialization.c:135-148 | the bias shape must be 1 × out, else the read fails |
| `Serialization.DecodeFrom` | src/serialization.c:106-168 | at most count layers, all dense and well formed |
| `Serialization.Decode` | src/serialization.c:78-172 | a load succeeds only after the right magic and version, with well-formed dense layers |
| `Serialization.ReadAt` | src/serialization.c:106-168 | one round of the reading loop advances the decode |
| `Serialization.DecodeNext` | src/serialization.c:106-168 | one step of the loop in terms of `DecodeFrom` |
| `Serialization.Deserialize` | src/serialization.c:78-172 | network_deserialize's loop computes `Decode` |
| `Serialization.FloatsBack` | src/serialization.c:126-144 | reading back the floats written gives the values |
| `Serialization.RecordBack` | src/serialization.c:106-168 | reading a written record gives it back |
| `Serialization.DenseBack` | src/serialization.c:113-148 | reading a written dense record gives it back |
| `Serialization.WeightsBack` | src/serialization.c:120-133 | reading written weights gives them back |
| `Serialization.BiasesBack` | src/serialization.c:135-148 | reading written biases gives them back |
| `Serialization.BodyFront` | src/serialization.c:32-73 | the body starts with the first record |
| `Serialization.BodyBack` | src/serialization.c:106-168 | decoding a written body gives the expected outcome |
| `Serialization.FirstRecord` | src/serialization.c:106-168 | the first round of the loop reads the first record |
| `Serialization.RoundTrip` | src/serialization.c:15-172 | deserialize(serialize(records)) is the expected outcome: dense layers come back, conv2d/rnn are skipped, other tags fail |
| `Serialization.ExpectedDense` | src/serialization.c:113-148 | an all-dense chain loads back exactly |
| `Serialization.ExpectedDropout` | src/serialization.c:158-162 | a chain of dense and dropout layers fails exactly when it has a dropout layer, with the dropout tag as the unknown type |
| `Serialization.RecordHoldsLayer` | src/serialization.c:40-57 | a dense record holds the layer's sizes, activation and parameter values |
| `Serialization.NetworkRoundTrip` | src/serialization.c:15-172 | a network of dense layers loads back with the same sizes, activations, weights and biases |
| `Serialization.DropoutNotLoadable` | src/serialization.c:158-162 | a saved network with a dropout layer does not load back |
| `Serialization.DropoutRecords` | src/serialization.c:59-70 | a dropout layer is written as its tag alone |
| `Serialization.CName` | src/serialization.c:191 | strlen: the name up to its first NUL |
| `Serialization.SaveCheckpoint` | src/serialization.c:174-203 | the network file as Serialize, and the optimizer file with name length, name, four floats and t |
| `Serialization.Text` | src/serialization.c:230-232 | characters read back, one per field |
| `Serialization.OptimizerFields` | src/serialization.c:190-200 | the optimizer file holds the name's length as strlen counts it, that many characters that read back as the name, then four floats and t: 6 + length fields |
| `Serialization.ReadOptimizer` | src/serialization.c:226-254 | a result needs a readable name shorter than 64 characters; an Adam result needs the name "adam" and five more fields, an SGD result the name "sgd" and two more |
| `Serialization.LoadOptimizer` | src/serialization.c:226-254 | "adam" restores an Adam optimizer with t; "sgd" an SGD one; any other name leaves the optimizer as it was |
| `Serialization.LoadCheckpoint` | src/serialization.c:205-256 | the network is `Decode` of its file; when it fails the optimizer is untouched, else restored from its file |
| `Serialization.CNamePlain` | src/serialization.c:191 | a name with no NUL is its own C string |
| `Serialization.NameBack` | src/serialization.c:191-193 | the name written is read back |
| `Serialization.AdamCheckpoint` | src/serialization.c:235-246 | an Adam checkpoint reads back its four hyper-parameters and t |
| `Serialization.SgdCheckpoint` | src/serialization.c:247-253 | an SGD checkpoint reads back its learning rate and momentum |
| `Serialization.OtherCheckpoint` | src/serialization.c:234-254 | any other name restores nothing |

## Left out

- `matrix_random_normal` (src/matrix.c:98-108): a Box–Muller draw that needs `logf`, `cosf` and real randomness; nothing in the core calls it.
- `matrix_print` (src/matrix.c:235-244): console output.
- The conv2d, rnn, attention and batchnorm layers: their source files are stubs. The CUDA kernels (`src/cuda`) and the example programs are not part of this model.
- File handling in `src/serialization.c`: opening, naming and closing files; a file is modelled as the sequence of values written. The `network_save`/`network_load` wrappers (serialization.c:263-269) are `Serialize` and `Deserialize` under other names.
- float32 is modelled as `real`: rounding, overflow, NaN and infinity are not modelled. `expf`, `tanhf`, `logf` and `sqrtf` are the fields of the `Libm` record, constrained only by `Lawful` (exp > 0, sqrt is a non-negative root). The calculus of the smooth activations (sigmoid, tanh, elu, selu, swish, mish, gelu) is not proved beyond the bounds listed.
- `rand()` is modelled as draws passed in as parameters (Xavier weights, dropout coins, `RandomUniform`).
- `Matrices.Copy`: models the release build. The shape `assert` at matrix.c:70-71 is dropped and a mismatch is a no-op. This is why hidden layers receive the zero placeholder gradient (`Handed`, `Incoming`, `IncomingMismatch`).
- `Matrices.Copy`: requires `dst == src` or disjoint cells. A partial overlap of a view with its parent, which the C accepts, is not modelled.
- `Matrices.Add`, `Matrices.Subtract`, `Matrices.MultiplyElementwise`: require `a == b` or disjoint cells. A partial overlap, such as a view and its parent, is not modelled.
- `Matrices.Multiply`: requires `c` to share no buffer with `a` or `b`. The C would read cells it had already overwritten.
- `Matrices.Transpose`: requires `dst` and `src` to be different buffers, for the same reason.
- `Matrices.Max`, `Matrices.Min`: require a non-empty matrix. The C reads `data[0]` of an empty matrix.
- `Activations.CrossEntropyLoss`: requires equal shapes, equal strides (the C indexes both with the output's stride) and at least one row (the C divides by `rows`).
- `Activations.MseLoss`, `Activations.BinaryCrossEntropyLoss`: require a non-empty matrix. The C divides by rows·cols.
- `Activations.ActivateDerivative`: requires the gradient and the pre-activation to be different buffers. The C works element by element and would also be right in place; its only caller (dense.c:49-55) passes a fresh matrix.
- `Activations.Activate`, `Activations.ActivateDerivative`: the pointwise kinds require the r·c flat values from the offset to fit in the buffer. The C reads past the end otherwise.
- `Layers.XavierLimit`: gives 0 when in + out = 0, where the C computes `sqrtf(6.0f / 0)`, which is +inf. A 0×0 weight matrix draws nothing, so no layer differs.
- `Layers.Layer.Forward`: requires a contiguous argument (`stride == cols`). A view argument to dense_forward is not modelled.
- `Layers.Layer.Backward`: requires a contiguous gradient, for the same reason.
- `Layers.Layer.Accepts`: the forward pass requires the argument to fit the layer's existing buffers. A dense layer needs `cols == input_size` (matrix_multiply's assert) and the row count of an existing output. Dropout needs its existing output's shape. The C's behaviour on a mismatch is undefined.
- `Layers.Layer.DropoutForward`: requires `dropout_rate != 1.0` when dropping. With rate 1 the C divides by zero.
- `Optimizers.Optimizer.InRange`: the update requires hyper-parameters for which the rule is defined. Adam needs `0 <= beta1 < 1`, `0 <= beta2 < 1` and `epsilon > 0`. RMSProp needs `0 <= decay < 1` and `epsilon > 0`. Part of the excluded range breaks the C: β1 = 1 divides by zero at src/optimizers/adam.c:14 and :26, β2 = 1 at adam.c:45, and decay = 1 at src/optimizers/rmsprop.c:21; β2 > 1 puts a negative number under the root in lr_t (adam.c:14), and decay > 1 under the root of the squared gradient (rmsprop.c:20); β2 or decay below 0 can drive v or the cache negative before `sqrtf` (adam.c:49, rmsprop.c:25). The rest (β1 < 0 or β1 > 1, and ε ≤ 0) is well defined in the C except at isolated values (1 − β1^t = 0, or √v̂ = −ε), but is not modelled, because the proofs rely on the range. Every Adam optimizer the examples and tests build uses (0.9, 0.999, 1e-8), and none of them builds an RMSProp optimizer.
- `Networks.Network.Forward`, `Networks.Network.Test`, `Networks.Network.Evaluate`, `Networks.Network.Train`: require a contiguous input (and target) and an input that no layer holds.
- `Networks.Network.Test`, `Networks.Network.Evaluate`, `Networks.Network.Train`: require at least one row, as cross_entropy_loss does.
- `Networks.Network.Train`, `Networks.Network.Test`: set the network's training flag after the passes rather than before (network.c:138, :157). No pass reads that flag; each layer reads its own.
- `Networks.Network.Train`, `Networks.Network.Learn`: what `before` holds (the old parameters and moments, the backward pass's gradients) and the output's new value are stated only for a compiled network, where the optimizer holds exactly the chain's parameters in chain order. With an optimizer that is not bound to this chain only the rule step from `before` is stated. `DoneAt` itself is not stated after the update, because the update zeroes the gradients; `GradsFrom` states them of `before` instead, from the layers' caches, which Train states to be those of its own forward pass (`MemosFrom`); `GradsOfRun` turns that into the chain's gradients for x.
- `Networks.Network.Compile`: the L2 factor is stored and never read, as in the source.
- `Serialization.ReadDense`: fails with `BadSize` on a negative in or out size, and `Serialization.Decode` fails with `Unreadable` on a short file. The C reads garbage or hands the negative size to `dense_layer`.
- `Serialization.ReadOptimizer`: gives no optimizer for `name_len >= 64`, where the C writes past `name[64]`, and for a negative Adam `t`. It also gives none for a file too short for the name or the settings that follow it, where the C's `fread` leaves the fields unset and the values are undefined.
- `Serialization.LoadCheckpoint`: omits the `network_compile` call (serialization.c:259). The restored optimizer is not bound to the loaded network.
