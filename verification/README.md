# Supervised-learning models: a Dafny model of their discrete core

The repository defines four models in `src/models.py`:

- a perceptron;
- a regressor for real functions;
- a digit classifier;
- a recurrent language classifier.

Each is trained by a gradient-descent loop on top of an autodiff library, `nn`.
This project models the exact, discrete layer under the floating-point numerics.
That layer has four parts.

- **The perceptron** (`Perceptron`). Weights and points are rows of exact reals. The model covers:
  - the prediction, where a zero score goes to +1;
  - the update `w += y * x`;
  - the `agg_mse` bookkeeping of a pass;
  - the exit of the `while` loop.
- **Shape algebra** (`Nn`, and `Run` / `GetLoss` in each model). Every `nn` primitive is
  described only by the shape of the node it builds. A shape mismatch is an `Err`, the
  same way the engine raises a shape error. The forward passes are compositions of these
  primitives over the declared parameter shapes. The recurrent pass is a fold whose hidden
  state is a two-state slot, `Unbound` or `Bound`.
- **Parameter updates** (`Tensors`). Parameter values and gradients are exact real
  matrices. `Parameter.update(direction, multiplier)` is the pure function `Update`.
- **Training bookkeeping** (`Train`, `RunBatches`, `Pass`, `Step` in each model). Gradients,
  batch losses and validation accuracies are opaque inputs, one record per batch. The model
  states four things:
  - which parameters each step updates;
  - whether the stop check comes before or after the updates;
  - how the regressor's best-ever loss evolves;
  - how the digit classifier's accuracy-keyed rate schedule behaves.

The unbounded `while` loops are modelled over a finite sequence of passes given by the
caller. Each pass holds the batches that one `dataset.iterate_once` call would yield.
Running out of passes is reported as its own outcome, so no lemma depends on the loop
terminating.

Modules: `Nn` (nn.dfy), `Tensors` (tensors.dfy), `Training` (training.dfy: the shared
`Outcome`, `Exit`, `Flatten` and the generic pass loop `RunWhile`), `Perceptron`,
`Regression`, `DigitClassification` and `LanguageId`. The last four are one file each.

### Behaviour of the code worth noting

- **Digit classifier, output layer.** The training step does not request gradients for
  `w5` and `b5` (`src/models.py:242-252`) and never updates them, so they keep their
  initial values (`DigitClassification.FinalLayerFrozen`).
- **Language classifier, order of operations.** The loop reads the validation accuracy
  before it calls `nn.gradients` (`src/models.py:370-373`). A batch whose accuracy is above
  0.90 returns before any update, and that is what the model states.
- **Regressor, stop condition.** The loop runs `while min_loss > 0.00005`, so it also stops
  when the best loss equals 0.00005 exactly.
- **Perceptron, label handling.** Labels are compared as `int(as_scalar(y))`, which
  truncates toward zero. The update adds the raw label `as_scalar(y)`. The model keeps
  both (`Perceptron.Truncate`, `Perceptron.Step`).

## Model

| member | source | states |
|---|---|---|
| `Perceptron.RunShape` | src/models.py:16-33 | the score node `DotProduct(w, x)` of a `1 x d` weight is a single number, readable by `as_scalar`, exactly when `x` is `1 x d`; any other point is a shape error |
| `Perceptron.Predict` | src/models.py:35-47 | the prediction is +1 or -1, and it is +1 exactly when `w . x >= 0`, so a zero score predicts +1 |
| `Perceptron.Truncate` | src/models.py:60-61 | `int(...)` of the label truncates toward zero: the result lies within 1 of the label, on the zero side |
| `Perceptron.Step` | src/models.py:59-62 | a correctly classified example leaves `w` unchanged; a misclassified one sets every entry to `w[i] + y * x[i]` |
| `Perceptron.MistakeMovesScore` | src/models.py:59-62 | after the update for a misclassified example, its score is `w.x + y*(x.x)` |
| `Perceptron.SquaredError` | src/models.py:60 | the example's term `(int(y) - prediction)^2` of `agg_mse` is never negative, and it is zero exactly when the example is correctly classified |
| `Perceptron.Pass` | src/models.py:57-62 | a pass keeps the weight width and accumulates a nonnegative `agg_mse` |
| `Perceptron.PassOne` | src/models.py:57-62 | a pass over one example leaves the weights that example's update gives and records that example's squared error |
| `Perceptron.PassAppend` | src/models.py:57-62 | a pass over `xs + ys` is a pass over `xs` followed by a pass over `ys` from the weights `xs` left, with `agg_mse` the sum of the two; with `PassOne`, every example's update is applied once, in order, to the weights the earlier examples left |
| `Perceptron.AggMseCountsMistakes` | src/models.py:55-62 | with labels in {+1, -1}, `agg_mse` after a pass is 4 times the number of misclassified examples |
| `Perceptron.CleanPassHasNoMistakes` | src/models.py:56-62 | a pass ends with `agg_mse == 0` exactly when it makes no mistakes, for any labels |
| `Perceptron.CleanPassIsFixedPoint` | src/models.py:55-62 | `agg_mse == 0` after a pass exactly when the starting weights classify every example of the pass correctly, and then the pass leaves the weights unchanged |
| `Perceptron.MistakeMovesScoreTowardLabel` | src/models.py:59-62 | for a misclassified example with a ±1 label, the update moves the score by `x . x` toward the label, never away from it |
| `Perceptron.Train` | src/models.py:49-62 | at least one pass runs (`agg_mse` starts at 1); the final weights are exactly those the passes run leave, and they classify every example of the last pass correctly |
| `Perceptron.ExitsAtFirstCleanPass` | src/models.py:54-62 | the loop exits after the first pass that ends with `agg_mse == 0` and after no other: every earlier pass, and every pass of a run that runs out, ends with `agg_mse > 0` |
| `Perceptron.LastPassIsFixedPoint` | src/models.py:55-62 | the pass that ends the loop leaves the weights it started from, and those weights classify every example of that pass correctly |
| `Perceptron.ConvergesIffSomePassHasNoMistakes` | src/models.py:54-62 | `train` converges exactly when some pass, started from the weights the earlier passes left, misclassifies no example |
| `Perceptron.MislabelledOriginNeverConverges` | src/models.py:35-62 | with no bias the origin scores zero and predicts +1, so passes that contain the origin labelled -1 are never clean and the loop never exits |
| `Perceptron.XorNeverConverges` | src/models.py:54-62 | when every pass yields the four XOR examples in any order, no pass is clean, so the loop never exits |
| `Training.RunWhile` | src/models.py:54-62 | `while keep(s): s := body(s, next pass)` over the passes given: every pass it runs started with the condition true, it stops at the first state where the condition is false, a run that runs out of passes had the condition true throughout, and the final state is the one the passes run leave; the perceptron (`while agg_mse != 0`) and the regressor (`while min_loss > 0.00005`, lines 127-153) are both this loop |
| `Nn.LayerShape` | src/models.py:100-103 | a layer `AddBias(Linear(x, w), b)`, with or without ReLU, succeeds exactly when `w` accepts `x`'s width and `b` is a `1 x` row of `w`'s output width, and maps `k x n` to `k x m` |
| `Tensors.Update` | src/models.py:144-151 | `update(g, a)` moves every entry by `a` times the matching gradient entry and keeps the parameter's shape |
| `Tensors.DotAxpy` | src/models.py:62 | moving a row along a direction changes its dot product with any `x` linearly |
| `Tensors.UpdateAdditive` | src/models.py:144-151 | `update(g, a)` followed by `update(g, b)` equals `update(g, a + b)` |
| `Regression.Run` | src/models.py:75-104 | with the declared shapes (widths 5, 20, 5), `run` maps `k x 1` to `k x 1`, and any other input width is a shape error |
| `Regression.GetLoss` | src/models.py:106-118 | the square loss is a single number exactly when the input is `k x 1` and the targets are `k x 1` |
| `Regression.Min` | src/models.py:153 | the new `min_loss` is finite, at most the batch loss and the old value, and equal to one of them |
| `Regression.Step` | src/models.py:144-151 | updating all eight parameters keeps every declared shape |
| `Regression.Pass` | src/models.py:130-153 | after a pass the best loss is at most every batch loss and the previous best, and equals one of them; the parameters keep their shapes |
| `Regression.PassOne` | src/models.py:130-153 | a pass over one batch applies that batch's own gradients to all eight parameters and lowers `min_loss` to at most its loss |
| `Regression.PassAppend` | src/models.py:130-153 | a pass over `xs + ys` is a pass over `xs` followed by a pass over `ys`; with `PassOne`, every batch applies its own gradients once, in order, whatever the other batches carry |
| `Regression.PassIgnoresLosses` | src/models.py:130-153 | the losses control nothing inside a pass: the same gradients give the same parameters, whatever the losses |
| `Regression.RepeatedGradient` | src/models.py:130-151 | a pass of `n` batches carrying the same gradients moves each of the eight parameters by `n * -0.001` times its gradient, whatever the losses |
| `Regression.Train` | src/models.py:120-153 | the loop checks only between passes: it runs a pass exactly while the best loss is above 0.00005 and stops at the first state where it is at most 0.00005; the final state is the one the passes run leave; the best loss never rises; from `inf`, at least one pass runs |
| `Regression.BestNeverRises` | src/models.py:127-153 | after any number of full passes, the best loss is at most the best loss the run started with |
| `DigitClassification.Run` | src/models.py:174-214 | with the declared shapes (784 to 200, 100, 30, 15, 10), `run` maps `k x 784` to `k x 10`, and any other input width is a shape error |
| `DigitClassification.GetLoss` | src/models.py:216-231 | the softmax loss is a single number exactly when the input is `k x 784` and the labels are `k x 10` |
| `DigitClassification.SelectRate` | src/models.py:254-267 | the selector stops exactly when accuracy is above 0.973; otherwise it returns a negative rate no smaller than -0.55 |
| `DigitClassification.Scan` | src/models.py:256-267 | scanning a (threshold, rate) table returns the floor rate or one of the table's rates, and the floor when the accuracy exceeds no threshold |
| `DigitClassification.ScanMonotone` | src/models.py:256-267 | in a table with falling thresholds and growing rate magnitudes, a higher accuracy never gets a larger magnitude |
| `DigitClassification.SelectRateIsTableScan` | src/models.py:256-267 | the nested conditionals equal the stop check followed by a scan of the table (0.970: -0.005, 0.960: -0.05, 0.750: -0.1, 0.450: -0.5, else -0.55) |
| `DigitClassification.RateNeverGrowsWithAccuracy` | src/models.py:256-267 | for `lo <= hi`: if `lo` stops then `hi` stops, and if `hi` gets a rate then `lo` gets one of at least the same magnitude |
| `DigitClassification.ThresholdsAreStrict` | src/models.py:256-267 | an accuracy equal to a threshold falls to the next rate, so 0.973 gives -0.005, not stop |
| `DigitClassification.SampleAccuracies` | src/models.py:256-267 | accuracies 0.20, 0.80, 0.965, 0.972 and 0.975 give -0.55, -0.1, -0.05, -0.005 and stop |
| `DigitClassification.Step` | src/models.py:242-252 | a step keeps all declared shapes and leaves `w5` and `b5` as they were |
| `DigitClassification.RunBatches` | src/models.py:240-276 | the batch loop stops exactly when some batch's accuracy is above 0.973, and parameters keep their shapes |
| `DigitClassification.SelectedRatesAddUp` | src/models.py:240-276 | batches that do not stop and carry the same gradients move `w1` to `b4` by the sum of the rates the selector picks for their accuracies times the gradients, and leave `w5` and `b5` unchanged |
| `DigitClassification.FinalLayerFrozen` | src/models.py:242-276 | whatever the batches, `w5` and `b5` end as they began |
| `DigitClassification.StopsBeforeUpdating` | src/models.py:254-276 | on the first batch above 0.973, training returns the parameters left by the earlier batches; that batch's gradients are never applied |
| `DigitClassification.ContinueAfter` | src/models.py:240-276 | training on `xs + ys` is training on `xs`, then, unless that stopped, on `ys` |
| `DigitClassification.PassesAreOneSequence` | src/models.py:239-276 | the `while True` over passes behaves like one loop over all their batches in order |
| `DigitClassification.Train` | src/models.py:233-276 | `train` keeps the declared shapes, and `w5` and `b5` are never changed |
| `LanguageId.RecurShape` | src/models.py:334-338 | from a bound `k x 100` hidden state, the recurrence succeeds exactly on elements that are all `k x 47`, and then leaves a `k x 100` hidden state |
| `LanguageId.Run` | src/models.py:334-341 | `run` succeeds exactly on a word of at least one character whose elements are all `k x 47`; it returns `k x 5` whatever the length; an empty word leaves `z` unbound |
| `LanguageId.GetLoss` | src/models.py:343-358 | the softmax loss is a single number exactly when `run` succeeds and the labels are `k x 5` |
| `LanguageId.HiddenStateAfterEachElement` | src/models.py:334-338 | after `i` elements of a well-formed word the hidden slot is unbound when `i` is 0 and `k x 100` after that |
| `LanguageId.HiddenWeightUsedFromSecondElement` | src/models.py:334-338 | a one-character word runs with any shape of `W_hidden`, and a longer word runs only with the declared `100 x 100`, so only the first element skips the `W_hidden` term |
| `LanguageId.Step` | src/models.py:373-383 | updating all four parameters keeps every declared shape |
| `LanguageId.RunBatches` | src/models.py:368-383 | the batch loop stops exactly when some batch's accuracy is above 0.90, and parameters keep their shapes |
| `LanguageId.StopsBeforeUpdating` | src/models.py:370-383 | on the first batch above 0.90, training returns the parameters left by the earlier batches, before that batch's updates |
| `LanguageId.RepeatedGradient` | src/models.py:365-383 | `n` non-stopping batches with the same gradients move each of the four parameters by `n * -0.01` times its gradient, so each batch applies each gradient exactly once |
| `LanguageId.Train` | src/models.py:360-383 | `train` keeps the declared shapes and stops exactly when some batch of some pass has accuracy above 0.90 |
| `LanguageId.ContinueAfter` | src/models.py:368-383 | training on `xs + ys` is training on `xs`, then, unless that stopped, on `ys` |
| `LanguageId.PassesAreOneSequence` | src/models.py:364-383 | the `while True` over passes behaves like one loop over all their batches in order |

## Left out

- Numeric values of the `nn` primitives are not modelled: ReLU outputs, square and softmax losses, gradients and `as_scalar` values. They are floating-point, and the library is not part of this model. Primitives are modelled by shape only. Losses, gradients and accuracies enter training as opaque inputs.
- The `nn` shape contracts are assumed: `Linear` maps `(r x k, k x c)` to `r x c`. `AddBias` needs a `1 x c` bias. `Add` needs equal shapes. `ReLU` keeps the shape. `DotProduct(features, weights)` needs a `1 x d` weight row and gives one score per row. The losses need equal shapes and produce one number, written as a `1 x 1` node.
- Floating point is replaced by exact reals. The thresholds 0.973, 0.970, 0.960, 0.750, 0.450 and 0.90 and all rates are exact decimals. A float comparison with their binary approximations could differ at the last bit.
- Parameter initialisation (`nn.Parameter`) is random and foreign. Initial values are arbitrary inputs of the declared shape.
- `dataset.iterate_once` and `get_validation_accuracy` are left out. Batches and accuracies are inputs. The batch-partition property of the iterator (N/B disjoint batches) belongs to the dataset and is not modelled.
- Termination of the unbounded `while` loops is not modelled. Convergence of the perceptron on separable data and the regressor reaching its loss target are also left out. Every loop runs over a finite, caller-supplied sequence of passes.
- The regressor's `np.inf` is the `Infinite` case of `Regression.BestLoss`.
- `PerceptronModel.get_weights` only returns the parameter and is not modelled.
- `LanguageIDModel.languages` (the language names) is modelled only by its length, 5.
- Perceptron.Pass: the points are required to have the weight row's width. A point of another width makes `nn.DotProduct` raise a shape error. That case is modelled only at shape level, by `Perceptron.RunShape`.
- Perceptron.Body, Regression.Body: the loop body is made total. A pass whose points or gradients do not have the declared widths raises a shape error in the engine; here it leaves the state as it is. `Train` never runs such a pass, because its requires rules them out.
- Regression.Step, DigitClassification.Step, LanguageId.Step: gradients are required to have their parameters' shapes, as `nn.gradients` promises. The shape assertion inside `Parameter.update` therefore never fires. The partial state left by a failed update is not modelled.
- DigitClassification.RunBatches, LanguageId.RunBatches: when the gradients are computed relative to the accuracy check is not modelled. Computing gradients changes no parameter, so the order has no effect here.
- Regression.Step: the contract states only that every declared shape is kept. The entrywise effect of each of the eight updates is the contract of `Tensors.Update`. What a pass of steps does to the parameters is stated by `Regression.PassOne` and `Regression.PassAppend` for any gradients, and in closed form by `Regression.RepeatedGradient` for batches that carry the same gradients.
- DigitClassification.Step: the contract states that the shapes are kept and that `w5` and `b5` do not change. The entrywise effect on `w1` to `b4` is left to `Tensors.Update`. The rate a run of batches applies is stated by `DigitClassification.SelectedRatesAddUp`, for batches that carry the same gradients.
