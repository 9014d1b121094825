# Variational Greedy InfoMax: a verified model of the control logic

Variational Greedy InfoMax trains a stack of independent modules. Each module
has its own contrastive (InfoNCE) loss. When a module predicts distributions,
a KL regulariser to a standard normal is added. A linear probe is then trained
on a chosen layer or module of the frozen, or jointly trained, encoder.

The tensor code of the repository is PyTorch. Around it sits a small amount of
discrete decision logic and exact arithmetic, and that is what this project
models and proves:

- `Probe` (probe.dfy) models `ClassifierModel` in
  `linear_classifiers/logistic_regression.py`:
  - the validation of the probe's address `(regression, which_module, which_layer)`;
  - the dispatch to one of the encoder's four forward paths;
  - the argument-count dispatch of `_forward`;
  - detaching the representation when only the downstream task trains;
  - the parameter set `configure_optimizers` hands to the optimizer;
  - the checks at the start of `main`.
- `GreedyTraining` (greedy.dfy) models `train` and `validate` in
  `vision/main_vision.py`:
  - averaging over the data-parallel replica axis;
  - greedy selection of the one module whose loss is back-propagated;
  - the per-module epoch accumulators;
  - the validation averages.
- `Latent` (latent.dfy) models `IndependentModule` in `models/independent_module.py`:
  - the `[B, C, L]` to `[B, L, C]` transpose;
  - the reparameterisation with the noise as an argument;
  - `get_latents`;
  - the `predict_distributions` gating of `forward`;
  - the reduction of the KL term;
  - the loss combination.
- `Radio` (radio.dfy) models `data/radio/radio.py`:
  - per-sample min-max scaling into [-1, 1];
  - the choice between the clean and the noisy signal file;
  - shuffling only the training split;
  - the size and indices of the random training subset.
- `Tensors` (tensors.dfy) holds what the modules share:
  - vectors, matrices, and rank-three tensors with an explicit shape;
  - sum, mean, and the mean over the leading axis;
  - `permute(0, 2, 1)`.
- `Results` (results.dfy) holds `Option` and `Result`. Every exception raised
  by the modelled code is an `Err` value, including IndexError, the
  ZeroDivisionError of an empty loader and numpy's broadcast ValueError in
  `validate`. Exceptions raised inside the encoder,
  the loss or torch itself are outside the model (first line of "## Left out").

Numbers are Dafny `real`s. The encoder, `exp` and the InfoNCE loss are
function-valued arguments:

- only `exp(0) == 1` is assumed of `exp`, or `exp(x) >= 1 + x` for the sign
  of the KL term;
- nothing is assumed of the other two.

The draws of `torch.randn_like` and `torch.randperm` are arguments too. So is
the content of the files `torch.load` reads, which is a finite map from file
to tensor.

## Model

| member | source | states |
|---|---|---|
| `Probe.Resolve` | linear_classifiers/logistic_regression.py:113-133 | Regression with `(-1, -1)` is the full stack, and regression with any other pair is the "no modules" error. Otherwise: `(-1, -1)` is all CNN modules, `module >= 0, layer == -1` is one module, and `module >= 0, layer >= 0` is one layer, each carrying its indices. Every other pair is the invalid-specification error (each case in both directions). |
| `Probe.Dispatch` | linear_classifiers/logistic_regression.py:90-98 | Three arguments iff `arg3` and `arg2` are ints. The assertion fails iff `arg3` is an int and `arg2` is not. Two arguments iff only `arg2` is an int, and one argument iff neither is. The indices are passed through. |
| `Probe.Invoke` | linear_classifiers/logistic_regression.py:92-97 | A forward path succeeds iff it is called with exactly its own number of arguments. Otherwise the error names the path and the count. |
| `Probe.GetRepresentation` | linear_classifiers/logistic_regression.py:87-106 | The representation is detached iff the model type is ONLY_DOWNSTREAM_TASK. It succeeds iff the dispatch succeeds with the path's arity, and the value is then the chosen path's output for the dispatched arguments. A dispatch error is returned unchanged. |
| `Probe.GetZ` | linear_classifiers/logistic_regression.py:108-135 | It succeeds iff the address resolves, and otherwise returns the same error. The regression result is the full-stack output, not permuted. Every other result is the resolved path's output with its last two axes swapped. Detached iff ONLY_DOWNSTREAM_TASK. |
| `Probe.GetZNeverMisdispatches` | linear_classifiers/logistic_regression.py:117-133 | `get_z`'s own checks and dispatch raise only the two addressing errors. No accepted address reaches a failing `_forward` assertion or a wrong-arity call. The encoder's paths are total arguments here (first line of "## Left out"), so errors inside the real encoder are outside this statement. |
| `Probe.ProbeOutputSwapsBack` | linear_classifiers/logistic_regression.py:135 | Swapping a non-regression representation back gives exactly the chosen forward path's output. |
| `Tensors.SwapLastAxes` | linear_classifiers/logistic_regression.py:135 | `permute(0, 2, 1)` exchanges the last two extents, and entry `[b][i][j]` of the result is entry `[b][j][i]` of the input. |
| `Tensors.SwapLastAxesInvolution` | linear_classifiers/logistic_regression.py:135 | Swapping the last two axes twice is the identity. |
| `Tensors.ColumnMeanTotal` | vision/main_vision.py:100-109 | The sum of the per-module means over replicas (`torch.sum(torch.mean(loss, 0))`) is the mean of the replicas' total losses. |
| `Probe.ConfigureOptimizersAsWritten` | linear_classifiers/logistic_regression.py:71-85 | The code as written: FULLY_SUPERVISED gives encoder ++ classifier parameters in training mode. The second test reads the module-level `options`: it raises when that global is undefined, and otherwise succeeds iff the global says ONLY_DOWNSTREAM_TASK, with the classifier parameters alone and the encoder in evaluation mode. Any other global gives UnsupportedModelType. |
| `Probe.ConfigureOptimizers` | linear_classifiers/logistic_regression.py:71-85 | The corrected reading. It succeeds iff the model type is FULLY_SUPERVISED (encoder parameters then classifier parameters, encoder training) or ONLY_DOWNSTREAM_TASK (classifier parameters only, encoder in eval mode). Any other type raises. |
| `Probe.AsWrittenAgreesWhenGlobalIsOwn` | linear_classifiers/logistic_regression.py:347-358 | Run as a script, the global and the probe's options are one object, and the two readings coincide. |
| `Probe.GlobalOptionsDivergence` | linear_classifiers/logistic_regression.py:72-77 | Imported without the script's globals, an ONLY_DOWNSTREAM_TASK probe raises where the corrected reading returns the classifier's parameters. |
| `Probe.FrozenEncoderIsIsolated` | linear_classifiers/logistic_regression.py:71-106 | The representation is detached iff no encoder parameter reaches the optimizer. This assumes the parameter lists are disjoint and the encoder has parameters. |
| `Probe.ProbeRepresentation` | linear_classifiers/logistic_regression.py:137-143 | With `bias` set, the probe succeeds iff the configured module and layer are both -1, and then reads the full stack unpermuted. Without `bias`, the default address reads the transposed output of all CNN modules. |
| `Probe.CheckMain` | linear_classifiers/logistic_regression.py:296-302 | `main` proceeds iff the configuration exists, the model type is FULLY_SUPERVISED or ONLY_DOWNSTREAM_TASK, and the dataset is De Boer. A missing configuration fails first, on reading `bias`, then an unsupported model type, then an unsupported dataset. |
| `Probe.MainChecksEnableOptimizer` | linear_classifiers/logistic_regression.py:300-301 | A run that passes `main`'s checks never reaches the refusal in `configure_optimizers`. |
| `GreedyTraining.AverageReplicas` | vision/main_vision.py:100-103 | Loss, NCE loss, KLD loss and accuracy are each reduced to one value per module, the mean over the replica axis of that module's column. |
| `GreedyTraining.AgreeingReplicasAverageToThemselves` | vision/main_vision.py:100-103 | Replicas that agree, a single replica in particular, average to their common values. |
| `GreedyTraining.PyIndex` | vision/main_vision.py:106 | Python indexing: a position exists iff `-n <= i < n`, and a negative index counts from the end. |
| `GreedyTraining.SelectForBackward` | vision/main_vision.py:105-106 | When `cur != model_splits` and `model_splits > 1`, the result is the one-element `[loss[cur]]`, or an IndexError iff `cur` is outside `[-n, n)`. Otherwise the loss is kept whole. |
| `GreedyTraining.BackwardLoss` | vision/main_vision.py:108-109 | `torch.sum(loss)`: a one-element loss sums to its only entry. |
| `GreedyTraining.GreedyBackwardIsOneModule` | vision/main_vision.py:105-111 | In greedy mode with an index in `[-n, n)` the back-propagated scalar is exactly the chosen module's loss, a negative index counting from the end. |
| `GreedyTraining.FullBackwardIsMeanOfReplicaTotals` | vision/main_vision.py:100-111 | Otherwise the whole loss vector is back-propagated, and its sum is the mean over the replicas of each replica's total loss. |
| `GreedyTraining.HardCodedModuleThree` | vision/main_vision.py:70-106 | With the hard-coded module 3: two modules raise on the first step; zero, one or three modules train on the sum; four or more train module 3 alone. |
| `GreedyTraining.InitialAccumulators` | vision/main_vision.py:76-78 | Each epoch starts with `model_splits` losses at 0 and `model_splits` counters at 1. |
| `GreedyTraining.LogStep` | vision/main_vision.py:114-118 | The logging loop succeeds iff `accuracy` and both accumulators are at least as long as the selected loss. Entry `i < len(loss)` gains `loss[i]` and one update, every other entry is unchanged, and the printed pairs are `(loss[i], accuracy[i])`. The result agrees with the reference `Log`. |
| `GreedyTraining.TrainEpoch` | vision/main_vision.py:77-118 | A successful epoch leaves accumulators sized by `model_splits`. |
| `GreedyTraining.FullEpochLogsEveryModule` | vision/main_vision.py:77-118 | Without greedy selection, every counter ends at 1 plus the number of steps, and every loss accumulator at the sum of that module's replica-averaged losses. |
| `GreedyTraining.GreedyEpochLogsOnlyFirstEntry` | vision/main_vision.py:105-118 | In greedy mode, entry 0 collects the trained module's losses and counts every step. Every other entry keeps its initial 0 and 1. |
| `GreedyTraining.EpochSucceedsInRange` | vision/main_vision.py:105-106 | With the module index inside `[-model_splits, model_splits)`, or with greedy selection off, the epoch never raises. |
| `GreedyTraining.EpochSucceedsWithNegativeIndex` | vision/main_vision.py:106 | A negative in-range index never raises. |
| `GreedyTraining.EpochFailsOutOfRange` | vision/main_vision.py:105-106 | In greedy mode, an index outside that range raises IndexError on a non-empty epoch. |
| `GreedyTraining.BroadcastAdd` | vision/main_vision.py:44-46 | `list += ndarray` is numpy's addition, not list extension. Equal lengths add element-wise, and an operand of length 1 is stretched over the other. Every other pair of lengths raises the broadcast ValueError. |
| `GreedyTraining.AddRowsIsColumnSums` | vision/main_vision.py:30-46 | Adding the steps' vectors one by one onto zeros gives each module's column sum. |
| `GreedyTraining.AccumulateMatchingRows` | vision/main_vision.py:30-46 | Accumulating vectors as long as the zeros ends with their element-wise sum. |
| `GreedyTraining.AccumulateSingleColumn` | vision/main_vision.py:27-46 | With vectors of one value, each of the 3 slots ends as the sum of those values. |
| `GreedyTraining.AccumulateOtherWidthFails` | vision/main_vision.py:27-46 | Any other vector length raises on the first step. |
| `GreedyTraining.AccumulateOntoThreeZeros` | vision/main_vision.py:27-46 | The three cases above together, for the hard-coded 3 zeros. |
| `GreedyTraining.ValidateAsWritten` | vision/main_vision.py:25-59 | The code as written, with accumulators of 3 zeros (line 27). An empty loader divides by zero. Otherwise it raises the broadcast ValueError iff `model_splits` is neither 1 nor 3. When it succeeds, each returned vector has 3 values and the printed losses are the first `model_splits` of them. |
| `GreedyTraining.Validate` | vision/main_vision.py:25-59 | The corrected reading, with accumulators sized by `model_splits` (line 28). An empty loader divides by zero. Otherwise each average, of the loss, the NCE loss and the KLD loss, is the mean over the validation steps of that module's replica-averaged value, one per configured module. The printed losses are the returned ones. |
| `GreedyTraining.AsWrittenIsIntendedForThreeModules` | vision/main_vision.py:27-28 | With 3 modules the hard-coded size is the configured one, and the as-written code returns exactly the corrected averages. |
| `GreedyTraining.AsWrittenRepeatsSingleModule` | vision/main_vision.py:27-59 | With one module, it prints the corrected average and returns each corrected average three times. |
| `GreedyTraining.AsWrittenRaisesForOtherModuleCounts` | vision/main_vision.py:27-46 | With any other number of modules and a non-empty loader, the code as written raises where the corrected one returns the averages. |
| `GreedyTraining.FourModulesRaise` | vision/main_vision.py:27-46 | Counterexample: one step with losses [1, 2, 3, 4] over four modules raises, while the corrected code returns [1, 2, 3, 4]. |
| `Latent.LatentParams` | models/independent_module.py:58-73 | Mean and log-variance are both transposed from [B, C, L] to [B, L, C], entry by entry. The same pair is returned for the context and the target. |
| `Latent.LatentParamsInvertible` | models/independent_module.py:68-73 | Transposing the latent parameters back gives the encoder's output: no entry is lost. |
| `Latent.Reparameterize` | models/independent_module.py:75-85 | The sample has the shape of the mean. |
| `Latent.ReparameterizeAt` | models/independent_module.py:83-85 | Every sampled entry is `eps * exp(0.5 * logvar) + mu` at the same position. |
| `Latent.ZeroNoiseGivesMean` | models/independent_module.py:83-85 | With `eps = 0` the sample is exactly `mu`, whatever the variance. |
| `Latent.GetLatents` | models/independent_module.py:47-56 | The same sample is returned twice, with the latent shape. Without distributions it is the transposed mean. With distributions it is the reparameterised draw from the context parameters with the given noise. |
| `Latent.KlTerms` | models/independent_module.py:108 | The KL integrand has the latent shape. |
| `Latent.KlTermAt` | models/independent_module.py:108 | Each integrand entry is `1 + lv - mu^2 - exp(lv)` at the same position. |
| `Latent.KlReductionNonNegative` | models/independent_module.py:108-109 | Summing over dim 1 (time), scaling by -0.5, averaging over the batch and then over channels maps a nowhere-positive integrand to a non-negative value. |
| `Latent.KlReductionOfZeros` | models/independent_module.py:108-109 | The same reduction maps the zero integrand to 0. |
| `Latent.StandardNormalHasZeroKld` | models/independent_module.py:104-109 | `mu = 0` and `logvar = 0` everywhere give KL 0 when `exp(0) = 1`. |
| `Latent.KlReduction` | models/independent_module.py:108-109 | Definition: the KL integrand summed over dim 1 of the transposed `[B, L, C]` tensor (the time axis, not channels), scaled by -0.5, averaged over the batch and then over channels. Its sign and zero are stated by `Latent.KlReductionNonNegative` and `Latent.KlReductionOfZeros`. |
| `Latent.Kld` | models/independent_module.py:104-109 | Definition: the KL reduction of the context parameters' terms. Its sign and its zero at the standard normal are stated by `Latent.KldNonNegative` and `Latent.StandardNormalHasZeroKld`. |
| `Latent.CombinedLoss` | models/independent_module.py:117 | The KL term only adds: the combined loss is the InfoNCE loss when the weight or the KL term is zero, and at least the InfoNCE loss when both are non-negative. |
| `Latent.KldNonNegative` | models/independent_module.py:104-109 | When `exp(x) >= 1 + x`, the KL term is never negative. |
| `Latent.Forward` | models/independent_module.py:87-130 | The loss and accuracy vectors have length 1, and the representation is `z`, of shape [B, L, C]. Without distributions, `z` is the transposed mean, and the loss and accuracy are those of `get_loss(z, z)`, with no KL term. With distributions, `z` is the target draw and `c` is the separate context draw. The loss is `get_loss(z, c) + kld_weight * kld` of the context parameters, and the accuracy is that of `get_loss(z, c)`. |
| `Latent.DistributionPathDegeneratesToMeanPath` | models/independent_module.py:100-124 | With KL weight 0 and zero draws, the distribution branch returns exactly what the mean branch returns. |
| `Latent.StandardNormalForwardLoss` | models/independent_module.py:100-117 | For a standard-normal encoder output, the loss is the contrastive loss alone, whatever the KL weight. |
| `Latent.GetLatentsMatchesForward` | models/independent_module.py:47-56 | `get_latents` with `forward`'s target draw returns `forward`'s representation. |
| `Radio.ScaleValue` | data/radio/radio.py:26 | Definition: `-1 + 2 * (x - min) / (max - min)` for `min < max`. Its range, endpoints, order and inverse are stated by `Radio.ScaleValueBounds`, `Radio.ScaleValueEndpoints`, `Radio.ScaleValueMonotone` and `Radio.ScaleValueRoundTrip`. |
| `Radio.ScaleValueBounds` | data/radio/radio.py:26 | A value between the minimum and maximum is scaled into [-1, 1]. |
| `Radio.ScaleValueEndpoints` | data/radio/radio.py:26 | The minimum maps to -1 and the maximum to 1. |
| `Radio.ScaleValueMonotone` | data/radio/radio.py:26 | `x < y` iff scaled `x` < scaled `y`. |
| `Radio.ScaleValueRoundTrip` | data/radio/radio.py:26 | Unscaling a scaled value gives it back, and every point of the target interval is reached. |
| `Radio.FlattenMembers` | data/radio/radio.py:19 | `view(b, -1)` of one sample holds exactly the sample's entries. |
| `Radio.FlattenEmpty` | data/radio/radio.py:19 | The flattened sample is empty iff every channel is empty. |
| `Radio.MinOf` | data/radio/radio.py:22 | The minimum is an element and lies below every element. |
| `Radio.MaxOf` | data/radio/radio.py:23 | The maximum is an element and lies above every element. |
| `Radio.ScaleSample` | data/radio/radio.py:19-26 | A sample fails iff it has no entries or is constant, and the error says which. Otherwise every entry is scaled by the sample's own minimum and maximum, taken over all channels and time steps. |
| `Radio.ScaledSampleProperties` | data/radio/radio.py:19-26 | The scaled sample keeps its shape and lies in [-1, 1]. An entry is -1 iff it was the sample's minimum and 1 iff it was its maximum, and both values are attained. |
| `Radio.ScaledSampleKeepsOrder` | data/radio/radio.py:26 | Any two entries of a sample keep their order. |
| `Radio.ScaleBatch` | data/radio/radio.py:19-26 | A batch fails iff an axis is empty or some sample fails, with the matching error. Otherwise it keeps its shape, and each sample is that sample's own scaling. |
| `Radio.ScalingIsPerSample` | data/radio/radio.py:22-26 | Changing one sample leaves every other sample's scaled values unchanged. |
| `Radio.LoadDataAndLabel` | data/radio/radio.py:8-33 | It succeeds iff the clean signals, the labels and the chosen signal file exist, the chosen signals scale, the label count matches and the batch size is positive. Each failure is the first in load order: missing clean signals, missing labels, missing chosen signals, the scaling error, a size mismatch, then a bad batch size. The dataset is the scaled chosen signals with the clean split's labels. Only the training split is shuffled, and incomplete batches are dropped. |
| `Radio.NoisyLoaderKeepsCleanLabels` | data/radio/radio.py:14-16 | With an SNR, the signals come from the noisy file, and the labels are those of the clean split, the same as without an SNR. |
| `Radio.TruncToInt` | data/radio/radio.py:43 | `int()` of a float truncates toward zero. |
| `Radio.PrefixSlice` | data/radio/radio.py:44 | `s[:stop]` with Python's clamping and negative stops. |
| `Radio.PortionIsProduct` | data/radio/radio.py:43 | The accumulated portion of the subset size is exactly `subset_percentage * len(dataset)`. |
| `Radio.PortionBelowWhole` | data/radio/radio.py:42-43 | For `0 <= p < 1`, `p * n` lies in `[0, n]`, and below `n` when `n > 0`. |
| `Radio.TruncWithin` | data/radio/radio.py:43 | `int()` of a value in `[0, m]` lies in `[0, m]`, and below `m` when the value is. |
| `Radio.SubsetSize` | data/radio/radio.py:43 | Definition: `int(subset_percentage * len(dataset))`, truncating. `Radio.PortionIsProduct` ties it to the product and `Radio.SubsetSizeBounds` bounds it. |
| `Radio.SubsetSizeBounds` | data/radio/radio.py:42-43 | For `0 <= p < 1`: `0 <= int(p * n) <= n`, and `int(p * n) < n` when `n > 0`. |
| `Radio.SubsetIndicesValid` | data/radio/radio.py:43-44 | A prefix of a permutation of `[0, n)` has distinct indices, all below `n`. For `0 <= p < 1` it has exactly `int(p * n)` of them. |
| `Radio.Subset` | data/radio/radio.py:45 | The subset holds the samples and labels at the given indices, in order. |
| `Radio.SubsetIndices` | data/radio/radio.py:43-44 | `torch.randperm(n)[:subset_size]` is a prefix of the permutation. |
| `Radio.GetRadioDataLoaders` | data/radio/radio.py:36-51 | It succeeds iff all three splits load and, for `p < 1`, the random subset is non-empty. A training error is returned as is, and an empty subset fails with EmptySubset before the other splits are read. Validation and test are the plain loaders. The training loader is shuffled and drops the last batch. For `p >= 1` it is the plain loader. For `p < 1` its dataset is the subset at the chosen indices, of `int(p * n)` samples when `0 <= p`. |
| `Radio.GetNoisyTestDataLoader` | data/radio/radio.py:54-57 | It succeeds iff the test files and the noisy file of that SNR load with matching sizes. It is unshuffled, drops the last incomplete batch, has the configured batch size, and pairs the noisy signals with the clean test labels. |

## Left out

- The encoder (`CNNEncoder`), `InfoNCE_Loss.get_loss`, `Syllables_Loss` and the encoder's `forward_through_*` methods are not part of this model. They are function-valued arguments, and nothing is claimed about the InfoNCE formula or negative sampling.
- `setup_classifier` and `load_model_and_optimizer`: they construct objects and compute no decision the model needs.
- Lightning's `Trainer`, the training, validation and test steps, `zero_grad`, `backward`, `optimizer.step`, wandb logging, printing of timings, and the log files: framework and I/O effects. The values the loops print are returned as data where they are computed from the losses.
- torch.load: it is a lookup in a finite map of files.
- `torch.randn_like` and `torch.randperm`: they are arguments. The permutation argument is required to be a permutation.
- DataLoader batching and iteration order: a loader is its dataset, batch size, shuffle flag and drop-last flag.
- The legacy `train` and `test` functions of linear_classifiers/logistic_regression.py (lines 174-291). They use undefined globals and are superseded by the Lightning path.
- configs/sim_audio_libri_distr_true.py: a thin wrapper over a setup class that is not part of this model.
- Multi-GPU execution. Replica outputs are given as a leading axis. Model outputs are taken to have at least one replica and one value per module (`GreedyTraining.WellShaped`).
- IEEE floating point, NaN, infinities and `.float()` rounding: every number is an exact `real`.
- Latent.Forward: it requires a non-empty batch and at least one channel when distributions are predicted, because torch's means over an empty axis give NaN, which a `real` cannot represent.
- Radio.ScaleSample: a constant sample (`max == min`) is modelled as the error `ConstantSample`. Torch does not raise there; it divides 0 by 0 and yields NaN entries.
- Python `assert` statements are modelled as raising, which they do unless Python runs with `-O`.
- Latent.Reparameterize: its contract states only the shape. The entry formula is the separate lemma `Latent.ReparameterizeAt`, which keeps a product of uninterpreted terms out of every caller's proof.
- Latent.KlTerms: its contract states only the shape. The entry formula is the separate lemma `Latent.KlTermAt`, for the same reason.
- Latent.KlReductionNonNegative: this and `Latent.KlReductionOfZeros` state the sign and the zero of the KL reduction, not its closed form as a normalised total. The reduction itself is the definition `Latent.KlReduction`, which follows the code's order of sum, scale and means.
- GreedyTraining.TrainEpoch: its contract states the accumulators' size only. Their contents are stated by `GreedyTraining.FullEpochLogsEveryModule` and `GreedyTraining.GreedyEpochLogsOnlyFirstEntry`.
- GreedyTraining.GreedyEpochLogsOnlyFirstEntry: it is stated for a non-negative module index. A negative in-range index is covered only by `GreedyTraining.EpochSucceedsWithNegativeIndex`, which says that the epoch succeeds.
- The wandb loops of `train` (over `nce_loss[idx]` and `kld_loss[idx]`) and over the validation averages: logging.

## Findings

| source | as written | input that shows it | evidently intended | confidence | as-written member | corrected member |
|---|---|---|---|---|---|---|
| vision/main_vision.py:27-46 | The accumulators have a hard-coded size of 3 (`model_splits = 3  # TODO`), and `loss_epoch += ndarray` is numpy's broadcasting addition onto them. | One validation step of a four-module encoder, losses [1, 2, 3, 4]: numpy cannot broadcast length 4 onto length 3 and raises ValueError. With one module, each average is returned three times. | Accumulators sized by the configured `model_splits`, as in the commented-out line 28, so that it returns and prints [1, 2, 3, 4]. | not executed | `GreedyTraining.ValidateAsWritten` (shown by `GreedyTraining.FourModulesRaise`, `GreedyTraining.AsWrittenRaisesForOtherModuleCounts` and `GreedyTraining.AsWrittenRepeatsSingleModule`) | `GreedyTraining.Validate` (its contract states the means; `GreedyTraining.AsWrittenIsIntendedForThreeModules` shows the two agree for 3 modules) |
| linear_classifiers/logistic_regression.py:75 | `configure_optimizers` tests the module-level `options` instead of `self.options`. | A probe with model type ONLY_DOWNSTREAM_TASK built from another module, where the script's global `options` does not exist, raises `NameError`. | Test `self.options.model_type`, and return the classifier's parameters. | not executed | `Probe.ConfigureOptimizersAsWritten` (shown by `Probe.GlobalOptionsDivergence`) | `Probe.ConfigureOptimizers` (agreement shown by `Probe.AsWrittenAgreesWhenGlobalIsOwn`) |
