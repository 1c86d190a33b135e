# Colour-bias-mitigating trainer, modelled in Dafny

This project models the core of `main.py`, a TensorFlow trainer that learns an
image classifier while discouraging it from using colour. The classifier must
not be able to predict each image's quantised colour. The model has three parts.

- **Quantizer** (`quantizer.dfy`). It builds the bucket boundaries
  `list(range(0, 256, 256 // dim_bias))[1:]`. It models `tf.raw_ops.Bucketize`
  as "the number of boundaries at or below the value". It builds the bias label
  of `_preprocess`: the red, green and blue planes of the 14-by-14 colour map,
  each quantised and then stacked. Python's floor division and `range` are
  written out in full, including their error and empty cases.
- **Dataset** (`dataset.dfy`). It models `_preprocess`: cast, resize, quantise,
  and scale by 1/255. It also models `_preprocess_dataset`: the boundaries,
  then `from_tensor_slices`, `map` and `batch` for each split, with the
  exceptions these can raise.
- **Training** (`training.dfy`). It models the bookkeeping of the `Trainer`
  class:
  - which parameter sets, optimiser states, counters, metric accumulators,
    summary streams and checkpoints each step kind writes;
  - how `train` and `test` drive those steps.

  Nothing numeric is computed. A parameter set is the term of the updates
  applied to it, `Updated(before, optimizer, gradient)`. A gradient names its
  objective, the parameters its forward pass read, and the batch. A metric
  accumulator is the list of readings fed into it. The class `Trainer` holds
  these as fields. Each method is proved equal to a function on the whole
  state (`Model() == AfterX(old(Model()), ...)`), and the lemmas about those
  functions state what the code promises.

The bucket count follows the code at main.py:71, which is not always
`dim_bias`:

- The three predictors are built with `dim_bias` outputs (main.py:39-41).
  They are trained on the bias labels (main.py:132-134), so labels are
  expected in `[0, dim_bias)`.
- The boundaries of main.py:71 give exactly `dim_bias` buckets only when
  `dim_bias` divides 256 (`ExactBucketsIffDivides`).
- For `dim_bias` = 3 the boundaries are 85, 170 and 255, and a value of 255
  gets label 3 (`NonDividingDimBias`). What a 3-way predictor does with that
  label depends on `model.py`, which is not part of this model.
- At main.py:71 taken alone:
  - a `dim_bias` of 0 raises a division by zero;
  - a `dim_bias` above 256 raises a zero-step `range` error;
  - a negative `dim_bias` gives a negative step, so there are no boundaries
    and no error.

  What `model.Predictor` (main.py:39-41), which runs first, does with such
  values is not part of this model.

## Model

| member | source | states |
|---|---|---|
| Quantizer.FloorDiv | main.py:71 | `256 // dim_bias` is Python floor division: for a positive divisor q·b ≤ a < q·b + b, and mirrored for a negative one |
| Quantizer.Range | main.py:71 | Python's `list(range(start, stop, step))`; for a positive step its elements and length are stated by Quantizer.RangeAscending |
| Quantizer.DropFirst | main.py:71 | the slice `[1:]`; with Range it gives the boundaries, whose elements are stated by Quantizer.BoundariesShape |
| Quantizer.RangeAscending | main.py:71 | for a positive step, `range(start, stop, step)` lists start + i·step for as many i as fit below stop, and is empty when stop ≤ start |
| Quantizer.Boundaries | main.py:71 | the boundaries fail exactly for dim_bias = 0 (division by zero) or above 256 (zero range step), and are empty for a negative dim_bias |
| Quantizer.Spacing | main.py:71 | the spacing s = 256 // dim_bias lies in [1, 256], and dim_bias·s ≤ 256 < dim_bias·s + dim_bias |
| Quantizer.BoundariesShape | main.py:71 | for 1 ≤ dim_bias ≤ 256 the boundaries are s, 2s, …: every multiple of s strictly below 256 |
| Quantizer.BoundariesIncreasing | main.py:71 | the boundaries are strictly increasing and lie strictly inside (0, 256) |
| Quantizer.BoundariesAreMultiples | main.py:71 | v is a boundary if and only if 0 < v < 256 and s divides v |
| Quantizer.BoundaryCount | main.py:71 | there are ⌈256 / s⌉ − 1 boundaries |
| Quantizer.ExactBucketsIffDivides | main.py:71-72 | there are never fewer than dim_bias buckets, and exactly dim_bias if and only if dim_bias divides 256 |
| Quantizer.DefaultBoundaries | main.py:261 | the default dim_bias of 16 gives the 15 boundaries 16, 32, …, 240, so 16 buckets |
| Quantizer.NonDividingDimBias | main.py:71-72 | dim_bias = 3 gives boundaries 85, 170, 255 and four buckets; 255 is labelled 3 |
| Quantizer.Bucketize | main.py:72 | a bucket index is at most the number of boundaries |
| Quantizer.BucketizeBracket | main.py:72 | on sorted boundaries, bucket k has boundary k−1 at or below the value and boundary k above it |
| Quantizer.BucketizeIsUpperBound | main.py:72 | Bucketize returns k if and only if k brackets the value, i.e. it is the upper-bound search |
| Quantizer.BucketizeMonotone | main.py:72 | a larger value never gets a lower bucket |
| Quantizer.OnBoundaryGoesUp | main.py:72 | a value exactly on boundary i goes to bucket i + 1 |
| Quantizer.QuantizedBucket | main.py:71-72 | with the trainer's boundaries, a value x in [0, 256) gets the bucket k with k·s ≤ x < (k+1)·s and k < BucketCount, so 0 maps to 0 |
| Quantizer.QuantizedInteger | main.py:71-72 | an integer value v in [0, 256) is labelled v // s |
| Quantizer.FourBucketsExample | main.py:71-72 | dim_bias = 4 gives 64, 128, 192; 0, 64 and 255 go to buckets 0, 1 and 3 |
| Quantizer.ChannelPlane | main.py:84-86 | `colormap[..., c]`; its meaning, channel c of each pixel in the colour map's shape, is stated through the bias label by Quantizer.BiasLabelChannels |
| Quantizer.Quantize | main.py:72 | the `_quantize` lambda; that it sends each value to its bucket in the plane's shape is stated by Quantizer.BiasLabelChannels, and the buckets' meaning by Quantizer.QuantizedBucket |
| Quantizer.Stack | main.py:87 | `tf.stack([r, g, b], axis=-1)` for three planes of one shape; that channel c of the stack is plane c is stated by Quantizer.BiasLabelChannels |
| Quantizer.BiasLabel | main.py:84-87 | the bias label of a colour map; stated by Quantizer.BiasLabelChannels, Quantizer.ChannelIndependence and Quantizer.BiasLabelRange |
| Quantizer.BiasLabelChannels | main.py:84-87 | each channel of the bias label is the bucket of the same channel of the colour map, with the colour map's shape |
| Quantizer.ChannelIndependence | main.py:84-87 | two colour maps that agree on channel c have the same channel-c bias label |
| Quantizer.BiasLabelRange | main.py:71-87 | for values in [0, 256), every bias label is below BucketCount and obeys the interval k·s ≤ x < (k+1)·s |
| Dataset.ToFloat | main.py:82 | `tf.cast` to float; that it keeps the shape is stated by Dataset.PreprocessedSample |
| Dataset.Normalize | main.py:88 | `image / 255.0`; that the result keeps the shape and lies in [0, 1] for a uint8 image is stated by Dataset.PreprocessedSample |
| Dataset.Preprocess | main.py:81-88 | `_preprocess`; stated by Dataset.PreprocessedSample |
| Dataset.PreprocessedSample | main.py:81-88 | `_preprocess` keeps the class label and the image's shape, scales uint8 values into [0, 1], and gives every colour-map channel its bucket, below BucketCount |
| Dataset.BatchesKeepSamples | main.py:74-79 | `.batch` keeps every sample, in order |
| Dataset.BatchesCount | main.py:74-79 | `.batch(size)` makes ⌈n / size⌉ batches |
| Dataset.BatchesSizes | main.py:74-79 | every batch holds 1 to size samples, and all but the last hold exactly size |
| Dataset.Batches | main.py:74-79 | `.batch(size)`; stated by Dataset.BatchesKeepSamples, Dataset.BatchesCount and Dataset.BatchesSizes |
| Dataset.Split | main.py:74-79 | one split: slicing, `map(_preprocess)` and `batch`; stated by Dataset.SplitContents |
| Dataset.PreprocessDataset | main.py:69-79 | `_preprocess_dataset`; stated by Dataset.PreprocessDatasetOutcome |
| Dataset.SplitContents | main.py:74-79 | a split builds if and only if images and labels have the same length and the batch size is positive; it then holds every sample, preprocessed, in stored order |
| Dataset.PreprocessDatasetOutcome | main.py:69-79 | `_preprocess_dataset` succeeds if and only if dim_bias is usable, both splits match and the batch size is positive; otherwise it reports the first failure in code order: dim_bias 0, dim_bias above 256, a mismatched training split, a non-positive batch size, a mismatched test split; each split has ⌈n / batch_size⌉ batches |
| Training.Pass1Frame | main.py:100-121 | pass 1 writes exactly the net, `optimizer`, and the classifier-loss, self-distillation-loss and accuracy accumulators |
| Training.Pass2Frame | main.py:123-147 | pass 2 writes exactly the net, the three predictors, `optimizer_color` and the colour-loss accumulator |
| Training.TrainStepFrame | main.py:98-148 | `_train_step` writes exactly the slots of its two passes plus `global_step` |
| Training.BaselineStepFrame | main.py:150-160 | `_train_step_baseline` writes exactly the net, `optimizer`, the classifier loss and accuracy, and `global_step`; never a predictor, `optimizer_color`, the colour loss or the self-distillation loss |
| Training.TestStepFrame | main.py:162-185 | `_test_step` writes exactly the four test accumulators |
| Training.PassTwoReadsPassOne | main.py:116-145 | pass 1 changes the net and no predictor; pass 2 takes its colour gradient at the parameters pass 1 left and applies it to the net and every predictor |
| Training.AfterPass1 | main.py:100-121 | pass 1 of `_train_step`; stated by Training.Pass1Frame and Training.PassTwoReadsPassOne, and realised by Training.Trainer.Pass1 |
| Training.AfterPass2 | main.py:123-147 | pass 2 of `_train_step`; stated by Training.Pass2Frame and Training.PassTwoReadsPassOne, and realised by Training.Trainer.Pass2 |
| Training.AfterTrainStep | main.py:98-148 | `_train_step`; stated by Training.TrainStepFrame and Training.LoggedStepBookkeeping, and realised by Training.Trainer.TrainStep |
| Training.AfterBaselineStep | main.py:150-160 | `_train_step_baseline`; stated by Training.BaselineStepFrame and Training.LoggedStepBookkeeping, and realised by Training.Trainer.TrainStepBaseline |
| Training.AfterTestStep | main.py:162-185 | `_test_step`; stated by Training.TestStepFrame, and realised by Training.Trainer.TestStep |
| Training.AfterLoggedStep | main.py:219-220 | one step of the inner loop of `train` and its training summary; stated by Training.LoggedStepBookkeeping |
| Training.AfterBatches | main.py:218-220 | the inner loop of `train`; stated by Training.BatchesCounters, Training.BatchesSummaries, Training.BatchesFeeds and Training.BaselineBatchesUntouched, and realised by Training.Trainer.RunBatches |
| Training.AfterTestSet | main.py:243-244 | the loop over the test set; stated by Training.TestSetBookkeeping, and realised by Training.Trainer.Evaluate |
| Training.LoggedStepBookkeeping | main.py:98-160 | one logged step raises `global_step` by exactly 1 and tags the training summary with the new value; it appends one reading to each fed accumulator; under the baseline the colour side is unchanged |
| Training.BatchesCounters | main.py:218-220 | one pass over the training batches raises `global_step` by the number of batches and leaves the epoch, test, validation and checkpoint slots |
| Training.BatchesSummaries | main.py:218-220 | the training summaries of one pass are tagged with consecutive steps |
| Training.BatchesFeeds | main.py:218-220 | one pass feeds `optimizer` and the classifier metrics once per batch, and the colour side once per batch unless training the baseline; accumulators only grow |
| Training.BaselineBatchesUntouched | main.py:150-160 | a pass of baseline steps leaves the predictors, `optimizer_color`, the colour loss and the self-distillation loss as they were |
| Training.TestSetBookkeeping | main.py:162-185 | a pass over the test set only appends one reading per batch, all at the same parameters, to each test accumulator |
| Training.EpochsRun | main.py:217 | the number of epochs `range(lo, hi)` runs; its use is stated by Training.EpochsCounters, Training.LoopCounters and Training.TrainBookkeeping |
| Training.ValidationEpochsExactly | main.py:217-228 | validation happens after an epoch e if and only if lo ≤ e < hi and e % 5 == 0, in increasing order |
| Training.ValidationStepsAt | main.py:217-231 | the validation summary after epoch e is tagged with the start step plus (e − lo + 1) epochs of batches |
| Training.AfterEpoch | main.py:218-231 | one pass of the epoch loop; stated by Training.EpochBookkeeping, and realised by Training.Trainer.RunEpoch |
| Training.AfterEpochs | main.py:217-234 | the epoch loop over lo..hi−1; stated by Training.EpochsCounters, Training.EpochsTestFeeds, Training.EpochsTrainFeeds and Training.BaselineEpochsUntouched |
| Training.EpochBookkeeping | main.py:217-231 | one epoch raises `global_epoch` by 1 and `global_step` by the number of batches; on epochs divisible by 5 it feeds the test set once and logs one validation; under the baseline it keeps the colour side |
| Training.EpochBodyBookkeeping | main.py:217-231 | every epoch with any state and number has the effect EpochBookkeeping states |
| Training.LoopCounters | main.py:217 | a loop of such epochs adds one to the epoch and n to the step per epoch run, and logs exactly the validation steps |
| Training.LoopTestFeeds | main.py:217-230 | a loop of such epochs feeds each test accumulator m times per validation epoch |
| Training.LoopTrainFeeds | main.py:217-220 | a loop of such epochs feeds the classifier loss n times per epoch and never removes a training reading |
| Training.LoopKeepsColourSide | main.py:217-220 | a loop of epochs that each keep the colour side keeps it |
| Training.EpochsCounters | main.py:217-231 | epochs lo..hi−1 raise `global_epoch` by the epochs run and `global_step` by batches × epochs, log exactly the validation steps, and write no checkpoint |
| Training.EpochsTestFeeds | main.py:217-231 | over epochs lo..hi−1 each test accumulator gets test batches × validation epochs readings |
| Training.EpochsTrainFeeds | main.py:217-225 | over epochs lo..hi−1 the classifier loss gets batches × epochs readings, and the training accumulators are never reset |
| Training.BaselineEpochsUntouched | main.py:212-220 | training the baseline for any number of epochs never touches the predictors, `optimizer_color`, the colour loss or the self-distillation loss |
| Training.AfterRestore | main.py:90-92 | `_restore_checkpoint`; stated by Training.CheckpointFrames and Training.CheckpointRoundTrip, and realised by Training.Trainer.RestoreCheckpoint |
| Training.AfterSave | main.py:94-96 | `_save_checkpoint`; stated by Training.CheckpointFrames and Training.CheckpointRoundTrip, and realised by Training.Trainer.SaveCheckpoint |
| Training.CheckpointFrames | main.py:90-96 | restoring writes only the tracked slots; saving writes only the checkpoint store |
| Training.CheckpointRoundTrip | main.py:18-26 | restoring the checkpoint just saved brings back every tracked slot, whatever happened in between, and changes nothing untracked |
| Training.AfterTrain | main.py:207-237 | `train`; stated by Training.TrainBookkeeping, Training.TrainValidation and Training.TrainKeepsTrainingMetrics, and realised by Training.Trainer.Train |
| Training.AfterTest | main.py:239-246 | `test`; stated by Training.TestBookkeeping, and realised by Training.Trainer.Test |
| Training.TrainBookkeeping | main.py:207-237 | `train` resumes from the restored `global_epoch`, ends with `global_epoch` = max(start, max_epoch) and `global_step` = start step + batches × epochs run, logs exactly the validation steps, and saves one checkpoint of the final state |
| Training.TrainValidation | main.py:217-231 | in `train` validation happens after exactly the epochs from the restored `global_epoch` to `max_epoch` divisible by 5, in order, each tagged with the step reached; each test accumulator is fed once per test batch per validation |
| Training.TrainKeepsTrainingMetrics | main.py:217-225 | `train` never resets the training accumulators, and the classifier loss gets one reading per batch per epoch run |
| Training.TestBookkeeping | main.py:239-246 | `test` restores, then only appends one reading per test batch, at the restored parameters, to each test accumulator |
| Training.OneEpochScenario | main.py:207-237 | a fresh trainer over 256 samples in batches of 32 for one epoch: 8 steps, epoch 1, each training metric fed 8 times, one validation tagged 8, one checkpoint |
| Training.Trainer.constructor | main.py:11-67 | `__init__` leaves the initial parameters, empty optimisers, zero counters, empty accumulators, no summaries and no checkpoints |
| Training.Trainer.Pass1 | main.py:100-121 | updates the fields as AfterPass1 does |
| Training.Trainer.Pass2 | main.py:123-147 | updates the fields as AfterPass2 does |
| Training.Trainer.TrainStep | main.py:98-148 | updates the fields as AfterTrainStep does: pass 1, then pass 2, then `global_step` + 1 |
| Training.Trainer.TrainStepBaseline | main.py:150-160 | updates the fields as AfterBaselineStep does |
| Training.Trainer.TestStep | main.py:162-185 | updates the fields as AfterTestStep does |
| Training.Trainer.WriteSummaryTrain | main.py:187-195 | appends one record tagged with the step to the training summary stream; nothing else changes |
| Training.Trainer.WriteSummaryVal | main.py:197-205 | appends one record tagged with the step to the validation summary stream; nothing else changes |
| Training.Trainer.RestoreCheckpoint | main.py:90-92 | updates the fields as AfterRestore does: a loadable checkpoint replaces the tracked slots, otherwise nothing changes |
| Training.Trainer.SaveCheckpoint | main.py:94-96 | appends the checkpoint of the tracked slots to the store |
| Training.Trainer.Evaluate | main.py:243-244 | the loop over the test set leaves the state AfterTestSet gives |
| Training.Trainer.RunBatches | main.py:218-220 | the inner loop of `train` leaves the state AfterBatches gives |
| Training.Trainer.RunEpoch | main.py:218-231 | one pass of the epoch loop leaves the state AfterEpoch gives |
| Training.Trainer.Train | main.py:207-237 | `train` leaves the state AfterTrain gives: restore, epochs from the restored `global_epoch` to `max_epoch` − 1, save |
| Training.Trainer.Test | main.py:239-246 | `test` leaves the state AfterTest gives: restore, then one pass over the test set |

## Left out

- Network layers, losses, gradients and the gradient-reversal layer (`model.py`, main.py:36-53, main.py:101-114, main.py:124-135, main.py:164-180). `model.py` is not part of this model. A parameter update is a symbolic term that records its objective, its inputs and the optimiser; the loss values, the SGD-with-momentum arithmetic and the learning-rate decay are not computed.
- Metric results and summary values. An accumulator is the list of readings fed to it, and a summary record is only its step tag. The means, the accuracy and the factor 100 are floating-point results of library code.
- The resize to 14 by 14 (main.py:83). It is bilinear library arithmetic and is given as a parameter of `Preprocess`. Dataset.PreprocessedSample assumes its values lie in [0, 256).
- `.cache()`, `.shuffle(10000)` and `.prefetch(1)` (main.py:75-79). The model feeds the training batches in the same order every epoch. The shuffle is a random permutation and the other two do not change contents.
- Loading the dataset file (main.py:70), the checkpoint directory lookup and file writes (main.py:91, main.py:95), the summary writer files (main.py:29-32), and the timestamp (main.py:14). These are I/O. `_restore_checkpoint` receives the loaded checkpoint as an `Option`, `None` when nothing loads. `_save_checkpoint` appends to an in-memory store.
- The progress `print`s (main.py:223-225, main.py:233-234, main.py:246). These are output only.
- `main()` (main.py:248-290): argument parsing, the interactive file chooser, GPU set-up and the phase dispatch. The options it reads enter as parameters (`dim_bias`, `batch_size`, `train_baseline`, `max_epoch`). An unknown phase raising `ValueError` is not modelled.
- Training.AfterTrainStep: `global_step` is an unbounded integer. The int64 wrap-around of the `tf.Variable` is not modelled, because no run reaches 2^63 steps.
- Training.Trainer.TrainStep: the rebinding `self.global_step = self.global_step.assign_add(1)` (main.py:148) is modelled as an increment of the tracked counter. Whether the checkpoint still tracks the original variable after the rebinding is not modelled.
- Training.Trainer.Train: the epoch range is fixed from `global_epoch` when the loop starts. This follows Python's `range`, which is evaluated once.
- Training.Trainer: the four networks are held as one `nets` field and the eight metric objects as two `Metrics` fields. Each still changes only as the step kinds state.
- Training.Trainer.constructor: `__init__` also runs `_preprocess_dataset` (main.py:34) and keeps `train_ds` and `test_ds`. The object holds no datasets: `Train` and `Test` take the batch sequences as parameters, and `__init__`'s preprocessing errors are modelled only by Dataset.PreprocessDataset (Dataset.PreprocessDatasetOutcome).
- Dataset.Normalize: float32 values are modelled as exact reals, so the rounding of `tf.cast` (main.py:82) and of `image / 255.0` (main.py:88) is not modelled.
