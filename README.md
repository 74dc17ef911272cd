# Profiling harness bookkeeping, modelled in Dafny

This project models the bookkeeping logic of a PyTorch training and profiling harness
(`python/main.py`). The model leaves out the tensors, the GPU and the datasets. Each
training or test batch is reduced to what the harness adds up from it: a match count,
a loss, a timer reading and a memory reading.

- **Accumulators** (`accumulators.dfy`). The five accumulators `loss_val`, `tp_count`,
  `sample_count`, `elapsed_time` and `used_mem` are one `Acc` value. `Totals` gives
  them over a range of batches. The printed averages (loss, accuracy, sample time, the
  two memory averages) are functions of an `Acc`.
- **Monitor** (`monitor.dfy`). The epoch loop of `train`.
  - The specification functions are `TrainStep`, `TrainPass`, `EpochOutcome`,
    `OutcomeFrom` and `RunOutcome`. They give the records a run writes (progress lines,
    training summaries, evaluation lines) and whether it ends in a `ZeroDivisionError`.
  - The methods `Train` and `TrainEpoch` do the same work with the source's own
    counters. They use `while` loops, `+=`-style updates and multi-target resets, and
    are proved equal to the functions.
- **MonitorProperties** (`monitor_properties.dfy`). What the functions imply:
  - the shape of a training pass (`Windows`, one progress record per full window);
  - when a pass or epoch raises;
  - the summary leaving out the trailing partial window;
  - evaluation keeping the leftover `elapsed_time`;
  - progress lines appearing exactly at window boundaries;
  - accuracy always being a percentage.
- **PascalCategories** (`pascal_categories.dfy`). `object_categories`,
  `object_categories_idx` (a dictionary built with `zip`) and `transform_pascal`.
- **Datasets** (`datasets.dfy`). The `if/elif` dataset dispatch of `main` and the
  settings it trains with. `MainOutcome` joins the dispatch to `RunOutcome`.

Integers are unbounded, as in Python. Loss, time and memory are `real`, with exact
arithmetic; Python uses floats. `batch_size` and `monitoring_step` are `nat`,
including zero, so their divisions by zero are modelled. Each division by zero in the
source is the `raised` flag of an `Outcome`. The `Outcome` keeps the records written
before the exception.

The code's evaluation phase resets `used_mem` (line 96), as well as `sample_count`,
`tp_count` and `loss_val` (line 95). It keeps only `elapsed_time`, and the model
follows the code.

## Model

| member | source | states |
|---|---|---|
| Accumulators.Plus | python/main.py:76-80 | the fold of one set of accumulators into another, field by field |
| Accumulators.Absorb | python/main.py:57-62 | one batch added into the five accumulators: its loss, its matches, `batch_size` samples, its timer and memory readings |
| Accumulators.Totals | python/main.py:57-62 | the accumulators after batches `lo .. hi-1`, starting from zero; an independent reference that the pass and epoch lemmas state their results in |
| Accumulators.PlusZero | python/main.py:81 | folding in zeroed accumulators changes nothing |
| Accumulators.AvgLoss | python/main.py:68 | the printed average loss times the sample count gives back the summed loss, and it is at least zero when the summed loss is |
| Accumulators.AvgSampleTime | python/main.py:70 | the printed average sample time times the sample count gives back the summed time, and it is at least zero when the summed time is |
| Accumulators.WindowMem | python/main.py:71 | the progress memory average times `monitoring_step` gives back the memory sum |
| Accumulators.WindowMemIsBatchMem | python/main.py:71-88 | for accumulators of `monitoring_step` batches, the progress-line memory average equals the summary-style one |
| Accumulators.TotalsLossNonNegative | python/main.py:57 | non-negative batch losses sum to a non-negative loss over any range |
| Accumulators.Accuracy | python/main.py:69 | `100.0 * tp / samples` lies in [0, 100] whenever `tp <= samples`, and is exactly 100 iff every sample matched |
| Accumulators.BatchMem | python/main.py:88 | the summary memory average times the number of batches the sample count stands for gives back the memory sum, when the count is a whole number of batches |
| Accumulators.TotalsSamples | python/main.py:60 | every batch adds exactly `batch_size` to `sample_count`, so a range of `h - l` batches counts `batch_size * (h - l)` samples |
| Accumulators.TotalsSplit | python/main.py:76-80 | totals over two adjacent ranges, folded together, equal the totals over the whole range (conservation on fold) |
| Accumulators.TotalsSound | python/main.py:59-60 | when no batch matches more labels than `batch_size`, any range's `tp_count` is at most its `sample_count` |
| Accumulators.ConstantClockAverage | python/main.py:61-70 | with a timer reading `t` for every batch, the printed average sample time is `t / batch_size` |
| Monitor.TrainStep | python/main.py:57-81 | one training batch: absorb into the window; on `(batch_n + 1) % monitoring_step == 0` write a progress record, fold and zero; raise when `%` or the `/ float(sample_count)` divides by zero |
| Monitor.TrainPass | python/main.py:36-81 | the batch loop over the first `k` batches, from all-zero accumulators and no records |
| Monitor.EvalStart | python/main.py:95-96 | the evaluation pass starts with samples, matches, loss and memory zeroed and `elapsed_time` kept |
| Monitor.EpochOutcome | python/main.py:36-125 | one epoch: the batch loop, the summary (raising on a zero running sample count or `batch_size`), the evaluation loop and its line (raising likewise) |
| Monitor.OutcomeFrom | python/main.py:33 | epochs `e ..` in order, the first raising epoch ending the run with the records written so far |
| Monitor.RunOutcome | python/main.py:33 | the whole run of `train` from epoch 0 |
| Monitor.RaisedStays | python/main.py:42-81 | once `%` or `/` has raised in the batch loop, nothing more is written |
| Monitor.Train | python/main.py:33-125 | the epoch loop, with each epoch's counters, writes exactly `RunOutcome`'s records and raises exactly when it does |
| Monitor.TrainEpoch | python/main.py:36-125 | one epoch starts with every window and running counter at zero; its batch loop, emission, fold and reset, the summary, the evaluation reset and loop writes exactly `EpochOutcome`'s records |
| MonitorProperties.PassConserves | python/main.py:57-81 | whatever `batch_size` and `monitoring_step` are, until the batch loop raises, the running totals plus the window are exactly the totals of every batch so far: a fold loses and duplicates nothing |
| MonitorProperties.WindowsLength | python/main.py:64 | after `d` batches, `d` a multiple of `monitoring_step`, there are `d / monitoring_step` progress records |
| MonitorProperties.WindowsAt | python/main.py:64-81 | the `j`-th progress record is written at batch `m*j + m - 1` and reports exactly batches `m*j .. m*j + m - 1`, that is `m * batch_size` samples |
| MonitorProperties.WindowsProgress | python/main.py:64-81 | every record of the full windows is a progress line at batch `m*j + m - 1` with `m * batch_size` samples |
| MonitorProperties.TrainPassShape | python/main.py:42-81 | after `k` batches the running totals hold exactly the first `k - k % m` batches, the window holds the remaining ones, and one progress record per full window has been written |
| MonitorProperties.TrainPassAt | python/main.py:42-81 | the same shape, with the last window boundary given |
| MonitorProperties.StepWithinWindow | python/main.py:57-64 | a batch that does not close a window only grows the window |
| MonitorProperties.StepClosingWindow | python/main.py:64-81 | a batch that closes a window appends its progress record, folds the window into the running totals and zeroes the window |
| MonitorProperties.TrainPassRaises | python/main.py:64-68 | the batch loop raises iff `monitoring_step == 0` with at least one batch, or `batch_size == 0` once the first boundary is reached; either way before writing anything |
| MonitorProperties.ZeroBatchSize | python/main.py:60-68 | with `batch_size == 0` the window counts no samples, and the first boundary divides by zero |
| MonitorProperties.EpochShape | python/main.py:42-125 | an epoch with at least one full window writes the window records, a summary of the full windows only, and an evaluation line starting from the leftover window time; it raises iff there are no test batches |
| MonitorProperties.EpochWritesNothing | python/main.py:83-88 | an epoch writes nothing and raises iff `monitoring_step` or `batch_size` is zero or there are fewer batches than `monitoring_step` |
| MonitorProperties.SummaryDropsTrailingWindow | python/main.py:42-88 | the summary counts `batch_size * m * (n / m)` samples, the unfolded trailing window makes up the rest of the epoch's totals, it counts every batch iff `m` divides `n`, and its memory average divides by the `m * (n / m)` folded batches |
| MonitorProperties.EvalInheritsLeftoverTime | python/main.py:95-121 | the evaluation line's time is the leftover training-window time plus the test times, its samples are `batch_size` per test batch, its matches, loss and memory are the test batches' alone, and the time is the test time alone when `m` divides `n` |
| MonitorProperties.ProgressAtBoundaries | python/main.py:64-71 | a progress line for batch `b` is written iff `(b + 1) % monitoring_step == 0`, and every progress line counts `monitoring_step * batch_size` samples |
| MonitorProperties.EpochProgress | python/main.py:64-81 | the first `n / m` records of a full epoch are its progress lines, at batches `m*j + m - 1`, and no later record is one |
| MonitorProperties.TrainPassSound | python/main.py:59-69 | every record of a training pass has a positive sample count; with bounded matches the window, the running totals and every record have `tp <= samples` |
| MonitorProperties.EpochSound | python/main.py:83-125 | the same for the summary and the evaluation line of an epoch |
| MonitorProperties.OutcomeFromSound | python/main.py:33 | the same for all epochs of a run |
| MonitorProperties.AccuracyIsPercentage | python/main.py:64-125 | no written line divides by zero: a run that writes anything has nonzero `batch_size` and `monitoring_step`, and every line has a positive sample count; with bounded matches every accuracy written lies in [0, 100] |
| MonitorProperties.LossAverageNonNegative | python/main.py:57-118 | when no batch reports a negative loss, every line a run writes has a positive sample count and prints an average loss of at least zero |
| MonitorProperties.TrainPassLoss | python/main.py:57-81 | with non-negative losses the window, the running totals and every progress record sum a non-negative loss |
| MonitorProperties.EpochLoss | python/main.py:83-125 | the same for the summary and evaluation lines of an epoch |
| MonitorProperties.OutcomeFromLoss | python/main.py:33 | the same for every epoch of a run |
| MonitorProperties.ProgressMemPerBatch | python/main.py:64-71 | a progress line's memory average `used_mem / monitoring_step` equals its memory per batch of the sample count, since the window holds exactly `monitoring_step` batches |
| MonitorProperties.RunRaises | python/main.py:33 | a run raises iff one of its epochs does |
| PascalCategories.ZipIndex | python/main.py:151-153 | the dictionary's keys are exactly the names, each key maps to a position holding that name, and a later occurrence wins |
| PascalCategories.ZipIndexInverts | python/main.py:151-153 | for distinct names every name maps back to its own position |
| PascalCategories.CategoriesDistinct | python/main.py:128-149 | the twenty category names are pairwise distinct (they are in alphabetical order) |
| PascalCategories.CategoryIndex | python/main.py:151-153 | `object_categories_idx`, the dictionary built from the category list |
| PascalCategories.CategoryIndexBijection | python/main.py:128-153 | `object_categories_idx` is a bijection between the twenty names and 0 .. 19 |
| PascalCategories.TransformPascal | python/main.py:156-159 | succeeds iff the annotation has an object and its first object's name is a category, returning that name's position; fails with no object or an unknown name |
| PascalCategories.TransformPascalRoundTrip | python/main.py:156-159 | the label of an annotation whose first object is category `i` is `i` |
| Datasets.SelectDataset | python/main.py:178-229 | succeeds iff the name is `cifar10`, `mnist` or `pascal`, giving (3, 10), (1, 10) and (3, 20) channels and classes |
| Datasets.MainOutcome | python/main.py:165-229 | `main`: the dataset dispatch, then `train` with 100 epochs, batch size 32 and monitoring step 20, or the "unsupported dataset" failure |
| Datasets.MainRefusesUnknownDatasets | python/main.py:178-229 | `main` fails with "unsupported dataset" iff the name is none of the three, before any batch is used |
| Datasets.ShortDatasetWritesNothing | python/main.py:83-88 | with `main`'s settings (`batch_size = 32`, `monitoring_step = 20`), fewer than 20 training batches make the first summary divide by zero before anything is written |
| Datasets.PascalLabelsFitModel | python/main.py:227 | every label `transform_pascal` produces is below `num_classes=20`, the PASCAL model's class count |

## Left out

- Tensor work (forward pass, loss, `backward`, `optimizer.step`, `argmax`, `torch.max`) is left out because it is foreign library code. Each batch's match count and loss are inputs.
- `GPUTimer`, `get_used_cuda_mem`, NVML and `get_gpu_utilization` are left out because they are device I/O. Timer and memory readings are inputs, and the utilisation field is not part of a record.
- Records hold the raw accumulators. The printed averages are the Accumulators functions. Left out for the same reason:
  - f-string float formatting, `print`, `flush` and opening the profile file are output plumbing;
  - the `batch: n` line goes to stdout, not to the profile file; the field `Progress.batch` stands in for it, and the file line itself has no batch field.
- Float arithmetic: loss, time and memory are exact reals. The model cannot show rounding in sums or averages.
- Dataset download, `transforms`, `DataLoader` shuffling and workers, and the `DEVICE` / `sys.argv` reads are left out as I/O and concurrency. Every batch counts `batch_size` samples, as the source assumes, so a short last batch is not modelled.
- The construction of `ResNet50`, the loss and the optimizer are opaque library objects and are left out. `Config` keeps only the channels and classes passed to the model.
- Negative `batch_size` or `monitoring_step` are not modelled: both are `nat`. `main` uses 32 and 20.
- PASCAL annotations are reduced to their list of object names. A missing `object` key and an empty list are both `NoObject`.
