# Ants/bees training script: a verified model of its dataset and training schedule

The repository is a short PyTorch tutorial, `utils.py`. It lists the `.jpg`
images of a phase (`train` or `val`) under `./hymenoptera_data/`, wraps them in
`HymenopteraDataset`, and trains a classifier with `train_model`. This project
models the logic the script owns:

- `labels.dfy` (module `Labels`). The glob pattern, and how `__getitem__` derives a
  label from a fixed character window of the path. The window is `[25:29]` for
  `train` and `[23:27]` for `val`, and it uses Python slice semantics, where
  bounds past the end are clamped. `"ants"` maps to 0 and `"bees"` maps to 1.
  Any other window text is returned as it is.
- `dataset.dfy` (module `Dataset`). `make_datapath_list` as a method that copies
  the globbed paths in a loop. `HymenopteraDataset` as a class whose constant
  fields are set by its constructor, with `Len` and `GetItem`. `GetItem`
  follows Python list indexing, so negative indices count from the end.
- `training.dfy` (module `Training`). `train_model` as nested loops over epochs,
  phases and batches. The loops append to a trace of events: `Header`, `Mode`,
  `ZeroGrad`, `Forward(grad)`, `Backward`, `Step` and `Report(phase, corrects, size)`.
  `grad` records whether the forward pass runs with gradients enabled (`torch.set_grad_enabled`).
  The network, loss function and optimizer are opaque; the trace records which
  of their operations run and in what order. The methods are proved equal to
  the specification functions `PhaseRun`, `EpochRun` and `Run`. A run stops
  (`completed == false`) at the first pass that raises.
- `schedule.dfy` (module `Schedule`). Properties of those functions: mode
  order, report and step counts, when a run completes, the mode discipline of
  the whole trace, and the accuracy bound.
- `wrappers.dfy` (module `Wrappers`). `Result` and `Option`.

A batch is a sequence of `(pred, truth)` pairs. `pred` is the predicted class,
taken as given. The loader of each phase is a function from (epoch, phase) to
the batches that pass yields, plus the length of each phase's dataset.

A pass that is not skipped aborts in two cases. An empty dataset makes
`epoch_loss / len(dataset)` raise `ZeroDivisionError` (utils.py:119). A loader
that yields no batches leaves `epoch_corrects` as the plain integer `0`, so
`epoch_corrects.double()` raises `AttributeError` (utils.py:120), even when the
dataset is non-empty. The model aborts in both cases, following the code.

## Model

| member | source | states |
|---|---|---|
| `Labels.GlobPatternExtendsPhaseDir` | utils.py:45-46 | The glob pattern is the phase directory `./hymenoptera_data/<phase>/` followed by `**/*.jpg`. |
| `Labels.WindowStartIsPhaseDirLength` | utils.py:72-75 | The hard-coded offsets 25 and 23 equal the lengths of `./hymenoptera_data/train/` and `./hymenoptera_data/val/`. |
| `Labels.Slice` | utils.py:73-75 | Python `s[i:j]` never fails: the result holds exactly the characters at positions i..j-1 that exist, so its length is clamped to the end of `s`. |
| `Labels.ClassOf` | utils.py:77-80 | The label is 0 exactly for `"ants"` and 1 exactly for `"bees"`; any other text comes back unchanged as a raw label. |
| `Labels.LabelOf` | utils.py:72-80 | A label exists exactly for the phases `train` and `val`; for any other phase `label` is never bound, so the access fails. |
| `Labels.LabelAfterPhaseDir` | utils.py:72-80 | For every path `PhaseDir(phase) + rest`, the label is the mapping of the first four characters of `rest` (fewer when `rest` is shorter). |
| `Labels.ClassDirectoryLabels` | utils.py:72-80 | Any path under `<phase>/ants` is labelled 0 and any path under `<phase>/bees` is labelled 1. |
| `Labels.LabelReadsOnlyWindow` | utils.py:72-75 | Two paths that reach equally far into the phase's window (both not at all, or both to the same position) and agree on the characters they have there get the same label, whatever their lengths. |
| `Labels.LabelIgnoresSuffix` | utils.py:72-75 | Appending anything to a path that already covers the window leaves the label unchanged. |
| `Labels.ShortPathLabel` | utils.py:72-82 | A path that ends before the window does gets a truncated or empty raw label, not an error. |
| `Dataset.MakeDatapathList` | utils.py:44-54 | Returns the pattern it prints, `PhaseDir(phase) + "**/*.jpg"`, and a list equal to the globbed paths, in their order. |
| `Dataset.HymenopteraDataset.constructor` | utils.py:58-61 | Stores the file list and the phase. |
| `Dataset.HymenopteraDataset.Len` | utils.py:63-64 | Returns the number of listed paths. |
| `Dataset.HymenopteraDataset.GetItem` | utils.py:66-82 | Fails with `IndexOutOfRange` exactly when the index is outside `-len .. len-1`. Otherwise it reads `file_list[index]` (negative indices from the end) and returns that path with its derived label, or `NoLabel(UnknownPhase)` for a phase other than train/val. |
| `Dataset.ListedPathsGetClassLabels` | utils.py:72-80 | In a dataset whose paths all lie in the phase's `ants/` or `bees/` directory, every index gets its directory's label: 0 for `ants/`, 1 for `bees/`. |
| `Training.Corrects` | utils.py:117 | The per-batch correct count is at most the batch size. It equals the size exactly when every prediction matches, and is 0 exactly when none does. |
| `Training.TotalCorrects` | utils.py:97-117 | `epoch_corrects`, summed from 0 over a pass's batches, never exceeds the number of samples seen. |
| `Training.RunPhase` | utils.py:90-122 | One (epoch, phase) pass produces exactly `PhaseRun`: the mode is set and the accumulator reset before the epoch-0 train skip. Every batch calls zero_grad and the forward pass, and a train batch also calls backward and step. Then come the divisions and the report, or the abort. |
| `Training.RunEpoch` | utils.py:87-122 | One epoch produces exactly `EpochRun`: the header, then the train and val passes in that order, stopping at an abort. |
| `Training.TrainModel` | utils.py:84-122 | The whole run produces exactly `Run(N, N)`: epochs 0..N-1 in order, stopping at the first abort. |
| `Training.RunStaysAborted` | utils.py:119-120 | Once a run has aborted, later epochs add no events. |
| `Training.PhasesStayAborted` | utils.py:90-120 | Once a pass aborts, the later phases of that epoch do not run. |
| `Schedule.BatchCallsFilter` | utils.py:104-113 | One batch sets no mode and prints no report. It calls step once in train and never in val. |
| `Schedule.BatchesFilter` | utils.py:102-117 | The batch loop steps the optimizer once per train batch, never in val, and sets no mode and prints no report. |
| `Schedule.PhaseFilterRan` | utils.py:91-117 | Up to its report, a pass that is not skipped sets its own mode once, then holds only what its batch loop holds. |
| `Schedule.PhaseShape` | utils.py:99-122 | A pass that is not skipped is its mode and its batch calls, then its report line exactly when it completes. |
| `Schedule.PhaseCompletes` | utils.py:99-120 | A pass completes exactly when it is the skipped epoch-0 train pass, or when its dataset is non-empty and its loader yields at least one batch. |
| `Schedule.PhaseModes` | utils.py:91-100 | A pass sets exactly its own mode, once, even when it is the skipped pass. |
| `Schedule.PhaseSteps` | utils.py:99-113 | A pass steps the optimizer once per batch when it trains after epoch 0, and otherwise never. |
| `Schedule.PhaseReports` | utils.py:99-122 | A pass prints one report line exactly when it completes and is not skipped, and none otherwise. |
| `Schedule.EpochUnfold` | utils.py:90 | An epoch is its header, the train pass, and then the val pass unless the train pass aborted. |
| `Schedule.EpochShape` | utils.py:87-122 | A completed epoch is its header, its completed train pass, then its val pass. |
| `Schedule.EpochCompletes` | utils.py:99-120 | An epoch completes exactly when both of its passes complete. |
| `Schedule.EpochModes` | utils.py:87-94 | Each epoch starts with its header. Its modes are train then val, and only train when the train pass aborts. |
| `Schedule.RunCompletesIff` | utils.py:86-120 | A run of k epochs completes exactly when every pass of epochs 0..k-1 completes (both directions). |
| `Schedule.RunCompletesWithData` | utils.py:99-120 | With non-empty datasets and at least one batch per non-skipped pass, the run completes. An empty train dataset only matters from the second epoch on. |
| `Schedule.EpochFilter` | utils.py:90-122 | A completed epoch's steps and reports are those of its train pass followed by those of its val pass. |
| `Schedule.EpochReportCount` | utils.py:99-122 | A completed epoch prints two report lines, or one in epoch 0. |
| `Schedule.EpochStepCount` | utils.py:99-113 | A completed epoch steps the optimizer once per train batch after epoch 0, and never in epoch 0. |
| `Schedule.RunFilter` | utils.py:86-122 | The steps and reports of a completed run of k epochs are those of its first k-1 epochs followed by those of epoch k-1, both of which completed. |
| `Schedule.RunReportStep` | utils.py:86-122 | The last epoch of a completed run adds two report lines, or one when it is epoch 0. |
| `Schedule.RunStepStep` | utils.py:86-113 | The last epoch of a completed run adds one optimizer step per train batch, or none when it is epoch 0. |
| `Schedule.RunReportCount` | utils.py:86-122 | A completed run of k >= 1 epochs prints 2k-1 report lines. |
| `Schedule.RunStepCount` | utils.py:86-113 | A completed run steps the optimizer once per train batch of epochs 1..k-1, and never in val. |
| `Schedule.FirstEpochTrace` | utils.py:87-122 | When the val pass has data, epoch 0 completes as the header, the train mode, the val mode, the val batch calls and one val report. |
| `Schedule.FirstEpochSkipsTraining` | utils.py:99-100 | When the val pass has data, epoch 0 is the header, the train mode, then the val mode straight away, the val batches and one val report. It has no step. |
| `Schedule.BatchCallsInMode` | utils.py:104-113 | One batch's calls fit the mode of its phase and leave it unchanged; its forward pass has gradients enabled exactly in train. |
| `Schedule.BatchesInMode` | utils.py:102-117 | The batch loop fits the mode of its phase and leaves it unchanged. |
| `Schedule.PhaseInMode` | utils.py:91-122 | A pass fits the mode it sets itself, whatever mode was in force before, and leaves that mode in force. |
| `Schedule.EpochInMode` | utils.py:87-122 | An epoch's events fit the mode in force, starting from any mode. |
| `Schedule.RunInMode` | utils.py:84-122 | Over a whole run, aborted or not, no network or optimizer call comes before a mode is set. Gradients are enabled for a forward pass exactly when train mode is in force. Every backward and step happens in train mode. Every report is printed in its own phase's mode. |
| `Schedule.AccuracyAtMostOne` | utils.py:120 | `corrects / size` lies in [0, 1] when corrects <= size. |
| `Schedule.PhaseAccuracy` | utils.py:117-122 | A pass's report line has a positive size and an accuracy in [0, 1], provided the loader yields no more samples than the dataset holds. |
| `Schedule.EpochAccuracy` | utils.py:117-122 | Every report line of an epoch, aborted or not, has a positive size and an accuracy in [0, 1], provided the loaders yield no more samples than their datasets hold. |
| `Schedule.RunAccuracy` | utils.py:117-122 | Every report line of a run, aborted or not, has an accuracy in [0, 1], provided the loaders yield no more samples than their datasets hold. |

## Left out

- `ImageTransform` (utils.py:21-42) is not part of this model. It configures torchvision transforms: random crops, flips and float normalisation inside a library.
- `glob.glob` enumeration and `Image.open` (utils.py:51, 68) are file-system I/O. The globbed paths are an input, and an item carries the path its image would be opened from instead of the image.
- `Dataset.HymenopteraDataset.GetItem`: for a phase other than train/val, the source raises `KeyError` inside the transform before the label is read. The model gives one error, `NoLabel(UnknownPhase)`, without telling the two apart. Which transform object is stored is not modelled.
- The forward pass, the loss value, `loss.backward()` and `optimizer.step()` are opaque calls recorded as events. The changes to the network and optimizer state are not modelled.
- `Training.RunPhase`: the `epoch_loss` float accumulation and the `Loss:` value of the report line are not modelled, because they are floating-point values from an opaque criterion. `Report` carries the correct count and the dataset length, and the accuracy is their quotient.
- `Training.TrainModel`: exceptions raised inside the loader (`Image.open` at utils.py:68, or the transform's `KeyError` for an unknown phase at utils.py:70), the network, the criterion or the optimizer are not modelled. Only the two aborts at utils.py:119-120 are.
- `torch.max` over the outputs (utils.py:109) is not modelled: predictions are given integers, since tie-breaking belongs to the library.
- How the loader batches and shuffles is not modelled. Each (epoch, phase) pass yields an arbitrary sequence of batches given by the loader function.
- Global seeding (utils.py:17-19), `tqdm` progress output, the `print` calls' decimal formatting and the unused imports are not modelled. The `Header` event stands for the two lines printed at the start of each epoch.
- Default arguments (`phase="train"`, `transform=None`) are not modelled: every call passes the phase explicitly.
