# SITAR training driver: a verified model of `main()`

SITAR trains video action-recognition models. It is semi-supervised, and
its main trick is to tile a clip's frames into one "super image". Its
entry point `main()` in `main.py` configures and runs one experiment.
Before anything is trained it makes a fixed series of decisions:

- it derives the process seed, the class count and the input channels;
- it chooses the training criterion, an optional distillation wrapper and
  the auxiliary self-supervised criteria from the loss weights;
- it resolves the resume path, with auto-resume from the output
  directory's rolling checkpoint `checkpoint.pth`;
- it restores either the weights alone or the whole training state;
- it stops after one evaluation in the two evaluation-only modes.

Otherwise it runs the epoch loop. Each epoch updates the best top-1
accuracy. With an output directory set, it writes `checkpoint.pth` there,
and also `model_best.pth` when the epoch's accuracy equals the best so far.
It builds one JSON object of statistics, which is appended as a line to
`log.txt` only with an output directory set and on the main process.

This project models those decisions in Dafny and proves properties of the
model. The boundaries are as follows:

- Training, evaluation and the deep-learning library are an oracle. It
  gives each epoch's statistics and the library state saved for that
  epoch.
- The file system is the set of existing paths.
- Loading a checkpoint is a function from its source (URL or local file)
  to a record, or to nothing where the download or the read raises. A
  local file that is not on disk cannot be read. A record has a field per
  key, and the field is present exactly when the key is.

Modules:

- `RunConfig`: the flags the driver reads, their parser defaults, and the
  derived fields.
- `Criterion`: selection of the criterion and the auxiliary criteria.
- `Paths`: `Path /` joins and the two checkpoint file names.
- `Checkpoint`: the saved record, resume-path resolution and restoring.
- `EpochLog`: the statistics line appended to `log.txt`.
- `EpochLoop`:
  - the loop, as a method `TrainLoop`;
  - a specification `Trace` of the loop's state after `n` epochs, built
    from one function per part of that state (`MaxAfter`, `VisitedAfter`,
    `SavesAfter`, `LogAfter`);
  - lemmas about those functions: the running maximum, which files are
    written, what they hold, and what is logged.
- `Driver`: the whole run as a method `Run`, plus the resume step as a
  function `ResumeRun`.

Three behaviours of the code are easy to misread:

- Label smoothing is chosen for any non-zero `smoothing`. The flag is
  tested for truth, so this includes negative values.
- Soft targets are chosen only when `mixup > 0`. A cutmix-only run builds
  the mixup transform but keeps the hard-target criterion.
- In a full restore, `model_ema` is read whenever EMA is enabled, and
  `max_accuracy` is always read. A record missing either key is an error
  (`MissingKey`), not a default.

## Model

| member | source | states |
|---|---|---|
| RunConfig.DefaultArgs | main.py:64-303 | Parser defaults: smoothing 0.1, no mixup or cutmix (no ratio range), all distillation and auxiliary weights 0, distillation temperature 1.0, NT-Xent temperature 0.07, EMA and loss-scaler resume on, no auto-resume, no evaluation mode, empty resume path and output directory, epochs 0 to 150. |
| RunConfig.ProcessSeed | main.py:326 | The process seed is the configured seed offset by the process rank. |
| RunConfig.SeedsDistinctAcrossRanks | main.py:326 | Two processes get the same seed exactly when they have the same rank. |
| RunConfig.InputChannels | main.py:337-340 | RGB has exactly 3 input channels; flow has exactly 2 × 5. |
| RunConfig.WithDerived | main.py:336-340 | The class count comes from the dataset configuration and the channel count from the modality. No other flag changes. |
| Criterion.SelectPrimary | main.py:462-469 | Soft targets iff `mixup > 0`. Otherwise label smoothing iff `smoothing != 0`, carrying that factor. Otherwise plain cross-entropy. Each case is stated as an iff. |
| Criterion.SelectDistill | main.py:472-479 | The first wrapper with a positive weight is chosen, in the order mutual learning, ONE, multi-mixture, self-distillation. Each case is an iff on the weights, and each carries its weight and the shared temperature. There is no wrapper iff all four weights are non-positive. |
| Criterion.SelectLoss | main.py:462-479 | The wrapper is applied to the primary criterion exactly as selected. |
| Criterion.Gate | main.py:482-486 | An auxiliary criterion is present iff its weight is positive. |
| Criterion.SelectAuxiliary | main.py:482-486 | Each of the five auxiliary criteria is present iff its own weight is positive, and each slot holds its own criterion: NT-Xent with the configured temperature, cosine similarity, SimSiam, cross-entropy for MoCo, BYOL. |
| Criterion.MixupActive | main.py:346 | The mixup transform is built iff soft targets are selected, or cutmix has a positive alpha or a ratio range. |
| Criterion.OnlineLearning | main.py:364 | The model gets online-learning branches iff the chosen wrapper is mutual learning or ONE. |
| Criterion.CutmixOnlyKeepsHardTargets | main.py:346 | A cutmix-only run builds the mixup transform but does not select soft targets. |
| Criterion.DefaultCriteria | main.py:462-486 | Under the defaults: label smoothing 0.1, no wrapper, no auxiliary criterion, no mixup transform and no online branches. |
| Paths.DirPrefix | main.py:489 | The directory part of a join: empty for the empty path, the directory itself when it ends in `/`, and the directory plus `/` otherwise. |
| Paths.Join | main.py:498 | A joined path is the file name under the empty path, `dir + name` when `dir` ends in `/`, and `dir + "/" + name` otherwise. It starts with the directory and ends with the file name. |
| Paths.JoinInjective | main.py:647-649 | Within one directory, distinct file names give distinct paths. |
| Paths.LatestPath | main.py:498 | The rolling checkpoint is `checkpoint.pth` directly inside the output directory, with the exact path in each of the three directory cases. |
| Paths.BestPath | main.py:648-649 | The best checkpoint is `model_best.pth` directly inside the output directory, with the exact path in each of the three directory cases. |
| Paths.LatestPathScheme | main.py:498-503 | The rolling checkpoint's path begins with `https` iff the output directory's name does. |
| Paths.LatestIsNotBest | main.py:647-649 | The rolling checkpoint and the best checkpoint are different files. |
| Checkpoint.StateDict | main.py:650-661 | The saved record holds the weights, optimizer, scheduler, scaler, the epoch just finished, the run's arguments and the best accuracy. It holds EMA weights iff EMA is on, and then the snapshot's. |
| Checkpoint.StateDictKeys | main.py:650-661 | The saved keys are exactly the seven fixed keys, plus `model_ema` iff EMA is on. |
| Checkpoint.ResolveResume | main.py:496-500 | An explicit path is kept. With auto-resume and no path, the rolling checkpoint is used iff it exists; otherwise there is no path. |
| Checkpoint.SourceOf | main.py:502-507 | A path beginning with `https` is downloaded; any other path is read from disk. |
| Checkpoint.Fetch | main.py:502-507 | Reading fails, naming the path, iff the path is a local file not on disk or the loader its source selects raises. Otherwise the record is what that loader returns. |
| Checkpoint.FullRestore | main.py:509 | The training state is restored iff the run is not evaluation-only and the record has the `optimizer`, `lr_scheduler` and `epoch` keys. |
| Checkpoint.Restore | main.py:508-518 | A missing `model` is an error. The training state is restored iff not evaluating and optimizer, scheduler and epoch are all present. Then: resume at epoch + 1; take the saved best accuracy; take the scaler iff saved and enabled; EMA iff enabled. A missing `model_ema` is the error `MissingKey("model_ema")`; with EMA satisfied, a missing `max_accuracy` is `MissingKey("max_accuracy")`. |
| Checkpoint.ResumeFromSaved | main.py:508-518 | Save-then-resume round trip: restoring a record the loop wrote gives back its state. It resumes at the epoch after the saved one and keeps the saved best accuracy. |
| Checkpoint.ResumeNeedsSavedEma | main.py:516-517 | Resuming with EMA on from a record saved with EMA off fails on `model_ema`. |
| Checkpoint.EvalRestoresWeightsOnly | main.py:508-509 | An evaluation-only run restores the weights and nothing else. |
| EpochLog.TestMap | main.py:643 | The test statistics include `acc1`. Their keys are the other metrics plus `acc1`, and every other metric keeps its value. |
| EpochLog.PrefixInjective | main.py:664-665 | Prefixing is injective, so distinct statistics keep distinct log keys. |
| EpochLog.Prefixed | main.py:664-665 | Every metric appears, unchanged, under the prefix followed by its own key. |
| EpochLog.PrefixedKeys | main.py:664-665 | A key is in the prefixed map iff it is the prefix plus a source key, and it carries that key's value. |
| EpochLog.LogStatsTrain | main.py:664 | Every training statistic `k` is logged as `train_k` with its value. |
| EpochLog.LogStatsTest | main.py:665 | Every test statistic `k` is logged as `test_k` with its value. |
| EpochLog.LogStats | main.py:664-667 | The line carries the epoch and the trainable-parameter count as given. |
| EpochLog.LogStatsKeys | main.py:664-667 | A key is in the line iff it is `epoch`, `n_parameters`, `train_` plus a training statistic, or `test_` plus a test statistic. |
| EpochLoop.Max | main.py:643 | Python's `max`: an upper bound of both arguments and equal to one of them. |
| EpochLoop.RunningMaxIsMaximum | main.py:643 | The best accuracy bounds the starting best and every accuracy seen, and is one of them. |
| EpochLoop.RunningMaxMonotone | main.py:643 | The best accuracy never decreases. |
| EpochLoop.BestIff | main.py:643-648 | An epoch matches the best accuracy iff its accuracy is at least the starting best and every earlier one. Ties count. |
| EpochLoop.BestEpochsExample | main.py:643-648 | Accuracies 10, 30, 20, 30 from 0: epochs 0, 1 and 3 are best epochs, epoch 2 is not. |
| EpochLoop.Iterations | main.py:611 | `range(start, epochs)` has `epochs - start` elements, or none when empty. |
| EpochLoop.EpochSaves | main.py:646-662 | No writes without an output directory. Otherwise the rolling checkpoint is written, then the best checkpoint iff the accuracy equals the updated best. Both hold that epoch's record. |
| EpochLoop.MaxAfterIsRunningMax | main.py:611-643 | After `n` epochs the best accuracy is the running maximum of the starting best and the first `n` accuracies. |
| EpochLoop.MaxAfterMonotone | main.py:643 | The best accuracy after `i` epochs is at most that after `j ≥ i`. |
| EpochLoop.VisitedAfterInOrder | main.py:611 | The loop visits `start, start+1, …` in order, once each. |
| EpochLoop.LogAfterRecords | main.py:664-671 | With an output directory on the main process, there is one log record per epoch with that epoch's statistics, epoch and parameter count; otherwise none. The line written for a record `r` is `LogStats(r)`. |
| EpochLoop.WritesOfEpoch | main.py:643-662 | An epoch appends exactly its own writes, computed with the updated best accuracy. |
| EpochLoop.BestWrittenIff | main.py:646-649 | Each epoch writes the rolling checkpoint first. It then writes the best checkpoint iff its accuracy is at least the starting best and every earlier accuracy. |
| EpochLoop.NoOutputDirNoWrites | main.py:646 | Without an output directory nothing is written. |
| EpochLoop.EpochSavesSavedBy | main.py:646-662 | Each write of one epoch goes to one of the two files. Its record has exactly the saved keys, the run's arguments and that epoch. |
| EpochLoop.SavedRecords | main.py:646-662 | Every write of the loop goes to one of the two files. Its record has exactly the saved keys, the run's arguments and an epoch of the loop. |
| EpochLoop.LastWriteAppend | main.py:662 | A later write to a file replaces an earlier one. |
| EpochLoop.LatestHoldsLastEpoch | main.py:611-662 | After `n > 0` epochs, the rolling checkpoint holds the last epoch's record with the best accuracy so far. |
| EpochLoop.WriteCheckpoints | main.py:646-662 | The path list is built, then the record is saved to each path in order. The result is the epoch's writes. |
| EpochLoop.TrainEpoch | main.py:613-671 | One pass of the loop body takes the state after `k` epochs to the state after `k + 1`. |
| EpochLoop.TrainLoop | main.py:611-671 | The loop's best accuracy, visited epochs, writes and log lines equal `Trace` for the range's length. The best accuracy is the running maximum, and the epochs visited are exactly the range. |
| Driver.ResumeRun | main.py:488-518 | The resolved path is stored into the arguments. Failure iff there is a path and either reading the checkpoint or restoring from it fails, with the same error. With a full restore, the start epoch and best accuracy come from the record; otherwise the configured start epoch is kept and the best accuracy is 0. Nothing else in the arguments changes. |
| Driver.Run | main.py:307-671 | The setup comes from the flags: seed, criterion, auxiliary criteria, mixup, online branches. A resume error ends the run. Classwise evaluation, then plain evaluation, each evaluate once with no epochs. Otherwise the result is the loop's `Trace` from the resumed start epoch and best accuracy. |
| Driver.MissingResumeFileFails | main.py:502-507 | An explicit resume path to a local file that is not on disk ends the run with that path as the error, also in an evaluation-only run. |
| Driver.AutoResumeContinues | main.py:496-518 | For an output directory whose name does not begin with `https` (so its rolling checkpoint is read from disk), a later run with auto-resume into that directory resumes from the rolling checkpoint. It starts at the epoch after the earlier run's last epoch and keeps its best accuracy. |
| Driver.HttpsNamedOutputDirIsDownloaded | main.py:496-505 | The `https` test is on the string: with output directory `https_runs`, auto-resume treats its own rolling checkpoint as a URL, and a failed download ends the run even though the file is on disk. |

## Left out

- Argument parsing as such, and every flag the decision rules do not read. The model starts from the parsed values.
- Building the model, optimizer, scheduler, EMA model, loss scaler and data loaders, and the super-image sampling (lines 341-458 and 519-593). Only the decisions above are modelled; library state is an opaque handle.
- What training and evaluation compute. An epoch's outcome is an oracle, and the evaluation pass of the evaluation-only modes is a function of the classwise flag.
- The pretrained-weights load of `initial_checkpoint` (lines 491-494). Its weights are library state the model does not track. It can also end the run: a file that cannot be read, or a record without `model`, raises there. The model does not capture that failure, and always continues to the resume step.
- The snapshot of the arguments written to `output_dir/args` at line 311, and the logging of the arguments.
- The rank filter inside `utils.save_on_master`, which is not part of this model. Every process is modelled as writing, and log lines are gated by the main-process flag as at line 669.
- Downloading and deserialising checkpoints, and hash checking. The loader is a parameter. Each of its failures is one outcome: no record, reported as `Unreadable` with the path.
- Timing, printed messages, the scheduler step, and the `hasattr` defaults at lines 316-319. `selfdis_w` is a flag with default 0 in the model.
- Floating-point accuracies. They are exact reals, so NaN comparisons are not modelled.
- Paths.Join: models `Path /` as plain string concatenation with one `/`. It does not model pathlib normalisation: `.`, repeated slashes, and an absolute file name replacing the directory.
- `get_dataset_config` is not part of this model. The class count is a parameter.
- Distributed training and the process rank. The rank is a parameter.
