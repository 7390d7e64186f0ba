/** The checkpoint record, what the driver writes into it, how the resume
    path is resolved, and which parts of a loaded record are restored
    (main.py:496-518, 650-662). */
module Checkpoint {
  import opened Wrappers
  import opened RunConfig
  import opened Paths

  /** An opaque piece of library state (weights, optimizer state, ...). */
  datatype Handle = Handle(id: nat)

  /** The library state the driver can save at the end of an epoch. */
  datatype Snapshot = Snapshot(
    model: Handle, optimizer: Handle, lrScheduler: Handle, scaler: Handle, modelEma: Handle)

  /** A checkpoint record; a field is `Some` exactly when its key is present. */
  datatype Record = Record(
    model: Option<Handle>,
    optimizer: Option<Handle>,
    lrScheduler: Option<Handle>,
    epoch: Option<int>,
    args: Option<Args>,
    scaler: Option<Handle>,
    maxAccuracy: Option<real>,
    modelEma: Option<Handle>)

  /** The keys present in a record. */
  function Keys(r: Record): set<string> {
    (if r.model.Some? then {"model"} else {})
    + (if r.optimizer.Some? then {"optimizer"} else {})
    + (if r.lrScheduler.Some? then {"lr_scheduler"} else {})
    + (if r.epoch.Some? then {"epoch"} else {})
    + (if r.args.Some? then {"args"} else {})
    + (if r.scaler.Some? then {"scaler"} else {})
    + (if r.maxAccuracy.Some? then {"max_accuracy"} else {})
    + (if r.modelEma.Some? then {"model_ema"} else {})
  }

  /** The keys every saved record has. */
  const SavedKeys: set<string> :=
    {"model", "optimizer", "lr_scheduler", "epoch", "args", "scaler", "max_accuracy"}

  /** The record saved after an epoch: all of the training state, the epoch
      just finished, the (possibly updated) arguments and the best accuracy
      so far; the EMA weights only when EMA is enabled. */
  function StateDict(a: Args, epoch: int, maxAccuracy: real, s: Snapshot): (r: Record)
    ensures r.epoch == Some(epoch) && r.maxAccuracy == Some(maxAccuracy) && r.args == Some(a)
    ensures r.model == Some(s.model) && r.optimizer == Some(s.optimizer)
    ensures r.lrScheduler == Some(s.lrScheduler) && r.scaler == Some(s.scaler)
    ensures r.modelEma.Some? <==> a.modelEma
    ensures r.modelEma.Some? ==> r.modelEma.value == s.modelEma
  {
    Record(
      model := Some(s.model),
      optimizer := Some(s.optimizer),
      lrScheduler := Some(s.lrScheduler),
      epoch := Some(epoch),
      args := Some(a),
      scaler := Some(s.scaler),
      maxAccuracy := Some(maxAccuracy),
      modelEma := if a.modelEma then Some(s.modelEma) else None)
  }

  /** A saved record has exactly the seven keys always saved, plus the EMA
      weights when EMA is enabled. */
  lemma StateDictKeys(a: Args, epoch: int, maxAccuracy: real, s: Snapshot)
    ensures Keys(StateDict(a, epoch, maxAccuracy, s)) == SavedKeys + (if a.modelEma then {"model_ema"} else {})
  {
  }

  /** The resume path after auto-resume: an explicit path is kept; with
      auto-resume and no explicit path, the output directory's rolling
      checkpoint if that file exists, and still no path otherwise.
      `existing` is the set of files present on disk. */
  function ResolveResume(a: Args, existing: set<string>): (path: string)
    ensures a.resume != "" ==> path == a.resume
    ensures !a.autoResume ==> path == a.resume
    ensures a.autoResume && a.resume == "" ==>
              (path != "" <==> LatestPath(a.outputDir) in existing)
    ensures path != "" && path != a.resume ==> path == LatestPath(a.outputDir) && path in existing
  {
    if a.autoResume && a.resume == "" then
      var candidate := LatestPath(a.outputDir);
      if candidate in existing then candidate else ""
    else a.resume
  }

  /** Where a checkpoint is loaded from. */
  datatype Source = Url(url: string) | LocalFile(path: string)

  /** A resume path beginning with `https` is downloaded; any other path is
      read from disk. */
  function SourceOf(resume: string): (s: Source)
    ensures s.Url? <==> StartsWith(resume, "https")
    ensures s == Url(resume) || s == LocalFile(resume)
  {
    if StartsWith(resume, "https") then Url(resume) else LocalFile(resume)
  }

  /** Training progress restored from a complete checkpoint. */
  datatype TrainingState = TrainingState(
    optimizer: Handle,
    lrScheduler: Handle,
    scaler: Option<Handle>,
    modelEma: Option<Handle>,
    startEpoch: int,
    maxAccuracy: real)

  /** What a resume restores: the model weights always, the training
      progress only for a training run from a complete checkpoint. */
  datatype Restored = Restored(model: Handle, training: Option<TrainingState>)

  /** Why a resume fails: the checkpoint at the path cannot be read or
      downloaded, or a key the driver reads unconditionally is absent
      (Python's KeyError). */
  datatype LoadError = Unreadable(path: string) | MissingKey(key: string)

  /** Reading the checkpoint at a resume path. `load` stands for the loader
      the path's source selects (download for a URL, read for a local file)
      and is `None` where that call raises; a local file that is not on disk
      (not in `existing`) cannot be read, whatever the loader. */
  function Fetch(path: string, existing: set<string>, load: Source -> Option<Record>): (r: Result<Record, LoadError>)
    ensures r.Failure? <==> (SourceOf(path).LocalFile? && path !in existing) || load(SourceOf(path)).None?
    ensures r.Failure? ==> r.error == Unreadable(path)
    ensures r.Success? ==> load(SourceOf(path)) == Some(r.value)
  {
    var src := SourceOf(path);
    if src.LocalFile? && path !in existing then Failure(Unreadable(path))
    else match load(src)
      case None => Failure(Unreadable(path))
      case Some(rec) => Success(rec)
  }

  /** The gate of a full restore: not an evaluation-only run, and the
      optimizer, scheduler and epoch are all present. */
  predicate FullRestore(a: Args, r: Record): (b: bool)
    ensures b <==> !a.eval && {"optimizer", "lr_scheduler", "epoch"} <= Keys(r)
  {
    !a.eval && r.optimizer.Some? && r.lrScheduler.Some? && r.epoch.Some?
  }

  /** Restoring from a loaded record. The model weights are always read;
      a full restore also takes the optimizer and scheduler, resumes from
      the epoch after the saved one, takes the saved best accuracy, takes
      the scaler only when saved and resuming it is enabled, and reads the
      EMA weights whenever EMA is enabled. */
  function Restore(a: Args, r: Record): (res: Result<Restored, LoadError>)
    ensures r.model.None? ==> res == Failure(MissingKey("model"))
    ensures res.Success? ==> Some(res.value.model) == r.model
    ensures res.Success? ==> (res.value.training.Some? <==> FullRestore(a, r))
    ensures r.model.Some? && !FullRestore(a, r) ==> res.Success?
    ensures r.model.Some? && FullRestore(a, r) ==>
              (res.Failure? <==> (a.modelEma && r.modelEma.None?) || r.maxAccuracy.None?)
    ensures r.model.Some? && FullRestore(a, r) && a.modelEma && r.modelEma.None? ==>
              res == Failure(MissingKey("model_ema"))
    ensures r.model.Some? && FullRestore(a, r) && !(a.modelEma && r.modelEma.None?) && r.maxAccuracy.None? ==>
              res == Failure(MissingKey("max_accuracy"))
    ensures res.Success? && res.value.training.Some? ==>
              var t := res.value.training.value;
              && Some(t.optimizer) == r.optimizer
              && Some(t.lrScheduler) == r.lrScheduler
              && t.startEpoch == r.epoch.value + 1
              && Some(t.maxAccuracy) == r.maxAccuracy
              && (t.scaler.Some? <==> r.scaler.Some? && a.resumeLossScaler)
              && (t.scaler.Some? ==> t.scaler == r.scaler)
              && (t.modelEma.Some? <==> a.modelEma)
              && (t.modelEma.Some? ==> t.modelEma == r.modelEma)
  {
    if r.model.None? then Failure(MissingKey("model"))
    else if !FullRestore(a, r) then Success(Restored(r.model.value, None))
    else if a.modelEma && r.modelEma.None? then Failure(MissingKey("model_ema"))
    else if r.maxAccuracy.None? then Failure(MissingKey("max_accuracy"))
    else
      var scaler := if r.scaler.Some? && a.resumeLossScaler then r.scaler else None;
      var ema := if a.modelEma then r.modelEma else None;
      Success(Restored(r.model.value, Some(TrainingState(
        r.optimizer.value, r.lrScheduler.value, scaler, ema,
        r.epoch.value + 1, r.maxAccuracy.value))))
  }

  /** Save-then-resume round trip: a training run resuming from a record
      the driver saved gets back the saved state, continues from the epoch
      after the saved one, and keeps the saved best accuracy, provided the
      record carries EMA weights whenever the resuming run uses EMA. */
  lemma ResumeFromSaved(saver: Args, resumer: Args, epoch: int, maxAccuracy: real, s: Snapshot)
    requires !resumer.eval
    requires resumer.modelEma ==> saver.modelEma
    ensures Restore(resumer, StateDict(saver, epoch, maxAccuracy, s)) ==
            Success(Restored(s.model, Some(TrainingState(
              s.optimizer, s.lrScheduler,
              if resumer.resumeLossScaler then Some(s.scaler) else None,
              if resumer.modelEma then Some(s.modelEma) else None,
              epoch + 1, maxAccuracy))))
  {
  }

  /** A run with EMA enabled cannot resume training from a record saved
      without EMA weights: the missing key is an error, not a default. */
  lemma ResumeNeedsSavedEma(saver: Args, resumer: Args, epoch: int, maxAccuracy: real, s: Snapshot)
    requires !resumer.eval && resumer.modelEma && !saver.modelEma
    ensures Restore(resumer, StateDict(saver, epoch, maxAccuracy, s)) == Failure(MissingKey("model_ema"))
  {
  }

  /** An evaluation-only run takes the model weights from any record that
      has them and nothing else. */
  lemma EvalRestoresWeightsOnly(a: Args, r: Record)
    requires a.eval && r.model.Some?
    ensures Restore(a, r) == Success(Restored(r.model.value, None))
  {
  }
}
