/** The run driver `main()` (main.py:307-676) reduced to its decisions:
    derived configuration, criterion selection, resume, the evaluation-only
    short-circuit and the epoch loop. Everything the driver obtains from
    libraries or from disk is a field of `Env`. */
module Driver {
  import opened Wrappers
  import opened RunConfig
  import opened Criterion
  import opened Paths
  import opened Checkpoint
  import opened EpochLog
  import opened EpochLoop

  /** What the driver obtains from outside: the process rank, the class
      count of the dataset configuration, the files on disk, checkpoint
      loading, the evaluation pass of the evaluation-only modes (given the
      classwise flag), the trainable-parameter count, whether this is the
      main process, and what each training epoch produces. */
  datatype Env = Env(
    rank: nat,
    datasetClasses: nat,
    existing: set<string>,
    load: Source -> Option<Record>,
    evaluate: bool -> TestStats,
    nParameters: nat,
    isMain: bool,
    outcome: int -> EpochOutcome)

  /** The choices made once, before any epoch. */
  datatype Setup = Setup(seed: int, mixupActive: bool, onlineLearning: bool, loss: Loss, auxiliary: Auxiliary)

  /** How a run ends: a checkpoint that cannot be read or lacks a key, one
      evaluation pass, or the full training loop. */
  datatype Outcome =
    | Failed(error: LoadError)
    | Evaluated(classwise: bool, args: Args, restored: Option<Restored>, stats: TestStats)
    | Trained(args: Args, restored: Option<Restored>, progress: Progress)

  /** The arguments, what was restored and the best accuracy after resume. */
  datatype Resumed = Resumed(args: Args, restored: Option<Restored>, maxAccuracy: real)

  /** The resume step as a whole (main.py:488, 496-518): resolve the path,
      read the record if there is a path, and restore from it. The resolved
      path is stored back into the arguments, and so is the start epoch of a
      full restore; the best accuracy starts at 0 unless a full restore
      provides it. */
  function ResumeRun(a: Args, existing: set<string>, load: Source -> Option<Record>): (r: Result<Resumed, LoadError>)
    ensures var path := ResolveResume(a, existing);
            var f := Fetch(path, existing, load);
            && (r.Failure? <==> path != "" && (f.Failure? || Restore(a.(resume := path), f.value).Failure?))
            && (r.Failure? && f.Failure? ==> r.error == f.error)
            && (r.Failure? && f.Success? ==> r.error == Restore(a.(resume := path), f.value).error)
            && (r.Success? ==> r.value.args.resume == path)
            && (r.Success? ==> r.value.args.(resume := a.resume, startEpoch := a.startEpoch) == a)
            && (r.Success? ==> (r.value.restored.Some? <==> path != ""))
            && (r.Success? && r.value.restored.Some? ==>
                  f.Success? && Success(r.value.restored.value) == Restore(a.(resume := path), f.value))
    ensures r.Success? && r.value.restored.Some? && r.value.restored.value.training.Some? ==>
              r.value.args.startEpoch == r.value.restored.value.training.value.startEpoch
              && r.value.maxAccuracy == r.value.restored.value.training.value.maxAccuracy
    ensures r.Success? && (r.value.restored.None? || r.value.restored.value.training.None?) ==>
              r.value.args.startEpoch == a.startEpoch && r.value.maxAccuracy == 0.0
  {
    var path := ResolveResume(a, existing);
    var a1 := a.(resume := path);
    if path == "" then Success(Resumed(a1, None, 0.0))
    else
      match Fetch(path, existing, load)
      case Failure(e) => Failure(e)
      case Success(record) =>
        match Restore(a1, record)
        case Failure(e) => Failure(e)
        case Success(rs) =>
          if rs.training.Some? then
            Success(Resumed(a1.(startEpoch := rs.training.value.startEpoch), Some(rs), rs.training.value.maxAccuracy))
          else Success(Resumed(a1, Some(rs), 0.0))
  }

  /** An explicit resume path to a local file that is not on disk ends the
      run, in an evaluation-only run as much as in a training run. */
  lemma MissingResumeFileFails(a: Args, existing: set<string>, load: Source -> Option<Record>)
    requires a.resume != "" && !StartsWith(a.resume, "https") && a.resume !in existing
    ensures ResumeRun(a, existing, load) == Failure(Unreadable(a.resume))
  {
  }

  /** The driver. The setup choices depend on the flags alone; a resume
      error ends the run; the classwise and plain evaluation modes (tested in
      that order) run one evaluation and stop before any epoch or write;
      otherwise the loop runs from the (possibly resumed) start epoch with
      the (possibly resumed) best accuracy, as `Trace` describes. */
  method Run(args0: Args, env: Env) returns (setup: Setup, outcome: Outcome)
    ensures setup.seed == ProcessSeed(args0.seed, env.rank)
    ensures setup.loss == SelectLoss(args0) && setup.auxiliary == SelectAuxiliary(args0)
    ensures setup.mixupActive == MixupActive(args0) && setup.onlineLearning == OnlineLearning(args0)
    ensures var resumed := ResumeRun(WithDerived(args0, env.datasetClasses), env.existing, env.load);
            && (outcome.Failed? <==> resumed.Failure?)
            && (outcome.Failed? ==> outcome.error == resumed.error)
            && (outcome.Evaluated? <==> resumed.Success? && (args0.classwiseEval || args0.eval))
            && (outcome.Evaluated? ==>
                  && outcome.classwise == args0.classwiseEval
                  && outcome.args == resumed.value.args
                  && outcome.restored == resumed.value.restored
                  && outcome.stats == env.evaluate(args0.classwiseEval))
            && (outcome.Trained? ==>
                  && outcome.args == resumed.value.args
                  && outcome.restored == resumed.value.restored
                  && outcome.progress == Trace(resumed.value.args, resumed.value.maxAccuracy, env.nParameters,
                                               env.isMain, env.outcome,
                                               Iterations(resumed.value.args.startEpoch, args0.epochs)))
  {
    var args := args0;
    var seed := ProcessSeed(args.seed, env.rank);
    args := args.(numClasses := Some(env.datasetClasses));
    args := args.(inputChannels := Some(InputChannels(args.modality)));
    assert args == WithDerived(args0, env.datasetClasses);
    var mixupActive := MixupActive(args);
    var onlineLearning := OnlineLearning(args);
    var loss := SelectLoss(args);
    var auxiliary := SelectAuxiliary(args);
    setup := Setup(seed, mixupActive, onlineLearning, loss, auxiliary);

    var resumed := ResumeRun(args, env.existing, env.load);
    if resumed.Failure? {
      outcome := Failed(resumed.error);
      return;
    }
    var restored := resumed.value.restored;
    var maxAccuracy := resumed.value.maxAccuracy;
    args := resumed.value.args;

    if args.classwiseEval {
      var stats := env.evaluate(true);
      outcome := Evaluated(true, args, restored, stats);
      return;
    }
    if args.eval {
      var stats := env.evaluate(false);
      outcome := Evaluated(false, args, restored, stats);
      return;
    }
    var progress := TrainLoop(args, maxAccuracy, env.nParameters, env.isMain, env.outcome);
    outcome := Trained(args, restored, progress);
  }

  /** Auto-resume picks up where an earlier training run into the same
      output directory stopped: after `n > 0` epochs of that run, a run with
      auto-resume and no explicit path finds the rolling checkpoint, resumes
      at the epoch after the earlier run's last one, and keeps its best
      accuracy. This holds for an output directory whose rolling checkpoint
      is read from disk; `load` is any loader that returns what that file
      holds. */
  lemma AutoResumeContinues(
    earlier: Args, m0: real, outcome: int -> EpochOutcome, n: nat,
    later: Args, existing: set<string>, load: Source -> Option<Record>)
    requires earlier.outputDir != "" && n > 0
    requires later.autoResume && later.resume == "" && later.outputDir == earlier.outputDir
    requires !later.eval && (later.modelEma ==> earlier.modelEma)
    requires !StartsWith(earlier.outputDir, "https")
    requires LatestPath(earlier.outputDir) in existing
    requires load(LocalFile(LatestPath(earlier.outputDir)))
             == LastWrite(SavesAfter(earlier, m0, outcome, n), LatestPath(earlier.outputDir))
    ensures var r := ResumeRun(later, existing, load);
            && r.Success?
            && r.value.args.resume == LatestPath(earlier.outputDir)
            && r.value.args.startEpoch == earlier.startEpoch + n
            && r.value.maxAccuracy == MaxAfter(earlier, m0, outcome, n)
            && r.value.restored.Some? && r.value.restored.value.training.Some?
  {
    LatestPathScheme(earlier.outputDir);
    LatestHoldsLastEpoch(earlier, m0, outcome, n);
    var e := earlier.startEpoch + n - 1;
    var m := MaxAfter(earlier, m0, outcome, n);
    var path := LatestPath(earlier.outputDir);
    assert ResolveResume(later, existing) == path;
    ResumeFromSaved(earlier, later.(resume := path), e, m, outcome(e).state);
  }

  /** A resume path is tested for `https` as a string: an output directory
      whose name begins with `https` makes auto-resume treat its own rolling
      checkpoint as a URL to download, and a failed download ends the run
      even though the file is on disk. */
  lemma HttpsNamedOutputDirIsDownloaded(a: Args, existing: set<string>, load: Source -> Option<Record>)
    requires a.autoResume && a.resume == "" && a.outputDir == "https_runs"
    requires LatestPath(a.outputDir) in existing
    ensures ResolveResume(a, existing) == LatestPath(a.outputDir)
    ensures SourceOf(LatestPath(a.outputDir)) == Url(LatestPath(a.outputDir))
    ensures load(Url(LatestPath(a.outputDir))).None? ==>
              ResumeRun(a, existing, load) == Failure(Unreadable(LatestPath(a.outputDir)))
  {
    var path := LatestPath(a.outputDir);
    assert path == a.outputDir + "/" + "checkpoint.pth";
    assert path[..5] == a.outputDir[..5] == "https";
  }
}
