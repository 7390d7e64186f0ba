/** The run configuration: the parsed command-line flags that the driver's
    decision rules read, their parser defaults, and the fields the driver
    derives from them before anything else is built (main.py:326, 336-340). */
module RunConfig {
  import opened Wrappers

  /** The `--modality` flag; the parser only admits these two choices. */
  datatype Modality = Rgb | Flow

  /** The flags that the driver's rules read. `numClasses` and
      `inputChannels` are absent after parsing and set by the driver. */
  datatype Args = Args(
    seed: int,
    modality: Modality,
    numClasses: Option<nat>,
    inputChannels: Option<nat>,
    mixup: real,
    cutmix: real,
    cutmixMinmax: Option<seq<real>>,
    smoothing: real,
    dmlW: real,
    oneW: real,
    mulmixB: real,
    selfdisW: real,
    kdTemp: real,
    simclrW: real,
    temperature: real,
    branchDivW: real,
    simsiamW: real,
    mocoW: real,
    byolW: real,
    modelEma: bool,
    resumeLossScaler: bool,
    autoResume: bool,
    resume: string,
    outputDir: string,
    eval: bool,
    classwiseEval: bool,
    startEpoch: int,
    epochs: int)

  /** The parser's defaults for the flags above. */
  function DefaultArgs(): (a: Args)
    ensures a.numClasses == None && a.inputChannels == None
    ensures a.smoothing == 0.1 && a.mixup == 0.0 && a.cutmix == 0.0 && a.cutmixMinmax == None
    ensures a.dmlW == 0.0 && a.oneW == 0.0 && a.mulmixB == 0.0 && a.selfdisW == 0.0 && a.kdTemp == 1.0
    ensures a.simclrW == 0.0 && a.branchDivW == 0.0 && a.simsiamW == 0.0 && a.mocoW == 0.0 && a.byolW == 0.0
    ensures a.temperature == 0.07
    ensures a.modelEma && a.resumeLossScaler && !a.autoResume && !a.eval && !a.classwiseEval
    ensures a.resume == "" && a.outputDir == "" && a.startEpoch == 0 && a.epochs == 150
  {
    Args(
      seed := 0, modality := Rgb, numClasses := None, inputChannels := None,
      mixup := 0.0, cutmix := 0.0, cutmixMinmax := None, smoothing := 0.1,
      dmlW := 0.0, oneW := 0.0, mulmixB := 0.0, selfdisW := 0.0, kdTemp := 1.0,
      simclrW := 0.0, temperature := 0.07, branchDivW := 0.0, simsiamW := 0.0,
      mocoW := 0.0, byolW := 0.0,
      modelEma := true, resumeLossScaler := true,
      autoResume := false, resume := "", outputDir := "",
      eval := false, classwiseEval := false,
      startEpoch := 0, epochs := 150)
  }

  /** The seed of one process: the configured seed offset by the process rank. */
  function ProcessSeed(seed: int, rank: nat): (s: int)
    ensures s - rank == seed
  {
    seed + rank
  }

  /** Processes of one run never share a seed. */
  lemma SeedsDistinctAcrossRanks(seed: int, r1: nat, r2: nat)
    ensures ProcessSeed(seed, r1) == ProcessSeed(seed, r2) <==> r1 == r2
  {
  }

  /** Input channels per modality: three colour planes, or five stacked
      two-component optical-flow frames. */
  function InputChannels(m: Modality): (c: nat)
    ensures m == Rgb <==> c == 3
    ensures m == Flow <==> c == 2 * 5
  {
    match m
    case Rgb => 3
    case Flow => 2 * 5
  }

  /** The configuration after the dataset lookup: the class count comes from
      the dataset configuration and the channel count from the modality;
      every flag is left as it was. */
  function WithDerived(a: Args, datasetClasses: nat): (b: Args)
    ensures b.numClasses == Some(datasetClasses)
    ensures b.inputChannels == Some(InputChannels(a.modality))
    ensures b.(numClasses := a.numClasses, inputChannels := a.inputChannels) == a
  {
    a.(numClasses := Some(datasetClasses), inputChannels := Some(InputChannels(a.modality)))
  }
}
