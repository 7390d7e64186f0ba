/** The loss criteria chosen once at setup (main.py:346, 364, 462-486): one
    primary criterion, at most one distillation-style wrapper around it, and
    an independent on/off choice per auxiliary criterion. */
module Criterion {
  import opened Wrappers
  import opened RunConfig

  /** The supervised criterion applied to labeled outputs. */
  datatype Primary = SoftTarget | LabelSmoothing(smoothing: real) | Plain

  /** The distillation-style wrapper, if any, around the primary criterion. */
  datatype Distill =
    | NoDistill
    | DeepMutual(weight: real, temperature: real)
    | One(weight: real, temperature: real)
    | MulMixture(beta: real)
    | SelfDistillation(weight: real, temperature: real)

  /** The criterion handed to every training epoch. */
  datatype Loss = Loss(primary: Primary, distill: Distill)

  /** The auxiliary criteria, built only for a positive weight. */
  datatype AuxLoss = NtXent(temperature: real) | CosineSimilarity | SimSiam | MocoCrossEntropy | Byol

  datatype Auxiliary = Auxiliary(
    simclr: Option<AuxLoss>,
    branchDiv: Option<AuxLoss>,
    simsiam: Option<AuxLoss>,
    moco: Option<AuxLoss>,
    byol: Option<AuxLoss>)

  /** Whether the mixup/cutmix batch transform is built: any of the mixup
      alpha, the cutmix alpha or a cutmix ratio range turns it on. So the
      transform is built whenever the soft-target criterion is chosen, and
      otherwise only for cutmix. */
  predicate MixupActive(a: Args): (b: bool)
    ensures b <==> SelectPrimary(a).SoftTarget? || a.cutmix > 0.0 || a.cutmixMinmax.Some?
  {
    a.mixup > 0.0 || a.cutmix > 0.0 || a.cutmixMinmax.Some?
  }

  /** Whether the model is built with the extra branches of online
      (mutual) learning: exactly when the chosen wrapper is one of the two
      that needs them. */
  predicate OnlineLearning(a: Args): (b: bool)
    ensures b <==> SelectDistill(a).DeepMutual? || SelectDistill(a).One?
  {
    a.oneW > 0.0 || a.dmlW > 0.0
  }

  /** The primary criterion, by priority: a positive mixup alpha selects
      soft targets; otherwise any non-zero smoothing (the flag is tested for
      truth) selects label smoothing with that factor; otherwise plain
      cross-entropy. */
  function SelectPrimary(a: Args): (p: Primary)
    ensures p.SoftTarget? <==> a.mixup > 0.0
    ensures p.LabelSmoothing? <==> a.mixup <= 0.0 && a.smoothing != 0.0
    ensures p.Plain? <==> a.mixup <= 0.0 && a.smoothing == 0.0
    ensures p.LabelSmoothing? ==> p.smoothing == a.smoothing
  {
    if a.mixup > 0.0 then SoftTarget
    else if a.smoothing != 0.0 then LabelSmoothing(a.smoothing)
    else Plain
  }

  /** The distillation wrapper: the first of deep mutual learning, ONE,
      multi-mixture and self-distillation whose weight is positive, with its
      own weight and the shared distillation temperature; none when all
      four weights are non-positive. */
  function SelectDistill(a: Args): (d: Distill)
    ensures d.NoDistill? <==> a.dmlW <= 0.0 && a.oneW <= 0.0 && a.mulmixB <= 0.0 && a.selfdisW <= 0.0
    ensures d.DeepMutual? <==> a.dmlW > 0.0
    ensures d.One? <==> a.dmlW <= 0.0 && a.oneW > 0.0
    ensures d.MulMixture? <==> a.dmlW <= 0.0 && a.oneW <= 0.0 && a.mulmixB > 0.0
    ensures d.SelfDistillation? <==> a.dmlW <= 0.0 && a.oneW <= 0.0 && a.mulmixB <= 0.0 && a.selfdisW > 0.0
    ensures d.DeepMutual? ==> d.weight == a.dmlW && d.temperature == a.kdTemp
    ensures d.One? ==> d.weight == a.oneW && d.temperature == a.kdTemp
    ensures d.MulMixture? ==> d.beta == a.mulmixB
    ensures d.SelfDistillation? ==> d.weight == a.selfdisW && d.temperature == a.kdTemp
  {
    if a.dmlW > 0.0 then DeepMutual(a.dmlW, a.kdTemp)
    else if a.oneW > 0.0 then One(a.oneW, a.kdTemp)
    else if a.mulmixB > 0.0 then MulMixture(a.mulmixB)
    else if a.selfdisW > 0.0 then SelfDistillation(a.selfdisW, a.kdTemp)
    else NoDistill
  }

  /** The training criterion: the wrapper, if any, is built around the
      primary criterion exactly as selected. */
  function SelectLoss(a: Args): (c: Loss)
    ensures c.primary == SelectPrimary(a)
    ensures c.distill == SelectDistill(a)
  {
    Loss(SelectPrimary(a), SelectDistill(a))
  }

  /** One auxiliary criterion: present exactly when its weight is positive. */
  function Gate(w: real, loss: AuxLoss): (g: Option<AuxLoss>)
    ensures g.Some? <==> w > 0.0
    ensures g.Some? ==> g.value == loss
  {
    if w > 0.0 then Some(loss) else None
  }

  /** The auxiliary criteria, each gated by its own weight alone. */
  function SelectAuxiliary(a: Args): (x: Auxiliary)
    ensures x.simclr.Some? <==> a.simclrW > 0.0
    ensures x.branchDiv.Some? <==> a.branchDivW > 0.0
    ensures x.simsiam.Some? <==> a.simsiamW > 0.0
    ensures x.moco.Some? <==> a.mocoW > 0.0
    ensures x.byol.Some? <==> a.byolW > 0.0
    ensures x.simclr.Some? ==> x.simclr.value == NtXent(a.temperature)
    ensures x.branchDiv.Some? ==> x.branchDiv.value == CosineSimilarity
    ensures x.simsiam.Some? ==> x.simsiam.value == SimSiam
    ensures x.moco.Some? ==> x.moco.value == MocoCrossEntropy
    ensures x.byol.Some? ==> x.byol.value == Byol
  {
    Auxiliary(
      Gate(a.simclrW, NtXent(a.temperature)),
      Gate(a.branchDivW, CosineSimilarity),
      Gate(a.simsiamW, SimSiam),
      Gate(a.mocoW, MocoCrossEntropy),
      Gate(a.byolW, Byol))
  }

  /** A cutmix-only configuration builds the mixup transform but keeps the
      (label-smoothing or plain) hard-target criterion. */
  lemma CutmixOnlyKeepsHardTargets(a: Args)
    requires a.mixup <= 0.0 && a.cutmix > 0.0
    ensures MixupActive(a)
    ensures !SelectPrimary(a).SoftTarget?
  {
  }

  /** Under the parser defaults the criterion is label smoothing with
      factor 0.1, unwrapped, and no auxiliary criterion is built. */
  lemma DefaultCriteria()
    ensures SelectLoss(DefaultArgs()) == Loss(LabelSmoothing(0.1), NoDistill)
    ensures SelectAuxiliary(DefaultArgs()) == Auxiliary(None, None, None, None, None)
    ensures !MixupActive(DefaultArgs()) && !OnlineLearning(DefaultArgs())
  {
  }
}
