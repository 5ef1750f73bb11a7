/** What every `update` keeps to: gradients are zeroed before an epoch's loss calls, every
    step is clipped first, the critic's step is followed by the soft update of the target
    critic, each epoch serves its drawn transitions exactly once, and how many of each event
    one update causes. */
module Discipline {
  import opened Data
  import opened Batching
  import opened Events
  import opened Schedule

  datatype Option<T> = None | Some(value: T)

  // ---------------------------------------------------------------- the optimizer automaton

  /** Where the trainer stands between two events. */
  datatype Mode =
    | Idle                               // no gradient pending
    | Accumulating(optimizer: Optimizer)  // gradients zeroed, losses being backpropagated
    | Clipped(optimizer: Optimizer)       // gradients clipped, step due
    | AwaitingSoftUpdate                 // critic stepped, target update due

  /** The one event allowed in each mode, and the mode it leads to. */
  function Next(m: Mode, e: Event): Option<Mode>
  {
    match e
    case ZeroGrad(o) => if m == Idle then Some(Accumulating(o)) else None
    case LossCall(o, _) => if m == Accumulating(o) then Some(m) else None
    case ClipGradNorm(_) => if m.Accumulating? then Some(Clipped(m.optimizer)) else None
    case OptimizerStep(o) =>
      if m == Clipped(o) then Some(if o == CriticOptimizer then AwaitingSoftUpdate else Idle) else None
    case SoftUpdateTarget(_) => if m == AwaitingSoftUpdate then Some(Idle) else None
  }

  /** The mode after the events `es` from mode `m`, or `None` at the first event out of turn. */
  function Run(m: Mode, es: seq<Event>): Option<Mode>
    decreases |es|
  {
    if |es| == 0 then Some(m)
    else match Next(m, es[0])
      case None => None
      case Some(m') => Run(m', es[1..])
  }

  /** The events keep the discipline and leave nothing pending. */
  predicate Disciplined(es: seq<Event>)
  {
    Run(Idle, es) == Some(Idle)
  }

  lemma {:induction false} RunAppend(m: Mode, a: seq<Event>, b: seq<Event>)
    ensures Run(m, a + b) == match Run(m, a) case None => None case Some(m') => Run(m', b)
    decreases |a|
  {
    if |a| == 0 {
      assert a + b == b;
    } else {
      assert (a + b)[0] == a[0] && (a + b)[1..] == a[1..] + b;
      match Next(m, a[0])
      case None =>
      case Some(m') => RunAppend(m', a[1..], b);
    }
  }

  lemma DisciplinedAppend(a: seq<Event>, b: seq<Event>)
    requires Disciplined(a) && Disciplined(b)
    ensures Disciplined(a + b)
  {
    RunAppend(Idle, a, b);
  }

  lemma {:induction false} RunLossCalls(o: Optimizer, bs: seq<ServedBatch>)
    ensures Run(Accumulating(o), LossCalls(o, bs)) == Some(Accumulating(o))
    decreases |bs|
  {
    if |bs| > 0 {
      assert LossCalls(o, bs)[1..] == LossCalls(o, bs[1..]);
      RunLossCalls(o, bs[1..]);
    }
  }

  lemma EpochDisciplined(cfg: Config, o: Optimizer, bs: seq<ServedBatch>)
    ensures Disciplined(EpochEvents(cfg, o, bs))
  {
    var calls := LossCalls(o, bs);
    RunAppend(Idle, [ZeroGrad(o)] + calls, Closing(cfg, o));
    RunAppend(Idle, [ZeroGrad(o)], calls);
    RunLossCalls(o, bs);
    ClosingRuns(cfg, o);
  }

  /** Closing an epoch leaves nothing pending. */
  lemma ClosingRuns(cfg: Config, o: Optimizer)
    ensures Run(Accumulating(o), Closing(cfg, o)) == Some(Idle)
  {
    var c := Closing(cfg, o);
    if o == CriticOptimizer {
      assert c == [ClipGradNorm(cfg.maxGradNorm), OptimizerStep(o), SoftUpdateTarget(cfg.tau)];
      assert c[1..] == [OptimizerStep(o), SoftUpdateTarget(cfg.tau)];
      assert c[1..][1..] == [SoftUpdateTarget(cfg.tau)] && c[1..][1..][1..] == [];
      assert Run(AwaitingSoftUpdate, c[1..][1..]) == Some(Idle);
      assert Run(Clipped(o), c[1..]) == Some(Idle);
    } else {
      assert c == [ClipGradNorm(cfg.maxGradNorm), OptimizerStep(o)];
      assert c[1..] == [OptimizerStep(o)] && c[1..][1..] == [];
      assert Run(Clipped(o), c[1..]) == Some(Idle);
    }
  }

  lemma {:induction false} PhaseDisciplined(cfg: Config, o: Optimizer, draws: seq<seq<Transition>>, size: nat)
    requires size > 0
    ensures Disciplined(PhaseEvents(cfg, o, draws, size))
    decreases |draws|
  {
    if |draws| > 0 {
      PhaseDisciplined(cfg, o, draws[..|draws| - 1], size);
      EpochDisciplined(cfg, o, LoaderBatches(draws[|draws| - 1], size));
      DisciplinedAppend(PhaseEvents(cfg, o, draws[..|draws| - 1], size),
                        EpochEvents(cfg, o, LoaderBatches(draws[|draws| - 1], size)));
    }
  }

  /** Every update keeps the discipline, so a disciplined history stays disciplined. */
  lemma UpdateDisciplined(cfg: Config, policyLm: string, batchSize: nat, criticDraws: seq<seq<Transition>>,
                          actorDraws: seq<seq<Transition>>, noUpdateActor: bool)
    requires batchSize > 0
    ensures Disciplined(UpdateEvents(cfg, policyLm, batchSize, criticDraws, actorDraws, noUpdateActor))
  {
    PhaseDisciplined(cfg, CriticOptimizer, criticDraws, batchSize);
    if !noUpdateActor {
      PhaseDisciplined(cfg, LmOptimizer, actorDraws, ActorBatchSize(policyLm, batchSize));
      DisciplinedAppend(PhaseEvents(cfg, CriticOptimizer, criticDraws, batchSize),
                        PhaseEvents(cfg, LmOptimizer, actorDraws, ActorBatchSize(policyLm, batchSize)));
    }
  }

  /** In a disciplined history every loss call of `o` falls while `o` accumulates gradients:
      after its `zero_grad` and before its step. */
  lemma LossCallsAccumulate(es: seq<Event>, i: nat)
    requires Disciplined(es) && i < |es| && es[i].LossCall?
    ensures Run(Idle, es[..i]) == Some(Accumulating(es[i].optimizer))
  {
    assert es == es[..i] + es[i..];
    RunAppend(Idle, es[..i], es[i..]);
    assert es[i..][0] == es[i];
  }

  /** In a disciplined history every optimizer step comes right after a gradient clip. */
  lemma StepsAreClipped(es: seq<Event>, i: nat)
    requires Disciplined(es) && i < |es| && es[i].OptimizerStep?
    ensures 0 < i && es[i - 1].ClipGradNorm?
  {
    assert es == es[..i] + es[i..];
    RunAppend(Idle, es[..i], es[i..]);
    assert es[i..][0] == es[i];
    assert i > 0;
    assert es[..i] == es[..i - 1] + [es[i - 1]];
    RunAppend(Idle, es[..i - 1], [es[i - 1]]);
  }

  /** In a disciplined history every critic step is followed by the soft update of the
      target critic. */
  lemma CriticStepsUpdateTarget(es: seq<Event>, i: nat)
    requires Disciplined(es) && i < |es| && es[i] == OptimizerStep(CriticOptimizer)
    ensures i + 1 < |es| && es[i + 1].SoftUpdateTarget?
  {
    assert es == es[..i] + es[i..];
    RunAppend(Idle, es[..i], es[i..]);
    assert es[i..][0] == es[i];
    assert es[i..][1..] == es[i + 1..];
    assert i + 1 < |es|;
    assert es[i + 1..][0] == es[i + 1];
  }

  // ---------------------------------------------------------------- counts

  /** The kinds of event counted. */
  datatype Kind = ZeroGradOf(optimizer: Optimizer) | LossOf(optimizer: Optimizer) | Clip
                | StepOf(optimizer: Optimizer) | SoftUpdate

  predicate IsKind(e: Event, k: Kind)
  {
    match k
    case ZeroGradOf(o) => e == ZeroGrad(o)
    case LossOf(o) => e.LossCall? && e.optimizer == o
    case Clip => e.ClipGradNorm?
    case StepOf(o) => e == OptimizerStep(o)
    case SoftUpdate => e.SoftUpdateTarget?
  }

  /** The number of events of kind `k`. */
  function Count(es: seq<Event>, k: Kind): nat
    decreases |es|
  {
    if |es| == 0 then 0
    else Count(es[..|es| - 1], k) + (if IsKind(es[|es| - 1], k) then 1 else 0)
  }

  lemma {:induction false} CountAppend(a: seq<Event>, b: seq<Event>, k: Kind)
    ensures Count(a + b, k) == Count(a, k) + Count(b, k)
    decreases |b|
  {
    if |b| == 0 {
      assert a + b == a;
    } else {
      assert (a + b)[..|a + b| - 1] == a + b[..|b| - 1];
      CountAppend(a, b[..|b| - 1], k);
    }
  }

  lemma {:induction false} CountLossCalls(o: Optimizer, bs: seq<ServedBatch>, k: Kind)
    ensures Count(LossCalls(o, bs), k) == if k == LossOf(o) then |bs| else 0
    decreases |bs|
  {
    if |bs| > 0 {
      assert LossCalls(o, bs)[..|bs| - 1] == LossCalls(o, bs[..|bs| - 1]);
      CountLossCalls(o, bs[..|bs| - 1], k);
    }
  }

  /** How many events of kind `k` one epoch of `o` over `n` batches has. */
  function PerEpoch(o: Optimizer, n: nat, k: Kind): nat
  {
    match k
    case ZeroGradOf(p) => if p == o then 1 else 0
    case LossOf(p) => if p == o then n else 0
    case Clip => 1
    case StepOf(p) => if p == o then 1 else 0
    case SoftUpdate => if o == CriticOptimizer then 1 else 0
  }

  lemma EpochCount(cfg: Config, o: Optimizer, bs: seq<ServedBatch>, k: Kind)
    ensures Count(EpochEvents(cfg, o, bs), k) == PerEpoch(o, |bs|, k)
  {
    var calls := LossCalls(o, bs);
    CountAppend([ZeroGrad(o)] + calls, Closing(cfg, o), k);
    CountAppend([ZeroGrad(o)], calls, k);
    CountLossCalls(o, bs, k);
    CountOne(ZeroGrad(o), k);
    ClosingCount(cfg, o, k);
  }

  lemma CountOne(e: Event, k: Kind)
    ensures Count([e], k) == if IsKind(e, k) then 1 else 0
  {
    assert [e][..0] == [];
  }

  lemma ClosingCount(cfg: Config, o: Optimizer, k: Kind)
    ensures Count(Closing(cfg, o), k) ==
            (if k == Clip then 1 else 0) + (if k == StepOf(o) then 1 else 0) +
            (if k == SoftUpdate && o == CriticOptimizer then 1 else 0)
  {
    var clip, step := ClipGradNorm(cfg.maxGradNorm), OptimizerStep(o);
    CountOne(clip, k);
    CountOne(step, k);
    CountAppend([clip], [step], k);
    if o == CriticOptimizer {
      assert Closing(cfg, o) == [clip] + [step] + [SoftUpdateTarget(cfg.tau)];
      CountOne(SoftUpdateTarget(cfg.tau), k);
      CountAppend([clip] + [step], [SoftUpdateTarget(cfg.tau)], k);
    } else {
      assert Closing(cfg, o) == [clip] + [step];
    }
  }

  /** A phase whose every epoch serves `n` batches has `|draws|` times an epoch's events. */
  lemma {:induction false} PhaseCount(cfg: Config, o: Optimizer, draws: seq<seq<Transition>>, size: nat,
                                      n: nat, k: Kind)
    requires size > 0
    requires forall e | 0 <= e < |draws| :: |LoaderBatches(draws[e], size)| == n
    ensures Count(PhaseEvents(cfg, o, draws, size), k) == |draws| * PerEpoch(o, n, k)
    decreases |draws|
  {
    if |draws| > 0 {
      var m := |draws| - 1;
      var bs := LoaderBatches(draws[m], size);
      PhaseCount(cfg, o, draws[..m], size, n, k);
      CountAppend(PhaseEvents(cfg, o, draws[..m], size), EpochEvents(cfg, o, bs), k);
      EpochCount(cfg, o, bs, k);
      OneMore(m, PerEpoch(o, n, k));
    }
  }

  lemma OneMore(m: nat, p: nat)
    ensures (m + 1) * p == m * p + p
  {
  }

  /** The counts of one update whose every epoch drew `grad_accum_steps * batch_size`
      transitions: `epochs` critic epochs of `grad_accum_steps` batches each, then, unless the
      actor is frozen, `actor_epochs` actor epochs of `ceil(grad_accum_steps * batch_size /
      action_bsize)` batches each. */
  lemma UpdateCount(cfg: Config, policyLm: string, batchSize: nat, criticDraws: seq<seq<Transition>>,
                    actorDraws: seq<seq<Transition>>, noUpdateActor: bool, k: Kind)
    requires batchSize > 0
    requires |criticDraws| == cfg.epochs
    requires forall e | 0 <= e < |criticDraws| :: |criticDraws[e]| == cfg.gradAccumSteps * batchSize
    requires !noUpdateActor ==> |actorDraws| == cfg.actorEpochs
    requires !noUpdateActor ==> forall e | 0 <= e < |actorDraws| :: |actorDraws[e]| == cfg.gradAccumSteps * batchSize
    ensures var actorBatches := CeilDiv(cfg.gradAccumSteps * batchSize, ActorBatchSize(policyLm, batchSize));
            Count(UpdateEvents(cfg, policyLm, batchSize, criticDraws, actorDraws, noUpdateActor), k) ==
            cfg.epochs * PerEpoch(CriticOptimizer, cfg.gradAccumSteps, k) +
            (if noUpdateActor then 0 else cfg.actorEpochs * PerEpoch(LmOptimizer, actorBatches, k))
  {
    var g := cfg.gradAccumSteps;
    var abs := ActorBatchSize(policyLm, batchSize);
    forall e | 0 <= e < |criticDraws| ensures |LoaderBatches(criticDraws[e], batchSize)| == g {
      LoaderBatchCount(criticDraws[e], batchSize, g);
    }
    PhaseCount(cfg, CriticOptimizer, criticDraws, batchSize, g, k);
    if !noUpdateActor {
      forall e | 0 <= e < |actorDraws|
        ensures |LoaderBatches(actorDraws[e], abs)| == CeilDiv(g * batchSize, abs)
      {
        LoaderBatchCount(actorDraws[e], abs, 0);
      }
      PhaseCount(cfg, LmOptimizer, actorDraws, abs, CeilDiv(g * batchSize, abs), k);
      CountAppend(PhaseEvents(cfg, CriticOptimizer, criticDraws, batchSize),
                  PhaseEvents(cfg, LmOptimizer, actorDraws, abs), k);
    }
  }

  /** The headline counts: `epochs * grad_accum_steps` critic loss calls, one soft update and
      one critic step per critic epoch, and no language-model event at all when the actor is
      frozen. */
  lemma UpdateCounts(cfg: Config, policyLm: string, batchSize: nat, criticDraws: seq<seq<Transition>>,
                     actorDraws: seq<seq<Transition>>, noUpdateActor: bool)
    requires batchSize > 0
    requires |criticDraws| == cfg.epochs
    requires forall e | 0 <= e < |criticDraws| :: |criticDraws[e]| == cfg.gradAccumSteps * batchSize
    requires !noUpdateActor ==> |actorDraws| == cfg.actorEpochs
    requires !noUpdateActor ==> forall e | 0 <= e < |actorDraws| :: |actorDraws[e]| == cfg.gradAccumSteps * batchSize
    ensures var es := UpdateEvents(cfg, policyLm, batchSize, criticDraws, actorDraws, noUpdateActor);
            && Count(es, LossOf(CriticOptimizer)) == cfg.epochs * cfg.gradAccumSteps
            && Count(es, ZeroGradOf(CriticOptimizer)) == cfg.epochs
            && Count(es, StepOf(CriticOptimizer)) == cfg.epochs
            && Count(es, SoftUpdate) == cfg.epochs
            && Count(es, StepOf(LmOptimizer)) == (if noUpdateActor then 0 else cfg.actorEpochs)
            && (noUpdateActor ==> Count(es, LossOf(LmOptimizer)) == 0 && Count(es, ZeroGradOf(LmOptimizer)) == 0)
  {
    UpdateCount(cfg, policyLm, batchSize, criticDraws, actorDraws, noUpdateActor, LossOf(CriticOptimizer));
    UpdateCount(cfg, policyLm, batchSize, criticDraws, actorDraws, noUpdateActor, ZeroGradOf(CriticOptimizer));
    UpdateCount(cfg, policyLm, batchSize, criticDraws, actorDraws, noUpdateActor, StepOf(CriticOptimizer));
    UpdateCount(cfg, policyLm, batchSize, criticDraws, actorDraws, noUpdateActor, SoftUpdate);
    UpdateCount(cfg, policyLm, batchSize, criticDraws, actorDraws, noUpdateActor, StepOf(LmOptimizer));
    UpdateCount(cfg, policyLm, batchSize, criticDraws, actorDraws, noUpdateActor, LossOf(LmOptimizer));
    UpdateCount(cfg, policyLm, batchSize, criticDraws, actorDraws, noUpdateActor, ZeroGradOf(LmOptimizer));
  }
  /** With the constructor's defaults (`grad_accum_steps = 8`, `epochs = 3`,
      `actor_epochs = 3`) one update makes 24 critic loss calls, 3 critic steps each followed
      by a soft update, and 3 language-model steps unless the actor is frozen. */
  lemma DefaultUpdateCounts(policyLm: string, batchSize: nat, criticDraws: seq<seq<Transition>>,
                            actorDraws: seq<seq<Transition>>, noUpdateActor: bool)
    requires batchSize > 0
    requires |criticDraws| == 3 && forall e | 0 <= e < 3 :: |criticDraws[e]| == 8 * batchSize
    requires !noUpdateActor ==> |actorDraws| == 3 && forall e | 0 <= e < 3 :: |actorDraws[e]| == 8 * batchSize
    ensures var es := UpdateEvents(DefaultConfig, policyLm, batchSize, criticDraws, actorDraws, noUpdateActor);
            && Count(es, LossOf(CriticOptimizer)) == 24
            && Count(es, StepOf(CriticOptimizer)) == 3
            && Count(es, SoftUpdate) == 3
            && Count(es, StepOf(LmOptimizer)) == (if noUpdateActor then 0 else 3)
  {
    UpdateCounts(DefaultConfig, policyLm, batchSize, criticDraws, actorDraws, noUpdateActor);
  }


  // ---------------------------------------------------------------- coverage

  /** The batches of the loss calls among `es`, in order. */
  function LossBatches(es: seq<Event>): seq<ServedBatch>
    decreases |es|
  {
    if |es| == 0 then []
    else LossBatches(es[..|es| - 1]) + (if es[|es| - 1].LossCall? then [es[|es| - 1].batch] else [])
  }

  lemma {:induction false} LossBatchesAppend(a: seq<Event>, b: seq<Event>)
    ensures LossBatches(a + b) == LossBatches(a) + LossBatches(b)
    decreases |b|
  {
    if |b| == 0 {
      assert a + b == a;
    } else {
      assert (a + b)[..|a + b| - 1] == a + b[..|b| - 1];
      LossBatchesAppend(a, b[..|b| - 1]);
    }
  }

  lemma {:induction false} LossBatchesOfCalls(o: Optimizer, bs: seq<ServedBatch>)
    ensures LossBatches(LossCalls(o, bs)) == bs
    decreases |bs|
  {
    if |bs| > 0 {
      assert LossCalls(o, bs)[..|bs| - 1] == LossCalls(o, bs[..|bs| - 1]);
      LossBatchesOfCalls(o, bs[..|bs| - 1]);
    }
  }

  /** An epoch computes one loss on each batch the loader serves, in order. */
  lemma EpochCoverage(cfg: Config, o: Optimizer, bs: seq<ServedBatch>)
    ensures LossBatches(EpochEvents(cfg, o, bs)) == bs
  {
    var calls := LossCalls(o, bs);
    LossBatchesAppend([ZeroGrad(o)] + calls, Closing(cfg, o));
    LossBatchesAppend([ZeroGrad(o)], calls);
    LossBatchesOfCalls(o, bs);
    assert [ZeroGrad(o)][..0] == [];
    ClosingServesNothing(cfg, o);
  }

  lemma ClosingServesNothing(cfg: Config, o: Optimizer)
    ensures LossBatches(Closing(cfg, o)) == []
  {
    var c := Closing(cfg, o);
    if o == CriticOptimizer {
      assert c == [ClipGradNorm(cfg.maxGradNorm), OptimizerStep(o), SoftUpdateTarget(cfg.tau)];
      assert c[..2] == [ClipGradNorm(cfg.maxGradNorm), OptimizerStep(o)];
      assert c[..2][..1] == [ClipGradNorm(cfg.maxGradNorm)] && c[..2][..1][..0] == [];
      assert LossBatches(c[..2][..1]) == [];
      assert LossBatches(c[..2]) == [];
    } else {
      assert c == [ClipGradNorm(cfg.maxGradNorm), OptimizerStep(o)];
      assert c[..1] == [ClipGradNorm(cfg.maxGradNorm)] && c[..1][..0] == [];
      assert LossBatches(c[..1]) == [];
    }
  }

  /** Every transition a phase draws is used by exactly one loss call, in the order drawn. */
  lemma {:induction false} PhaseCoverage(cfg: Config, o: Optimizer, draws: seq<seq<Transition>>, size: nat)
    requires size > 0
    ensures ServedRows(LossBatches(PhaseEvents(cfg, o, draws, size))) == Flatten(draws)
    decreases |draws|
  {
    if |draws| > 0 {
      var m := |draws| - 1;
      var bs := LoaderBatches(draws[m], size);
      PhaseCoverage(cfg, o, draws[..m], size);
      LossBatchesAppend(PhaseEvents(cfg, o, draws[..m], size), EpochEvents(cfg, o, bs));
      EpochCoverage(cfg, o, bs);
      ServedRowsAppend(LossBatches(PhaseEvents(cfg, o, draws[..m], size)), bs);
      LoaderServesAll(draws[m], size);
      assert draws == draws[..m] + [draws[m]];
      FlattenAppend(draws[..m], [draws[m]]);
      assert Flatten([draws[m]]) == draws[m] + Flatten([draws[m]][1..]);
    }
  }

  /** A phase of `o` calls no other optimizer's loss. */
  predicate OnlyLossesOf(es: seq<Event>, o: Optimizer)
  {
    forall i | 0 <= i < |es| && es[i].LossCall? :: es[i].optimizer == o
  }

  lemma {:induction false} PhaseOnlyLossesOf(cfg: Config, o: Optimizer, draws: seq<seq<Transition>>, size: nat)
    requires size > 0
    ensures OnlyLossesOf(PhaseEvents(cfg, o, draws, size), o)
    decreases |draws|
  {
    if |draws| > 0 {
      PhaseOnlyLossesOf(cfg, o, draws[..|draws| - 1], size);
      var c := Closing(cfg, o);
      assert forall i | 0 <= i < |c| :: !c[i].LossCall?;
    }
  }
}
