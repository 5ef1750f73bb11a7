/** `ArcherOfflineTrainer`: the loss calls and the `update` loop, as methods over the trainer's
    step counter and the events it has caused so far. */
module Trainer {
  import opened Records
  import opened Data
  import opened Events
  import opened Agents
  import opened Schedule
  import opened Discipline
  import opened Diagnostics
  import opened Outcomes

  class ArcherOfflineTrainer {
    const agent: ShapedAgent
    const config: Config
    const lib: Library
    /** `critic_iql_loss` and `actor_awr_loss` (the latter preceded by the actions and
        advantages `update` computes without gradients), as what they report. */
    const losses: Evaluator
    /** How many times `update` was called. */
    var step: nat
    /** Every zero_grad, backward pass, clip, optimizer step and soft update so far, in order.
        The networks are functions of it. */
    var trace: seq<Event>

    /** Nothing is pending between two updates: no gradients accumulated and not stepped, no
        soft update left owing; and every loss call reports its optimizer's keys. */
    ghost predicate Valid()
      reads this
    {
      Disciplined(trace) && Keyed(losses)
    }

    constructor (agent: ShapedAgent, config: Config, lib: Library)
      ensures this.agent == agent && this.config == config && this.lib == lib
      ensures losses == Evaluate(agent, config, lib)
      ensures step == 0 && trace == [] && Valid()
    {
      this.agent := agent;
      this.config := config;
      this.lib := lib;
      losses := Evaluate(agent, config, lib);
      EvaluateKeyed(agent, config, lib);
      step := 0;
      trace := [];
    }

    /** One loss call of optimizer `o` on a batch: the record, with the networks as the
        events so far left them, and the backward pass of the loss. */
    method CallLoss(o: Optimizer, b: ServedBatch) returns (record: map<Key, real>)
      modifies this
      ensures trace == old(trace) + [LossCall(o, b)] && step == old(step)
      ensures record == losses(old(trace), o, b)
    {
      record := losses(trace, o, b);
      trace := trace + [LossCall(o, b)];
    }

    /** `for batch in dataloader: info_list.append(loss(batch))`: one loss call per batch,
        in order, returning their records. */
    method AccumulateLosses(o: Optimizer, bs: seq<ServedBatch>) returns (infos: seq<map<Key, real>>)
      modifies this
      ensures trace == old(trace) + LossCalls(o, bs) && step == old(step)
      ensures infos == RecordsOf(losses, old(trace), LossCalls(o, bs))
    {
      ghost var h := trace;
      infos := [];
      var i := 0;
      while i < |bs|
        invariant 0 <= i <= |bs| && step == old(step)
        invariant trace == h + LossCalls(o, bs[..i])
        invariant infos == RecordsOf(losses, h, LossCalls(o, bs[..i]))
      {
        var record := CallLoss(o, bs[i]);
        RecordsOfLossCallsSnoc(losses, h, o, bs, i);
        LossCallsSnoc(o, bs, i);
        infos := infos + [record];
        i := i + 1;
      }
      assert bs[..i] == bs;
    }

    /** The end of an epoch: clip the gradients, step the optimizer and, for the critic,
        soft-update the target critic. */
    method CloseEpoch(o: Optimizer)
      modifies this
      ensures trace == old(trace) + Closing(config, o) && step == old(step)
    {
      trace := trace + [ClipGradNorm(config.maxGradNorm), OptimizerStep(o)];
      if o == CriticOptimizer {
        trace := trace + [SoftUpdateTarget(config.tau)];
      }
    }

    /** One epoch of optimizer `o` over the batches the loader serves: zero the gradients, one
        loss call per batch, close the epoch. Returns the records of the loss calls. */
    method RunEpoch(o: Optimizer, bs: seq<ServedBatch>) returns (infos: seq<map<Key, real>>)
      requires Valid()
      modifies this
      ensures trace == old(trace) + EpochEvents(config, o, bs) && step == old(step)
      ensures infos == RecordsOf(losses, old(trace), EpochEvents(config, o, bs))
      ensures Valid()
    {
      ghost var h := trace;
      trace := trace + [ZeroGrad(o)];
      infos := AccumulateLosses(o, bs);
      CloseEpoch(o);
      EpochEventsAppend(h, config, o, bs);
      EpochRecords(losses, h, config, o, bs);
      EpochDisciplined(config, o, bs);
      DisciplinedAppend(h, EpochEvents(config, o, bs));
    }

    /** One epoch of a phase: draw `grad_accum_steps * batch_size` single transitions from
        the buffer, serve them in batches of `size` and run an epoch of `o` over them. */
    method DrawAndRunEpoch(buffer: ReplayBuffer, o: Optimizer, size: nat)
      returns (epochInfos: seq<map<Key, real>>, ghost data: seq<Transition>)
      requires Valid() && size > 0 && |buffer.transitions| > 0
      modifies this
      ensures |data| == config.gradAccumSteps * buffer.batchSize && DrawnFrom([data], buffer.transitions)
      ensures trace == old(trace) + EpochEvents(config, o, LoaderBatches(data, size)) && step == old(step)
      ensures epochInfos == RecordsOf(losses, old(trace), EpochEvents(config, o, LoaderBatches(data, size)))
      ensures Valid()
    {
      var drawn := DrawSingletons(buffer, config.gradAccumSteps * buffer.batchSize);
      data := drawn;
      var bs := LoaderBatches(drawn, size);
      epochInfos := RunEpoch(o, bs);
    }

    /** The epochs of one phase, each drawing its own transitions. Returns the records of all
        its loss calls, epoch after epoch. */
    method RunPhase(buffer: ReplayBuffer, o: Optimizer, size: nat, epochs: nat)
      returns (infos: seq<map<Key, real>>, ghost draws: seq<seq<Transition>>)
      requires Valid() && size > 0 && |buffer.transitions| > 0
      modifies this
      ensures trace == old(trace) + PhaseEvents(config, o, draws, size) && step == old(step)
      ensures infos == RecordsOf(losses, old(trace), PhaseEvents(config, o, draws, size))
      ensures FullDraws(config, buffer.batchSize, draws, epochs) && DrawnFrom(draws, buffer.transitions)
      ensures Valid()
    {
      ghost var h := trace;
      infos := [];
      draws := [];
      var e := 0;
      while e < epochs
        invariant 0 <= e <= epochs && step == old(step)
        invariant trace == h + PhaseEvents(config, o, draws, size)
        invariant infos == RecordsOf(losses, h, PhaseEvents(config, o, draws, size))
        invariant FullDraws(config, buffer.batchSize, draws, e) && DrawnFrom(draws, buffer.transitions)
        invariant Valid()
      {
        var epochInfos;
        ghost var data;
        epochInfos, data := DrawAndRunEpoch(buffer, o, size);
        PhaseStep(losses, config, h, o, draws, data, size, infos, epochInfos);
        DrawsSnoc(config, buffer.batchSize, draws, data, e, buffer.transitions);
        draws := draws + [data];
        infos := infos + epochInfos;
        e := e + 1;
      }
    }

    /** The critic half of `update`: the critic epochs in batches of the buffer's batch size,
        and `dict_mean` of their records. */
    method CriticPhase(buffer: ReplayBuffer) returns (mean: map<Key, real>, ghost draws: seq<seq<Transition>>)
      requires Valid() && buffer.batchSize > 0 && |buffer.transitions| > 0
      modifies this
      ensures trace == old(trace) + CriticEvents(config, buffer.batchSize, draws) && step == old(step)
      ensures mean == MeanRecord(RecordsOf(losses, old(trace), CriticEvents(config, buffer.batchSize, draws)))
      ensures FullDraws(config, buffer.batchSize, draws, config.epochs) && DrawnFrom(draws, buffer.transitions)
      ensures Valid()
    {
      ghost var h := trace;
      var infos;
      infos, draws := RunPhase(buffer, CriticOptimizer, buffer.batchSize, config.epochs);
      PhaseOnlyLossesOf(config, CriticOptimizer, draws, buffer.batchSize);
      KeysOfRecords(losses, h, CriticEvents(config, buffer.batchSize, draws), CriticOptimizer);
      KeyedByShared(infos, CriticKeys());
      var r := DictMean(infos);
      mean := r.value;
    }

    /** The actor half of `update`: unless the actor is frozen, the actor epochs in batches of
        `ActorBatchSize`; then `dict_mean` of their records, of none when frozen. */
    method ActorPhase(buffer: ReplayBuffer, noUpdateActor: bool) returns (mean: map<Key, real>, ghost draws: seq<seq<Transition>>)
      requires Valid() && buffer.batchSize > 0 && |buffer.transitions| > 0
      modifies this
      ensures trace == old(trace) + ActorEvents(config, agent.policyLm, buffer.batchSize, draws, noUpdateActor)
      ensures step == old(step)
      ensures mean == MeanRecord(RecordsOf(losses, old(trace),
                                           ActorEvents(config, agent.policyLm, buffer.batchSize, draws, noUpdateActor)))
      ensures if noUpdateActor then draws == [] else FullDraws(config, buffer.batchSize, draws, config.actorEpochs)
      ensures DrawnFrom(draws, buffer.transitions)
      ensures Valid()
    {
      ghost var h := trace;
      var infos := [];
      draws := [];
      if !noUpdateActor {
        var actionBatchSize := ActorBatchSize(agent.policyLm, buffer.batchSize);
        infos, draws := RunPhase(buffer, LmOptimizer, actionBatchSize, config.actorEpochs);
        PhaseOnlyLossesOf(config, LmOptimizer, draws, actionBatchSize);
      } else {
        assert h + [] == h;
      }
      KeysOfRecords(losses, h, ActorEvents(config, agent.policyLm, buffer.batchSize, draws, noUpdateActor), LmOptimizer);
      KeyedByShared(infos, ActorKeys());
      var r := DictMean(infos);
      mean := r.value;
    }

    /** `update(replay_buffer, no_update_actor)`: count the step, run the critic half, then
        the actor half; `info` is the critic mean updated with the actor mean. */
    method Update(buffer: ReplayBuffer, noUpdateActor: bool)
      returns (info: map<Key, real>, ghost criticDraws: seq<seq<Transition>>, ghost actorDraws: seq<seq<Transition>>)
      requires Valid() && buffer.batchSize > 0 && |buffer.transitions| > 0
      modifies this
      ensures step == old(step) + 1
      ensures trace == old(trace) + UpdateEvents(config, agent.policyLm, buffer.batchSize, criticDraws, actorDraws, noUpdateActor)
      ensures info == UpdateInfo(losses, config, old(trace), agent.policyLm, buffer.batchSize,
                                 criticDraws, actorDraws, noUpdateActor)
      ensures FullDraws(config, buffer.batchSize, criticDraws, config.epochs)
      ensures if noUpdateActor then actorDraws == [] else FullDraws(config, buffer.batchSize, actorDraws, config.actorEpochs)
      ensures DrawnFrom(criticDraws, buffer.transitions) && DrawnFrom(actorDraws, buffer.transitions)
      ensures Valid()
    {
      ghost var h := trace;
      step := step + 1;
      info := map[];
      var criticMean;
      criticMean, criticDraws := CriticPhase(buffer);
      info := info + criticMean;
      var actorMean;
      actorMean, actorDraws := ActorPhase(buffer, noUpdateActor);
      info := info + actorMean;
      UpdateInfoOf(losses, config, h, agent.policyLm, buffer.batchSize, criticDraws, actorDraws, noUpdateActor,
                   criticMean, actorMean);
      UpdateTraceOf(h, config, agent.policyLm, buffer.batchSize, criticDraws, actorDraws, noUpdateActor);
    }
  }
}
