/** What the trainer does to the agent and its two optimizers, and the constructor arguments
    that decide it. */
module Events {
  import opened Data

  /** The two optimizers: the critic's and the language model's. */
  datatype Optimizer = CriticOptimizer | LmOptimizer

  /** One step of the trainer's effect on the agent, in order. A loss call evaluates
      `critic_iql_loss` (for the critic optimizer) or the policy's actions, their advantages
      and `actor_awr_loss` (for the language-model optimizer) on one batch, and passes the
      loss to `accelerator.backward`. */
  datatype Event =
    | ZeroGrad(optimizer: Optimizer)
    | LossCall(optimizer: Optimizer, batch: ServedBatch)
    | ClipGradNorm(maxNorm: real)
    | OptimizerStep(optimizer: Optimizer)
    | SoftUpdateTarget(tau: real)

  /** The constructor arguments of `ArcherOfflineTrainer` that `update` and the losses use. */
  datatype Config = Config(gradAccumSteps: nat, epochs: nat, actorEpochs: nat, gamma: real,
                           tau: real, invTemp: real, expectileFactor: real, maxGradNorm: real,
                           criticLr: real, lmLr: real)

  /** The constructor's defaults. */
  const DefaultConfig := Config(8, 3, 3, 0.9, 0.1, 1.0, 0.9, 0.01, 0.001, 0.00001)
}
