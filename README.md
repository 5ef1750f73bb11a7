# ArCHer offline trainer, modelled in Dafny

This project models the core of `ArcherOfflineTrainer` from ArCHer. It covers:

- the diagnostics aggregation `dict_mean`;
- the loss arithmetic of the IQL critic (`critic_iql_loss`, `expectile_loss`);
- the loss arithmetic of the AWR actor (`actor_awr_loss`);
- the control schedule of `update`.

Tensor elements are idealised as Dafny `real`s: no rounding, no overflow, no NaN.

## Modules

- `Numeric`: sums, means, minima and maxima of one-dimensional tensors. Real products go through `Mul` with sign lemmas.
- `Losses`: expectile loss, MSE, the TD target, the four IQL terms, the AWR weights and policy-gradient loss, and the double-Q advantage.
  - Network outputs come in as given sequences.
  - `exp` is a parameter. It is assumed positive and strictly increasing (`ExpLike`) only where a lemma needs it.
- `Records`: the keys of the diagnostic dictionaries (`"q1.loss"`, `"factor.min"`, …) as a datatype. They are mapped one-to-one onto the source's strings.
- `Data`: transitions and the column batches the default collate function builds.
  - `ReplayBuffer` is a class whose `Sample` draws rows nondeterministically.
  - `DrawSingletons` is `[sample(1) for _ in range(n)]` followed by the in-place unwrapping `d[k] = v[0]`.
- `Batching`: the in-order batching of a `DataLoader` without `drop_last`.
- `Events`: the two optimizers, the events a trainer causes (zero-grad, loss call on a batch, clip, optimizer step, soft update) and the constructor's arguments.
- `Agents`: the agent's networks as opaque functions of the event history, plus `critic_iql_loss` and `actor_awr_loss` on one batch.
- `Schedule`: `action_bsize` (the `'mistral'` rule) and the events of one epoch, one phase and one `update`, as functions of the transitions the buffer handed out.
- `Discipline`: an automaton every history of the trainer keeps, the exact counts of each kind of event, and the coverage of the drawn transitions by loss calls.
- `Diagnostics`: `dict_mean` as a method with nested loops, proved against `MeanRecord`.
- `Outcomes`: the records the loss calls of an update report and the `info` dictionary `update` returns, with their keys and bounds.
- `Trainer`: the class `ArcherOfflineTrainer`.
  - State: the `step` counter and the `trace` of events so far. The networks are functions of the trace.
  - Methods: the loss call, the batch loop, the epoch, the phase, and `update`.
  - Each method is proved to add exactly the events the schedule prescribes and to return the records the schedule's loss calls report.

Two behaviours of the code that are easy to misread:

- With `expectile_factor = 0.5` the expectile loss is half the mean squared residual, not the mean squared error (`Losses.ExpectileLossHalf`, `Losses.ValueLossHalfMse`).
- `dict_mean` averages over every loss call of a whole phase, not over one epoch: `info_list` is reset only between the critic and the actor phase.

## Model

| member | source | states |
|---|---|---|
| Diagnostics.DictMean | archer/algorithms/archer/offline_trainer.py:12-17 | Succeeds exactly when every record holds every key of the first record. Its result is then `MeanRecord`: the first record's keys, each mapped to the sum of its column over all records divided by their number; for an empty list, the empty map. Otherwise it fails with a key of the first record that some record lacks (Python's `KeyError`). |
| Diagnostics.MeanRecordKeys | archer/algorithms/archer/offline_trainer.py:14-15 | When the records share the first record's keys, the mean has exactly the first record's keys; an empty list has none. |
| Diagnostics.MeanRecordOfCopies | archer/algorithms/archer/offline_trainer.py:16 | Averaging copies of one record gives that record back. |
| Diagnostics.MeanRecordBetweenExtremes | archer/algorithms/archer/offline_trainer.py:16 | Every averaged value lies between the smallest and the largest value of its key. |
| Losses.ExpectileLossNonnegative | archer/algorithms/archer/offline_trainer.py:114-116 | For a factor in [0, 1] the expectile loss is non-negative. |
| Losses.ExpectileLossZeroIff | archer/algorithms/archer/offline_trainer.py:114-116 | For a factor in (0, 1) the expectile loss is zero if and only if every residual is zero. |
| Losses.ExpectileLossHalf | archer/algorithms/archer/offline_trainer.py:115-116 | With factor 0.5 the loss equals `0.5 * mean(diff ** 2)`. |
| Losses.ExpectileLossMirror | archer/algorithms/archer/offline_trainer.py:115-116 | The weighting is asymmetric in exactly this sense: the loss of the negated residuals with factor `f` equals the loss of the residuals with factor `1 - f`. |
| Losses.ValueLossHalfMse | archer/algorithms/archer/offline_trainer.py:76-77 | The value-head loss at factor 0.5 is half the MSE between the value head and the target Q head. |
| Losses.TdTarget | archer/algorithms/archer/offline_trainer.py:65-66 | Where `done = 1` the target is the reward, whatever `gamma` and the next value; where `done = 0` it is `reward + v_next * gamma`. |
| Losses.MseNonnegative | archer/algorithms/archer/offline_trainer.py:68-69 | `MSELoss` is non-negative. |
| Losses.MseZeroIff | archer/algorithms/archer/offline_trainer.py:68-69 | `MSELoss` is zero if and only if the prediction equals the target. |
| Losses.IqlLossNonnegative | archer/algorithms/archer/offline_trainer.py:68-79 | For a factor in [0, 1] the four IQL losses and their backpropagated sum are non-negative. |
| Losses.IqlLossZeroIff | archer/algorithms/archer/offline_trainer.py:68-79 | For a factor in (0, 1) the total IQL loss is zero if and only if: q-head K equals the bootstrapped target of target-v-head K of the next observations; and v-head K equals target-q-head K of the current observations. |
| Losses.ValueLossZeroIff | archer/algorithms/archer/offline_trainer.py:76-77 | The value-head loss `expectile(target_qK - vK)` vanishes exactly when `vK == target_qK`. |
| Losses.FactorsPositive | archer/algorithms/archer/offline_trainer.py:128 | Every weight `exp(inv_temp * adv)` is positive. For `inv_temp > 0`, a larger advantage gets a larger weight. |
| Losses.PgLossNonnegative | archer/algorithms/archer/offline_trainer.py:128-129 | With log-probabilities at most zero, `-mean(factor * log_prob)` is non-negative. |
| Losses.PgLossDecreasesWithAdvantage | archer/algorithms/archer/offline_trainer.py:128-129 | With `inv_temp > 0`, raising one advantage whose log-probability is positive strictly lowers the loss. |
| Losses.Advantage | archer/algorithms/archer/offline_trainer.py:222-226 | Each advantage, added back to the smaller V head, gives the smaller of the two Q heads. |
| Losses.AdvantageOfAgreeingHeads | archer/algorithms/archer/offline_trainer.py:222-226 | When the twin heads agree, the advantage is `q1 - v1`. |
| Records.NameInjective | archer/algorithms/archer/offline_trainer.py:85-112 | Two keys are equal exactly when their `"<series>.<stat>"` names are, so records keyed by `Key` are the source's dictionaries. |
| Records.Summary | archer/algorithms/archer/offline_trainer.py:89-92 | The statistics of one tensor: `mean` is `Mean(values)`, `min` and `max` are its extremes with `min <= mean <= max`, and `std` (where asked) is the library's `std(values)`. |
| Records.CriticAndActorKeysDisjoint | archer/algorithms/archer/offline_trainer.py:85-141 | No key of a critic record is a key of an actor record. |
| Records.CriticKeysCount | archer/algorithms/archer/offline_trainer.py:85-112 | A critic record has 28 keys: mean, min, max and std of each of the six heads, and the four losses. |
| Records.ActorKeysCount | archer/algorithms/archer/offline_trainer.py:134-141 | An actor record has 8 keys: `pg.loss`, four statistics of the advantages, and the mean, min and max of the factor. |
| Agents.CriticRecord | archer/algorithms/archer/offline_trainer.py:85-112 | The critic record has exactly the 28 critic keys, and its four loss entries are the four IQL losses. |
| Agents.CriticIqlLoss | archer/algorithms/archer/offline_trainer.py:53-112 | The record has the 28 critic keys. The backpropagated scalar is `q1.loss + q2.loss + v1.loss + v2.loss`. |
| Agents.CriticLossesNonnegative | archer/algorithms/archer/offline_trainer.py:68-79 | For a factor in [0, 1] the four reported critic losses and the backpropagated scalar are non-negative. |
| Agents.ActorRecord | archer/algorithms/archer/offline_trainer.py:134-141 | The actor record has exactly the 8 actor keys (no `factor.std`). `pg.loss` is the loss, and the min and max entries are the extremes of the advantages and factors. |
| Agents.ActorAwrLoss | archer/algorithms/archer/offline_trainer.py:118-141 | The record has the 8 actor keys. The backpropagated scalar is `pg.loss`. The advantage extremes are those of the advantages passed in. |
| Agents.ActorFactorsPositive | archer/algorithms/archer/offline_trainer.py:128-141 | With a positive exponential the reported `factor.min` is positive. |
| Agents.LogProbTripleUsesMiddle | archer/algorithms/archer/offline_trainer.py:123-124 | When `get_log_prob` returns a triple, the actor loss and its record are those of a bare log-probability equal to the triple's middle element; the outer elements never matter. |
| Agents.PolicyAdvantage | archer/algorithms/archer/offline_trainer.py:219-226 | One action and one advantage per observation of the batch. |
| Data.Collate | archer/algorithms/archer/offline_trainer.py:155 | Collating `n` transitions gives one column of `n` entries per field. |
| Data.CollateRows | archer/algorithms/archer/offline_trainer.py:155 | Reading the rows of a collated list gives the list back. |
| Data.UnwrapCollate | archer/algorithms/archer/offline_trainer.py:152-154 | Unwrapping a sample of one gives the sampled transition. |
| Data.ReplayBuffer.Sample | archer/algorithms/archer/offline_trainer.py:151 | `sample(n)` returns the collation of `n` transitions the buffer holds. |
| Data.DrawSingletons | archer/algorithms/archer/offline_trainer.py:151-154 | Returns `n` single transitions, each one the buffer holds; with `n = 0` it samples nothing and needs no transitions. |
| Batching.FlattenChunks | archer/algorithms/archer/offline_trainer.py:155 | The loader's batches, concatenated, are exactly the list: each element once, in order. |
| Batching.ChunkCount | archer/algorithms/archer/offline_trainer.py:183 | The loader serves `ceil(n / batch_size)` batches. |
| Batching.ChunksExact | archer/algorithms/archer/offline_trainer.py:155 | `k * size` elements are served as `k` full batches. |
| Batching.CeilDivIsCeiling | archer/algorithms/archer/offline_trainer.py:183 | `CeilDiv(n, d)` is the least `k` with `n <= k * d`. |
| Schedule.LoaderServesAll | archer/algorithms/archer/offline_trainer.py:155 | The batches the loader serves hold every drawn transition exactly once, in order. |
| Schedule.LoaderBatchCount | archer/algorithms/archer/offline_trainer.py:183 | The loader serves `ceil(n / size)` batches, and exactly `k` of them for `k * size` transitions. |
| Schedule.ContainsIff | archer/algorithms/archer/offline_trainer.py:175 | `Contains(s, t)` holds if and only if `t` occurs in `s` at some position (Python's `in` on strings). |
| Schedule.ActorBatchSize | archer/algorithms/archer/offline_trainer.py:175 | `action_bsize` is 2 when `"mistral"` occurs in the policy name at some position, and the buffer's batch size when it occurs at none. |
| Schedule.MistralPoliciesUseTwo | archer/algorithms/archer/offline_trainer.py:175 | For example, both `"mistralai/Mistral-7B-Instruct-v0.2"` and `"my-mistral"` give 2: the substring need not start the name (the general fact is `Schedule.ContainsIff`). |
| Schedule.OtherPoliciesUseBatchSize | archer/algorithms/archer/offline_trainer.py:175 | The match is case-sensitive: `"Mistral-7B"` uses the buffer's batch size. |
| Discipline.EpochDisciplined | archer/algorithms/archer/offline_trainer.py:160-168 | An epoch zeroes the gradients, calls the loss, clips, steps and (for the critic) soft-updates in the order the automaton allows, ending with nothing pending. |
| Discipline.PhaseDisciplined | archer/algorithms/archer/offline_trainer.py:150-168 | So does every phase. |
| Discipline.UpdateDisciplined | archer/algorithms/archer/offline_trainer.py:143-229 | So does every `update`. |
| Discipline.LossCallsAccumulate | archer/algorithms/archer/offline_trainer.py:160-166 | In a disciplined history every loss call of an optimizer comes after its `zero_grad` and before its step. |
| Discipline.StepsAreClipped | archer/algorithms/archer/offline_trainer.py:165-166 | Every optimizer step is immediately preceded by a gradient clip. |
| Discipline.CriticStepsUpdateTarget | archer/algorithms/archer/offline_trainer.py:166-168 | Every critic step is immediately followed by a soft update of the target critic. |
| Discipline.EpochCount | archer/algorithms/archer/offline_trainer.py:160-168 | An epoch over `n` batches has one zero-grad, `n` loss calls, one clip, one step and, for the critic only, one soft update. |
| Discipline.UpdateCount | archer/algorithms/archer/offline_trainer.py:150-229 | The number of events of each kind in one update: `epochs` critic epochs of `grad_accum_steps` batches each and, unless the actor is frozen, `actor_epochs` actor epochs of `ceil(grad_accum_steps * batch_size / action_bsize)` batches each. The actor draws are constrained only when the actor runs. |
| Discipline.UpdateCounts | archer/algorithms/archer/offline_trainer.py:150-229 | The headline counts: `epochs * grad_accum_steps` critic loss calls; `epochs` critic zero-grads, steps and soft updates; `actor_epochs` language-model steps, or none; with `no_update_actor`, no language-model zero-grad, loss call or step at all. |
| Discipline.DefaultUpdateCounts | archer/algorithms/archer/offline_trainer.py:22-31 | With the constructor's defaults (`grad_accum_steps = 8`, `epochs = 3`, `actor_epochs = 3`), one update makes 24 critic loss calls, 3 critic steps and 3 soft updates. It makes 3 language-model steps, or none when the actor is frozen. |
| Discipline.EpochCoverage | archer/algorithms/archer/offline_trainer.py:162-164 | An epoch computes one loss per batch the loader serves, in order. |
| Discipline.PhaseCoverage | archer/algorithms/archer/offline_trainer.py:151-164 | Every transition a phase draws is used by exactly one loss call, in the order drawn. |
| Discipline.PhaseOnlyLossesOf | archer/algorithms/archer/offline_trainer.py:150-168 | A phase calls only its own optimizer's loss. |
| Outcomes.Output | archer/algorithms/archer/offline_trainer.py:219-227 | A loss call reports the critic keys for the critic optimizer (`critic_iql_loss`). For the language-model optimizer it reports the actor keys: the actions and advantages computed without gradients, then `actor_awr_loss`. |
| Outcomes.EvaluateKeyed | archer/algorithms/archer/offline_trainer.py:85-141 | Every loss call of the trainer reports its optimizer's keys. |
| Outcomes.RecordsOfAppend | archer/algorithms/archer/offline_trainer.py:164 | The records of two stretches of events are those of the first, followed by those of the second evaluated after the first. |
| Outcomes.RecordCount | archer/algorithms/archer/offline_trainer.py:164 | `info_list` gets one record per loss call. |
| Outcomes.KeysOfRecords | archer/algorithms/archer/offline_trainer.py:164 | Every record of a phase has its optimizer's keys. |
| Outcomes.KeyedByShared | archer/algorithms/archer/offline_trainer.py:14-16 | Records with the same keys never make `dict_mean` fail, and their mean has those keys. |
| Outcomes.PhaseRecordCount | archer/algorithms/archer/offline_trainer.py:150-164 | A phase over full draws reports `epochs * ceil(grad_accum_steps * batch_size / size)` records. |
| Outcomes.PhaseInfoKeys | archer/algorithms/archer/offline_trainer.py:169 | The mean of a phase's records has its optimizer's keys when the phase made a loss call, and none otherwise. |
| Outcomes.UpdateInfoKeys | archer/algorithms/archer/offline_trainer.py:169-230 | `info` has the 28 critic keys when the critic phase made a loss call, plus the 8 actor keys when the actor phase ran and made one. |
| Outcomes.UpdateInfoValues | archer/algorithms/archer/offline_trainer.py:169-230 | Merging the actor mean overwrites nothing. Every key of the critic mean holds the critic mean's value, and every key of the actor mean the actor mean's; `info` holds no other key. |
| Outcomes.InfoAbove | archer/algorithms/archer/offline_trainer.py:169-230 | A bound every loss call keeps on a key holds for the value `info` reports under it. |
| Outcomes.InfoCriticLossesNonnegative | archer/algorithms/archer/offline_trainer.py:169 | For a factor in [0, 1] the four critic losses `update` reports are non-negative. |
| Outcomes.InfoFactorPositive | archer/algorithms/archer/offline_trainer.py:230 | With a positive exponential the `factor.min` `update` reports is positive. |
| Trainer.ArcherOfflineTrainer.constructor | archer/algorithms/archer/offline_trainer.py:19-52 | Sets the agent and the arguments, `step = 0`, and an empty history that keeps the discipline. |
| Trainer.ArcherOfflineTrainer.CallLoss | archer/algorithms/archer/offline_trainer.py:164 | Adds one loss call to the history and returns what that loss reports with the networks as the history left them. |
| Trainer.ArcherOfflineTrainer.AccumulateLosses | archer/algorithms/archer/offline_trainer.py:162-164 | One loss call per batch, in order. The records returned are those the schedule's loss calls report. |
| Trainer.ArcherOfflineTrainer.CloseEpoch | archer/algorithms/archer/offline_trainer.py:165-168 | Adds a clip and a step, then a soft update for the critic only. |
| Trainer.ArcherOfflineTrainer.RunEpoch | archer/algorithms/archer/offline_trainer.py:160-168 | Adds exactly an epoch's events, returns their records, and keeps the discipline. |
| Trainer.ArcherOfflineTrainer.DrawAndRunEpoch | archer/algorithms/archer/offline_trainer.py:151-168 | Draws `grad_accum_steps * batch_size` transitions from the buffer and runs an epoch over the batches the loader serves of them. |
| Trainer.ArcherOfflineTrainer.RunPhase | archer/algorithms/archer/offline_trainer.py:150-168 | `epochs` epochs, each over its own full draw. Adds exactly the phase's events and returns their records. |
| Trainer.ArcherOfflineTrainer.CriticPhase | archer/algorithms/archer/offline_trainer.py:150-169 | The critic epochs in batches of the buffer's batch size. Returns `dict_mean` of their records. |
| Trainer.ArcherOfflineTrainer.ActorPhase | archer/algorithms/archer/offline_trainer.py:172-230 | Unless the actor is frozen, the actor epochs in batches of `action_bsize`. Returns `dict_mean` of their records, which is empty when frozen. |
| Trainer.ArcherOfflineTrainer.Update | archer/algorithms/archer/offline_trainer.py:143-231 | Increments `step` by exactly one. Adds exactly the events of the update (critic phase, then the actor phase unless frozen), each epoch over a full draw from the buffer. Returns `info` as `UpdateInfo` defines it, and keeps the discipline. |

## Left out

- The networks (policy, critic, target critic) are opaque functions of the event history. Nothing is claimed about what an optimizer step or `soft_update_target_critic(tau)` does to them. The agent's code is not part of this model.
- Devices, dtype coercion, `.detach().cpu()`, autograd and `accelerator.backward` are library behaviour and left out. The backpropagated scalar is modelled as a value.
- `clip_grad_norm_` numerics and Adam's optimizer state are library behaviour and left out. Clip and step are events, and the learning rates are kept only as configuration.
- `torch.std` and `torch.exp` are parameters. `exp` is assumed positive and increasing only in the lemmas that say so.
- Floating-point rounding, overflow of `exp(inv_temp * adv)` and anomaly detection do not arise over reals.
- The randomness of `replay_buffer.sample`: rows are chosen nondeterministically, and only "each drawn row is one the buffer holds" is stated.
- Distributed sharding by `accelerator.prepare`: a single process serving batches in order is modelled.
- Shape mismatches between network outputs and batches are excluded by the type `ShapedAgent`.
- Trainer.ArcherOfflineTrainer.Update: requires a positive `batch_size` and a non-empty buffer, and the counts `grad_accum_steps`, `epochs` and `actor_epochs` are `nat`. These assumptions exclude the following behaviours of the source:
  - With `batch_size = 0`, any critic epoch makes `DataLoader` raise `ValueError`, and so does any actor epoch of a policy whose name lacks `"mistral"`. The model has no such error path.
  - With `batch_size = 0`, a `"mistral"` policy's actor epochs have `action_bsize = 2`. Each runs zero-grad, no batches, clip and step, and `update` returns `{}`. The model cannot be called there.
  - With `batch_size = 0` and no epoch to run, or with `grad_accum_steps * batch_size = 0` and an empty buffer, the source returns `{}` without sampling. The model cannot be called there.
  - A negative count gives an empty `range` in the source and cannot be given here.
  - On every input it accepts, the model is exact.
- Trainer.ArcherOfflineTrainer.CriticPhase: has the same requires as `Update`, with the same consequences.
- Trainer.ArcherOfflineTrainer.ActorPhase: has the same requires as `Update`, with the same consequences.
- Trainer.ArcherOfflineTrainer.RunPhase: has the same requires as `Update`, with the same consequences.
- Trainer.ArcherOfflineTrainer.DrawAndRunEpoch: requires a positive `batch_size` and a non-empty buffer, as `Update` does, with the same consequences.
- Schedule.UpdateEvents and the `Outcomes` lemmas over an update require a positive `batch_size`, as `Update` does.
- Diagnostics.DictMean: which missing key the `KeyError` names is left open. The model visits the first record's keys in an unspecified order, while Python uses dictionary insertion order.
- Trainer.ArcherOfflineTrainer.CallLoss: the two loss functions reach the trainer as the field `losses`, which the constructor fixes to `Evaluate(agent, config, lib)`. The methods are proved against that field.
- `save`, `load`, `tqdm` and `print` are file I/O and UI, and are left out.
