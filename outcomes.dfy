/** What the loss calls of an update report: one diagnostic record per loss call, evaluated
    with the networks as the events before it left them, and the `info` dictionary `update`
    returns, the key-wise mean of the critic records merged with that of the actor records. */
module Outcomes {
  import opened Numeric
  import opened Losses
  import opened Records
  import opened Data
  import opened Batching
  import opened Events
  import opened Agents
  import opened Schedule
  import opened Discipline
  import opened Diagnostics

  /** The keys of the records a loss call of optimizer `o` returns. */
  function RecordKeys(o: Optimizer): set<Key>
  {
    if o == CriticOptimizer then CriticKeys() else ActorKeys()
  }

  /** The loss call of optimizer `o` on batch `b` after the events `h`: `critic_iql_loss`, or
      the actor's actions and advantages, computed without gradients, followed by
      `actor_awr_loss`. */
  function Output(agent: ShapedAgent, cfg: Config, lib: Library, h: seq<Event>, o: Optimizer,
                  b: ServedBatch): (r: LossOutput)
    ensures r.record.Keys == RecordKeys(o)
  {
    if o == CriticOptimizer then CriticIqlLoss(agent, cfg, lib, h, b)
    else
      var pa := PolicyAdvantage(agent, h, b);
      ActorAwrLoss(agent, cfg, lib, h, b, pa.0, pa.1)
  }

  /** What a loss call reports, as a function of the events before it, the optimizer whose
      loss it is and the batch. */
  type Evaluator = (seq<Event>, Optimizer, ServedBatch) -> map<Key, real>

  /** The trainer's own loss calls. */
  function Evaluate(agent: ShapedAgent, cfg: Config, lib: Library): Evaluator
  {
    (h: seq<Event>, o: Optimizer, b: ServedBatch) => Output(agent, cfg, lib, h, o, b).record
  }

  /** Every loss call of `o` reports the keys of `o`'s records. */
  ghost predicate Keyed(eval: Evaluator)
  {
    forall h: seq<Event>, o: Optimizer, b: ServedBatch :: eval(h, o, b).Keys == RecordKeys(o)
  }

  lemma EvaluateKeyed(agent: ShapedAgent, cfg: Config, lib: Library)
    ensures Keyed(Evaluate(agent, cfg, lib))
  {
    forall h: seq<Event>, o: Optimizer, b: ServedBatch ensures Evaluate(agent, cfg, lib)(h, o, b).Keys == RecordKeys(o) {
      var r := Output(agent, cfg, lib, h, o, b);
    }
  }

  /** The records of the loss calls among `es`, in order, each evaluated after `h` and the
      events of `es` before it. */
  function RecordsOf(eval: Evaluator, h: seq<Event>, es: seq<Event>): seq<map<Key, real>>
    decreases |es|
  {
    if |es| == 0 then []
    else
      var m := |es| - 1;
      RecordsOf(eval, h, es[..m]) + (if es[m].LossCall? then [eval(h + es[..m], es[m].optimizer, es[m].batch)] else [])
  }

  /** Appending one event adds its record, if it is a loss call. */
  lemma RecordsOfSnoc(eval: Evaluator, h: seq<Event>, es: seq<Event>, e: Event)
    ensures RecordsOf(eval, h, es + [e]) ==
            RecordsOf(eval, h, es) +
            (if e.LossCall? then [eval(h + es, e.optimizer, e.batch)] else [])
  {
    assert (es + [e])[..|es|] == es;
  }

  /** The records of two stretches of events, the second evaluated after the first. */
  lemma {:induction false} RecordsOfAppend(eval: Evaluator, h: seq<Event>,
                                           a: seq<Event>, b: seq<Event>)
    ensures RecordsOf(eval, h, a + b) ==
            RecordsOf(eval, h, a) + RecordsOf(eval, h + a, b)
    decreases |b|
  {
    if |b| == 0 {
      assert a + b == a;
    } else {
      var m := |b| - 1;
      RecordsOfAppend(eval, h, a, b[..m]);
      assert a + b == (a + b[..m]) + [b[m]];
      assert b == b[..m] + [b[m]];
      RecordsOfSnoc(eval, h, a + b[..m], b[m]);
      RecordsOfSnoc(eval, h + a, b[..m], b[m]);
      assert h + (a + b[..m]) == (h + a) + b[..m];
    }
  }

  /** One more loss call in a run of loss calls adds its record. */
  lemma RecordsOfLossCallsSnoc(eval: Evaluator, h: seq<Event>, o: Optimizer, bs: seq<ServedBatch>, i: nat)
    requires i < |bs|
    ensures RecordsOf(eval, h, LossCalls(o, bs[..i + 1])) ==
            RecordsOf(eval, h, LossCalls(o, bs[..i])) + [eval(h + LossCalls(o, bs[..i]), o, bs[i])]
  {
    LossCallsSnoc(o, bs, i);
    RecordsOfSnoc(eval, h, LossCalls(o, bs[..i]), LossCall(o, bs[i]));
  }

  /** An epoch reports the records of its loss calls, evaluated after the zero_grad. */
  lemma EpochRecords(eval: Evaluator, h: seq<Event>, cfg: Config, o: Optimizer, bs: seq<ServedBatch>)
    ensures RecordsOf(eval, h, EpochEvents(cfg, o, bs)) == RecordsOf(eval, h + [ZeroGrad(o)], LossCalls(o, bs))
  {
    var z := [ZeroGrad(o)];
    var calls := LossCalls(o, bs);
    RecordsOfAppend(eval, h, z + calls, Closing(cfg, o));
    RecordsOfAppend(eval, h, z, calls);
    RecordsOfQuiet(eval, h, z);
    ClosingQuiet(cfg, o);
    RecordsOfQuiet(eval, h + (z + calls), Closing(cfg, o));
  }

  lemma ClosingQuiet(cfg: Config, o: Optimizer)
    ensures forall i | 0 <= i < |Closing(cfg, o)| :: !Closing(cfg, o)[i].LossCall?
  {
  }

  /** Events that are not loss calls report nothing. */
  lemma {:induction false} RecordsOfQuiet(eval: Evaluator, h: seq<Event>, es: seq<Event>)
    requires forall i | 0 <= i < |es| :: !es[i].LossCall?
    ensures RecordsOf(eval, h, es) == []
    decreases |es|
  {
    if |es| > 0 {
      RecordsOfQuiet(eval, h, es[..|es| - 1]);
    }
  }

  /** One record per loss call. */
  lemma {:induction false} RecordCount(eval: Evaluator, h: seq<Event>,
                                       es: seq<Event>, o: Optimizer)
    requires OnlyLossesOf(es, o)
    ensures |RecordsOf(eval, h, es)| == Count(es, LossOf(o))
    decreases |es|
  {
    if |es| > 0 {
      RecordCount(eval, h, es[..|es| - 1], o);
    }
  }

  /** Every record of `rs` has exactly the keys `keys`. */
  ghost predicate KeyedBy(rs: seq<map<Key, real>>, keys: set<Key>)
  {
    forall i | 0 <= i < |rs| :: rs[i].Keys == keys
  }

  lemma KeyedByAppend(a: seq<map<Key, real>>, b: seq<map<Key, real>>, keys: set<Key>)
    requires KeyedBy(a, keys) && KeyedBy(b, keys)
    ensures KeyedBy(a + b, keys)
  {
    forall i | 0 <= i < |a + b| ensures (a + b)[i].Keys == keys {
      if i < |a| {
        assert (a + b)[i] == a[i];
      } else {
        assert (a + b)[i] == b[i - |a|];
      }
    }
  }

  /** The records of a stretch that calls only the loss of `o` all have `o`'s keys. */
  lemma {:induction false} KeysOfRecords(eval: Evaluator, h: seq<Event>,
                                         es: seq<Event>, o: Optimizer)
    requires Keyed(eval) && OnlyLossesOf(es, o)
    ensures KeyedBy(RecordsOf(eval, h, es), RecordKeys(o))
    decreases |es|
  {
    if |es| > 0 {
      var m := |es| - 1;
      KeysOfRecords(eval, h, es[..m], o);
      var last := if es[m].LossCall? then [eval(h + es[..m], es[m].optimizer, es[m].batch)] else [];
      assert KeyedBy(last, RecordKeys(o));
      KeyedByAppend(RecordsOf(eval, h, es[..m]), last, RecordKeys(o));
    }
  }

  /** Records with the same keys can be averaged, and their mean has those keys. */
  lemma KeyedByShared(rs: seq<map<Key, real>>, keys: set<Key>)
    requires KeyedBy(rs, keys)
    ensures KeysShared(rs)
    ensures MeanRecord(rs).Keys == if |rs| == 0 then {} else keys
  {
    MeanRecordKeys(rs);
  }

  /** The critic and the actor events of one update. */
  function CriticEvents(cfg: Config, batchSize: nat, criticDraws: seq<seq<Transition>>): seq<Event>
    requires batchSize > 0
  {
    PhaseEvents(cfg, CriticOptimizer, criticDraws, batchSize)
  }

  function ActorEvents(cfg: Config, policyLm: string, batchSize: nat, actorDraws: seq<seq<Transition>>,
                       noUpdateActor: bool): seq<Event>
    requires batchSize > 0
  {
    if noUpdateActor then [] else PhaseEvents(cfg, LmOptimizer, actorDraws, ActorBatchSize(policyLm, batchSize))
  }

  /** The two phases together are the events of the update. */
  lemma UpdateEventsSplit(cfg: Config, policyLm: string, batchSize: nat, criticDraws: seq<seq<Transition>>,
                          actorDraws: seq<seq<Transition>>, noUpdateActor: bool)
    requires batchSize > 0
    ensures UpdateEvents(cfg, policyLm, batchSize, criticDraws, actorDraws, noUpdateActor) ==
            CriticEvents(cfg, batchSize, criticDraws) + ActorEvents(cfg, policyLm, batchSize, actorDraws, noUpdateActor)
  {
    if noUpdateActor {
      assert CriticEvents(cfg, batchSize, criticDraws) + [] == CriticEvents(cfg, batchSize, criticDraws);
    }
  }

  /** After `h`, the critic events followed by the actor events are the events of the update. */
  lemma UpdateTraceOf(h: seq<Event>, cfg: Config, policyLm: string, batchSize: nat, criticDraws: seq<seq<Transition>>,
                      actorDraws: seq<seq<Transition>>, noUpdateActor: bool)
    requires batchSize > 0
    ensures h + CriticEvents(cfg, batchSize, criticDraws) + ActorEvents(cfg, policyLm, batchSize, actorDraws, noUpdateActor) ==
            h + UpdateEvents(cfg, policyLm, batchSize, criticDraws, actorDraws, noUpdateActor)
  {
    UpdateEventsSplit(cfg, policyLm, batchSize, criticDraws, actorDraws, noUpdateActor);
  }

  /** The records of the critic phase after the events `h`. */
  function CriticRecords(eval: Evaluator, cfg: Config, h: seq<Event>, batchSize: nat,
                         criticDraws: seq<seq<Transition>>): seq<map<Key, real>>
    requires batchSize > 0
  {
    RecordsOf(eval, h, CriticEvents(cfg, batchSize, criticDraws))
  }

  /** The records of the actor phase, after `h` and the critic phase. */
  function ActorRecords(eval: Evaluator, cfg: Config, h: seq<Event>, policyLm: string, batchSize: nat,
                        criticDraws: seq<seq<Transition>>, actorDraws: seq<seq<Transition>>,
                        noUpdateActor: bool): seq<map<Key, real>>
    requires batchSize > 0
  {
    RecordsOf(eval, h + CriticEvents(cfg, batchSize, criticDraws),
              ActorEvents(cfg, policyLm, batchSize, actorDraws, noUpdateActor))
  }

  /** The dictionary `update` returns: `info = {}`, updated with the mean of the critic
      records, then with the mean of the actor records (of none when the actor is frozen). */
  ghost function UpdateInfo(eval: Evaluator, cfg: Config, h: seq<Event>, policyLm: string, batchSize: nat,
                            criticDraws: seq<seq<Transition>>, actorDraws: seq<seq<Transition>>,
                            noUpdateActor: bool): map<Key, real>
    requires batchSize > 0
  {
    map[] + MeanRecord(CriticRecords(eval, cfg, h, batchSize, criticDraws))
    + MeanRecord(ActorRecords(eval, cfg, h, policyLm, batchSize, criticDraws, actorDraws, noUpdateActor))
  }

  /** `info` from the means the two phases returned. */
  lemma UpdateInfoOf(eval: Evaluator, cfg: Config, h: seq<Event>, policyLm: string, batchSize: nat,
                     criticDraws: seq<seq<Transition>>, actorDraws: seq<seq<Transition>>, noUpdateActor: bool,
                     criticMean: map<Key, real>, actorMean: map<Key, real>)
    requires batchSize > 0
    requires criticMean == MeanRecord(RecordsOf(eval, h, CriticEvents(cfg, batchSize, criticDraws)))
    requires actorMean == MeanRecord(RecordsOf(eval, h + CriticEvents(cfg, batchSize, criticDraws),
                                               ActorEvents(cfg, policyLm, batchSize, actorDraws, noUpdateActor)))
    ensures UpdateInfo(eval, cfg, h, policyLm, batchSize, criticDraws, actorDraws, noUpdateActor) ==
            map[] + criticMean + actorMean
  {
  }

  /** Every epoch draws `grad_accum_steps * batch_size` transitions. */
  predicate FullDraws(cfg: Config, batchSize: nat, draws: seq<seq<Transition>>, epochs: nat)
  {
    |draws| == epochs && forall e | 0 <= e < |draws| :: |draws[e]| == cfg.gradAccumSteps * batchSize
  }

  /** Every drawn transition is one of `pool`. */
  ghost predicate DrawnFrom(draws: seq<seq<Transition>>, pool: seq<Transition>)
  {
    forall e, j | 0 <= e < |draws| && 0 <= j < |draws[e]| :: draws[e][j] in pool
  }

  lemma DrawsSnoc(cfg: Config, batchSize: nat, draws: seq<seq<Transition>>, data: seq<Transition>, epochs: nat,
                  pool: seq<Transition>)
    requires FullDraws(cfg, batchSize, draws, epochs) && DrawnFrom(draws, pool)
    requires |data| == cfg.gradAccumSteps * batchSize && DrawnFrom([data], pool)
    ensures FullDraws(cfg, batchSize, draws + [data], epochs + 1) && DrawnFrom(draws + [data], pool)
  {
    forall e, j | 0 <= e < |draws + [data]| && 0 <= j < |(draws + [data])[e]| ensures (draws + [data])[e][j] in pool {
      if e == |draws| {
        assert [data][0] == data;
      }
    }
  }

  /** One more epoch of a phase: its events follow the phase's, its records the phase's. */
  lemma PhaseStep(eval: Evaluator, cfg: Config, h: seq<Event>, o: Optimizer, draws: seq<seq<Transition>>,
                  data: seq<Transition>, size: nat, infos: seq<map<Key, real>>, epochInfos: seq<map<Key, real>>)
    requires size > 0
    requires infos == RecordsOf(eval, h, PhaseEvents(cfg, o, draws, size))
    requires epochInfos == RecordsOf(eval, h + PhaseEvents(cfg, o, draws, size), EpochEvents(cfg, o, LoaderBatches(data, size)))
    ensures infos + epochInfos == RecordsOf(eval, h, PhaseEvents(cfg, o, draws + [data], size))
    ensures h + PhaseEvents(cfg, o, draws, size) + EpochEvents(cfg, o, LoaderBatches(data, size)) ==
            h + PhaseEvents(cfg, o, draws + [data], size)
  {
    PhaseEventsSnoc(cfg, o, draws, data, size);
    RecordsOfAppend(eval, h, PhaseEvents(cfg, o, draws, size), EpochEvents(cfg, o, LoaderBatches(data, size)));
  }

  /** A phase over full draws makes `epochs * n` loss calls, `n` the batches per epoch. */
  lemma PhaseRecordCount(eval: Evaluator, cfg: Config, h: seq<Event>, o: Optimizer,
                         draws: seq<seq<Transition>>, batchSize: nat, size: nat, epochs: nat)
    requires batchSize > 0 && size > 0 && FullDraws(cfg, batchSize, draws, epochs)
    ensures |RecordsOf(eval, h, PhaseEvents(cfg, o, draws, size))| ==
            epochs * CeilDiv(cfg.gradAccumSteps * batchSize, size)
  {
    ProductPositive(cfg.gradAccumSteps, batchSize);
    var n := CeilDiv(cfg.gradAccumSteps * batchSize, size);
    forall e | 0 <= e < |draws| ensures |LoaderBatches(draws[e], size)| == n {
      LoaderBatchCount(draws[e], size, 0);
    }
    PhaseOnlyLossesOf(cfg, o, draws, size);
    RecordCount(eval, h, PhaseEvents(cfg, o, draws, size), o);
    PhaseCount(cfg, o, draws, size, n, LossOf(o));
  }

  lemma ProductPositive(a: nat, b: nat)
    ensures a * b >= 0
    ensures a * b > 0 <==> a > 0 && b > 0
  {
    if a > 0 && b > 0 {
      MulPositive(a as real, b as real);
      assert (a * b) as real == Mul(a as real, b as real);
    }
  }

  /** The mean of a phase's records over full draws has the keys of `o`'s records when the
      phase made a loss call, and none otherwise. */
  lemma PhaseInfoKeys(eval: Evaluator, cfg: Config, h: seq<Event>, o: Optimizer,
                      draws: seq<seq<Transition>>, batchSize: nat, size: nat, epochs: nat)
    requires Keyed(eval)
    requires batchSize > 0 && size > 0 && FullDraws(cfg, batchSize, draws, epochs)
    ensures KeysShared(RecordsOf(eval, h, PhaseEvents(cfg, o, draws, size)))
    ensures MeanRecord(RecordsOf(eval, h, PhaseEvents(cfg, o, draws, size))).Keys ==
            if epochs > 0 && cfg.gradAccumSteps > 0 then RecordKeys(o) else {}
  {
    var es := PhaseEvents(cfg, o, draws, size);
    var rs := RecordsOf(eval, h, es);
    PhaseOnlyLossesOf(cfg, o, draws, size);
    KeysOfRecords(eval, h, es, o);
    KeyedByShared(rs, RecordKeys(o));
    PhaseRecordCount(eval, cfg, h, o, draws, batchSize, size, epochs);
    ProductPositive(cfg.gradAccumSteps, batchSize);
    var n := CeilDiv(cfg.gradAccumSteps * batchSize, size);
    CeilDivPositive(cfg.gradAccumSteps * batchSize, size);
    ProductPositive(epochs, n);
  }

  /** `info = {}; info.update(c); info.update(a)` holds the keys of both. */
  lemma MergeKeys(c: map<Key, real>, a: map<Key, real>)
    ensures (map[] + c + a).Keys == c.Keys + a.Keys
  {
  }

  /** The critic phase's mean has the critic keys when the phase made a loss call. */
  lemma CriticMeanKeys(eval: Evaluator, cfg: Config, h: seq<Event>, batchSize: nat, criticDraws: seq<seq<Transition>>)
    requires Keyed(eval)
    requires batchSize > 0 && FullDraws(cfg, batchSize, criticDraws, cfg.epochs)
    ensures MeanRecord(CriticRecords(eval, cfg, h, batchSize, criticDraws)).Keys ==
            if cfg.epochs > 0 && cfg.gradAccumSteps > 0 then CriticKeys() else {}
  {
    PhaseInfoKeys(eval, cfg, h, CriticOptimizer, criticDraws, batchSize, batchSize, cfg.epochs);
  }

  /** The actor phase's mean has the actor keys when the phase ran and made a loss call. */
  lemma ActorMeanKeys(eval: Evaluator, cfg: Config, h: seq<Event>, policyLm: string, batchSize: nat,
                      criticDraws: seq<seq<Transition>>, actorDraws: seq<seq<Transition>>, noUpdateActor: bool)
    requires Keyed(eval)
    requires batchSize > 0
    requires !noUpdateActor ==> FullDraws(cfg, batchSize, actorDraws, cfg.actorEpochs)
    ensures MeanRecord(ActorRecords(eval, cfg, h, policyLm, batchSize, criticDraws, actorDraws, noUpdateActor)).Keys ==
            if !noUpdateActor && cfg.actorEpochs > 0 && cfg.gradAccumSteps > 0 then ActorKeys() else {}
  {
    if !noUpdateActor {
      PhaseInfoKeys(eval, cfg, h + CriticEvents(cfg, batchSize, criticDraws), LmOptimizer, actorDraws,
                    batchSize, ActorBatchSize(policyLm, batchSize), cfg.actorEpochs);
    }
  }

  /** The keys of `info`: the 28 critic keys when the critic phase made a loss call, and the
      8 actor keys when the actor phase ran and made one. */
  lemma UpdateInfoKeys(eval: Evaluator, cfg: Config, h: seq<Event>, policyLm: string, batchSize: nat,
                       criticDraws: seq<seq<Transition>>, actorDraws: seq<seq<Transition>>, noUpdateActor: bool)
    requires Keyed(eval)
    requires batchSize > 0
    requires FullDraws(cfg, batchSize, criticDraws, cfg.epochs)
    requires !noUpdateActor ==> FullDraws(cfg, batchSize, actorDraws, cfg.actorEpochs)
    ensures UpdateInfo(eval, cfg, h, policyLm, batchSize, criticDraws, actorDraws, noUpdateActor).Keys ==
            (if cfg.epochs > 0 && cfg.gradAccumSteps > 0 then CriticKeys() else {}) +
            (if !noUpdateActor && cfg.actorEpochs > 0 && cfg.gradAccumSteps > 0 then ActorKeys() else {})
  {
    CriticMeanKeys(eval, cfg, h, batchSize, criticDraws);
    ActorMeanKeys(eval, cfg, h, policyLm, batchSize, criticDraws, actorDraws, noUpdateActor);
    MergeKeys(MeanRecord(CriticRecords(eval, cfg, h, batchSize, criticDraws)),
              MeanRecord(ActorRecords(eval, cfg, h, policyLm, batchSize, criticDraws, actorDraws, noUpdateActor)));
  }

  /** Averaging records that call only `o`'s loss reports at most `o`'s keys. */
  lemma MeanKeysWithin(eval: Evaluator, h: seq<Event>, es: seq<Event>, o: Optimizer)
    requires Keyed(eval) && OnlyLossesOf(es, o)
    ensures MeanRecord(RecordsOf(eval, h, es)).Keys <= RecordKeys(o)
  {
    KeysOfRecords(eval, h, es, o);
    KeyedByShared(RecordsOf(eval, h, es), RecordKeys(o));
  }

  /** Updating with a map whose keys are disjoint from the first one's keeps both intact. */
  lemma MergeDisjoint(c: map<Key, real>, a: map<Key, real>, ck: set<Key>, ak: set<Key>)
    requires c.Keys <= ck && a.Keys <= ak && ck !! ak
    ensures var info := map[] + c + a;
            && (forall k | k in c :: k in info && info[k] == c[k])
            && (forall k | k in a :: k in info && info[k] == a[k])
            && (forall k | k in info :: k in c || k in a)
  {
  }

  /** Merging the actor's mean into `info` overwrites none of the critic's: every reported
      critic key holds the mean of the critic records, every actor key that of the actor
      records. */
  lemma UpdateInfoValues(eval: Evaluator, cfg: Config, h: seq<Event>, policyLm: string, batchSize: nat,
                         criticDraws: seq<seq<Transition>>, actorDraws: seq<seq<Transition>>, noUpdateActor: bool)
    requires Keyed(eval)
    requires batchSize > 0
    ensures var info := UpdateInfo(eval, cfg, h, policyLm, batchSize, criticDraws, actorDraws, noUpdateActor);
            var c := MeanRecord(CriticRecords(eval, cfg, h, batchSize, criticDraws));
            var a := MeanRecord(ActorRecords(eval, cfg, h, policyLm, batchSize, criticDraws, actorDraws, noUpdateActor));
            && (forall k | k in c :: k in info && info[k] == c[k])
            && (forall k | k in a :: k in info && info[k] == a[k])
            && (forall k | k in info :: k in c || k in a)
            && c.Keys <= CriticKeys() && a.Keys <= ActorKeys()
  {
    var ce := CriticEvents(cfg, batchSize, criticDraws);
    var ae := ActorEvents(cfg, policyLm, batchSize, actorDraws, noUpdateActor);
    PhaseOnlyLossesOf(cfg, CriticOptimizer, criticDraws, batchSize);
    MeanKeysWithin(eval, h, ce, CriticOptimizer);
    if !noUpdateActor {
      PhaseOnlyLossesOf(cfg, LmOptimizer, actorDraws, ActorBatchSize(policyLm, batchSize));
    }
    MeanKeysWithin(eval, h + ce, ae, LmOptimizer);
    CriticAndActorKeysDisjoint();
    MergeDisjoint(MeanRecord(RecordsOf(eval, h, ce)), MeanRecord(RecordsOf(eval, h + ce, ae)), CriticKeys(), ActorKeys());
  }

  // ---------------------------------------------------------------- bounds on what is reported

  predicate Above(x: real, lo: real, strict: bool)
  {
    if strict then lo < x else lo <= x
  }

  /** Every loss call of `o` reports a value above `lo` under `k`. */
  ghost predicate Reports(eval: Evaluator, o: Optimizer, k: Key, lo: real, strict: bool)
  {
    forall h: seq<Event>, b: ServedBatch :: k in eval(h, o, b) ==> Above(eval(h, o, b)[k], lo, strict)
  }

  /** A bound every loss call keeps holds for every record. */
  lemma {:induction false} RecordsAbove(eval: Evaluator, h: seq<Event>, es: seq<Event>, o: Optimizer,
                                        k: Key, lo: real, strict: bool)
    requires OnlyLossesOf(es, o) && Reports(eval, o, k, lo, strict)
    ensures forall i | 0 <= i < |RecordsOf(eval, h, es)| && k in RecordsOf(eval, h, es)[i] ::
              Above(RecordsOf(eval, h, es)[i][k], lo, strict)
    decreases |es|
  {
    if |es| > 0 {
      var m := |es| - 1;
      RecordsAbove(eval, h, es[..m], o, k, lo, strict);
      var prev := RecordsOf(eval, h, es[..m]);
      var last := if es[m].LossCall? then [eval(h + es[..m], es[m].optimizer, es[m].batch)] else [];
      forall i | 0 <= i < |prev + last| && k in (prev + last)[i] ensures Above((prev + last)[i][k], lo, strict) {
        if i < |prev| {
          assert (prev + last)[i] == prev[i];
          assert k in prev[i];
        } else {
          assert es[m].LossCall? && es[m].optimizer == o;
          var r := eval(h + es[..m], o, es[m].batch);
          assert k in r ==> Above(r[k], lo, strict);
          assert (prev + last)[i] == r;
        }
      }
      assert RecordsOf(eval, h, es) == prev + last;
    }
  }

  /** ... and so for their mean, which is no smaller than the smallest of them. */
  lemma MeanAbove(rs: seq<map<Key, real>>, k: Key, lo: real, strict: bool)
    requires k in MeanRecord(rs)
    requires forall i | 0 <= i < |rs| && k in rs[i] :: Above(rs[i][k], lo, strict)
    ensures Above(MeanRecord(rs)[k], lo, strict)
  {
    var column := Column(rs, k);
    MeanBetweenExtremes(column);
    var i :| 0 <= i < |column| && column[i] == Minimum(column);
  }

  /** For a factor in [0, 1] every critic loss call reports non-negative losses. */
  lemma EvaluateCriticLossesNonnegative(agent: ShapedAgent, cfg: Config, lib: Library, k: Key)
    requires 0.0 <= cfg.expectileFactor <= 1.0 && k in LossKeys()
    ensures Reports(Evaluate(agent, cfg, lib), CriticOptimizer, k, 0.0, false)
  {
    forall h: seq<Event>, b: ServedBatch ensures k in Evaluate(agent, cfg, lib)(h, CriticOptimizer, b) ==>
                        Above(Evaluate(agent, cfg, lib)(h, CriticOptimizer, b)[k], 0.0, false) {
      OutputLossNonnegative(agent, cfg, lib, h, b, k);
    }
  }

  lemma OutputLossNonnegative(agent: ShapedAgent, cfg: Config, lib: Library, h: seq<Event>, b: ServedBatch, k: Key)
    requires 0.0 <= cfg.expectileFactor <= 1.0 && k in LossKeys()
    ensures 0.0 <= Output(agent, cfg, lib, h, CriticOptimizer, b).record[k]
  {
    var r := CriticIqlLoss(agent, cfg, lib, h, b);
    assert Output(agent, cfg, lib, h, CriticOptimizer, b) == r;
    CriticLossesNonnegative(agent, cfg, lib, h, b);
    LossKeysAre(k);
  }

  /** With a positive exponential every actor loss call reports a positive smallest factor. */
  lemma EvaluateFactorsPositive(agent: ShapedAgent, cfg: Config, lib: Library)
    requires ExpLike(lib.exp)
    ensures Reports(Evaluate(agent, cfg, lib), LmOptimizer, Key(Factor, Min), 0.0, true)
  {
    forall h: seq<Event>, b: ServedBatch ensures Key(Factor, Min) in Evaluate(agent, cfg, lib)(h, LmOptimizer, b) ==>
                        Above(Evaluate(agent, cfg, lib)(h, LmOptimizer, b)[Key(Factor, Min)], 0.0, true) {
      var pa := PolicyAdvantage(agent, h, b);
      ActorFactorsPositive(agent, cfg, lib, h, b, pa.0, pa.1);
    }
  }

  /** A bound every loss call of a phase keeps holds for the phase's reported mean. */
  lemma PhaseMeanAbove(eval: Evaluator, cfg: Config, h: seq<Event>, o: Optimizer, draws: seq<seq<Transition>>,
                       size: nat, k: Key, lo: real, strict: bool)
    requires size > 0 && Reports(eval, o, k, lo, strict)
    requires k in MeanRecord(RecordsOf(eval, h, PhaseEvents(cfg, o, draws, size)))
    ensures Above(MeanRecord(RecordsOf(eval, h, PhaseEvents(cfg, o, draws, size)))[k], lo, strict)
  {
    PhaseOnlyLossesOf(cfg, o, draws, size);
    RecordsAbove(eval, h, PhaseEvents(cfg, o, draws, size), o, k, lo, strict);
    MeanAbove(RecordsOf(eval, h, PhaseEvents(cfg, o, draws, size)), k, lo, strict);
  }

  /** A bound every critic loss call keeps on a critic key holds for what `info` reports
      under it, and likewise for the actor. */
  lemma InfoAbove(eval: Evaluator, cfg: Config, h: seq<Event>, policyLm: string, batchSize: nat,
                  criticDraws: seq<seq<Transition>>, actorDraws: seq<seq<Transition>>, noUpdateActor: bool,
                  k: Key, lo: real, strict: bool)
    requires Keyed(eval) && batchSize > 0
    requires k in UpdateInfo(eval, cfg, h, policyLm, batchSize, criticDraws, actorDraws, noUpdateActor)
    requires k in CriticKeys() ==> Reports(eval, CriticOptimizer, k, lo, strict)
    requires k in ActorKeys() ==> Reports(eval, LmOptimizer, k, lo, strict)
    ensures Above(UpdateInfo(eval, cfg, h, policyLm, batchSize, criticDraws, actorDraws, noUpdateActor)[k], lo, strict)
  {
    var ce := CriticEvents(cfg, batchSize, criticDraws);
    UpdateInfoValues(eval, cfg, h, policyLm, batchSize, criticDraws, actorDraws, noUpdateActor);
    var c := MeanRecord(RecordsOf(eval, h, ce));
    if k in c {
      PhaseMeanAbove(eval, cfg, h, CriticOptimizer, criticDraws, batchSize, k, lo, strict);
    } else {
      assert !noUpdateActor;
      PhaseMeanAbove(eval, cfg, h + ce, LmOptimizer, actorDraws, ActorBatchSize(policyLm, batchSize), k, lo, strict);
    }
  }

  /** For a factor in [0, 1] the four critic losses `update` reports are non-negative. */
  lemma InfoCriticLossesNonnegative(agent: ShapedAgent, cfg: Config, lib: Library, h: seq<Event>, batchSize: nat,
                                    criticDraws: seq<seq<Transition>>, actorDraws: seq<seq<Transition>>,
                                    noUpdateActor: bool, k: Key)
    requires batchSize > 0 && 0.0 <= cfg.expectileFactor <= 1.0 && k in LossKeys()
    requires k in UpdateInfo(Evaluate(agent, cfg, lib), cfg, h, agent.policyLm, batchSize, criticDraws, actorDraws, noUpdateActor)
    ensures 0.0 <= UpdateInfo(Evaluate(agent, cfg, lib), cfg, h, agent.policyLm, batchSize, criticDraws, actorDraws, noUpdateActor)[k]
  {
    EvaluateKeyed(agent, cfg, lib);
    CriticAndActorKeysDisjoint();
    EvaluateCriticLossesNonnegative(agent, cfg, lib, k);
    InfoAbove(Evaluate(agent, cfg, lib), cfg, h, agent.policyLm, batchSize, criticDraws, actorDraws, noUpdateActor, k, 0.0, false);
  }

  /** With a positive exponential the `factor.min` `update` reports is positive. */
  lemma InfoFactorPositive(agent: ShapedAgent, cfg: Config, lib: Library, h: seq<Event>, batchSize: nat,
                           criticDraws: seq<seq<Transition>>, actorDraws: seq<seq<Transition>>, noUpdateActor: bool)
    requires batchSize > 0 && ExpLike(lib.exp)
    requires Key(Factor, Min) in UpdateInfo(Evaluate(agent, cfg, lib), cfg, h, agent.policyLm, batchSize, criticDraws, actorDraws, noUpdateActor)
    ensures 0.0 < UpdateInfo(Evaluate(agent, cfg, lib), cfg, h, agent.policyLm, batchSize, criticDraws, actorDraws, noUpdateActor)[Key(Factor, Min)]
  {
    EvaluateKeyed(agent, cfg, lib);
    CriticAndActorKeysDisjoint();
    EvaluateFactorsPositive(agent, cfg, lib);
    InfoAbove(Evaluate(agent, cfg, lib), cfg, h, agent.policyLm, batchSize, criticDraws, actorDraws, noUpdateActor,
              Key(Factor, Min), 0.0, true);
  }
}
