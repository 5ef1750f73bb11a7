/** The events one `update` call produces, as functions of the transitions the replay buffer
    handed out, and the discipline and the counts they keep. */
module Schedule {
  import opened Data
  import opened Batching
  import opened Events

  // ---------------------------------------------------------------- batches

  /** The batches a `DataLoader` with batch size `size` serves over `rows`, in order. */
  function LoaderBatches(rows: seq<Transition>, size: nat): (bs: seq<ServedBatch>)
    requires size > 0
    ensures |bs| == |Chunks(rows, size)|
    ensures forall i | 0 <= i < |bs| :: bs[i] == Collate(Chunks(rows, size)[i]) && bs[i].Size() <= size
  {
    var cs := Chunks(rows, size);
    seq(|cs|, i requires 0 <= i < |cs| => var b: ServedBatch := Collate(cs[i]); b)
  }

  /** The transitions a list of batches holds, batch after batch. */
  function ServedRows(bs: seq<ServedBatch>): seq<Transition>
  {
    Flatten(seq(|bs|, i requires 0 <= i < |bs| => bs[i].Rows()))
  }

  lemma ServedRowsAppend(a: seq<ServedBatch>, b: seq<ServedBatch>)
    ensures ServedRows(a + b) == ServedRows(a) + ServedRows(b)
  {
    var ra := seq(|a|, i requires 0 <= i < |a| => a[i].Rows());
    var rb := seq(|b|, i requires 0 <= i < |b| => b[i].Rows());
    assert seq(|a + b|, i requires 0 <= i < |a + b| => (a + b)[i].Rows()) == ra + rb;
    FlattenAppend(ra, rb);
  }

  /** The loader serves every transition exactly once, in order. */
  lemma LoaderServesAll(rows: seq<Transition>, size: nat)
    requires size > 0
    ensures ServedRows(LoaderBatches(rows, size)) == rows
  {
    var cs := Chunks(rows, size);
    var bs := LoaderBatches(rows, size);
    forall i | 0 <= i < |bs| ensures bs[i].Rows() == cs[i] {
      CollateRows(cs[i]);
    }
    assert seq(|bs|, i requires 0 <= i < |bs| => bs[i].Rows()) == cs;
    FlattenChunks(rows, size);
  }

  /** `k` full batches of transitions are served as `k` batches of `size`; any number of
      transitions as `ceil(n / size)` batches. */
  lemma LoaderBatchCount(rows: seq<Transition>, size: nat, k: nat)
    requires size > 0
    ensures |LoaderBatches(rows, size)| == CeilDiv(|rows|, size)
    ensures |rows| == k * size ==> |LoaderBatches(rows, size)| == k
  {
    ChunkCount(rows, size);
    if |rows| == k * size {
      ChunksExact(rows, size, k);
    }
  }

  // ---------------------------------------------------------------- the actor's batch size

  /** `t` occurs in `s` starting at position `i`. */
  predicate OccursAt(s: string, t: string, i: nat)
  {
    i + |t| <= |s| && s[i..i + |t|] == t
  }

  /** Whether `t` occurs in `s` as a contiguous, case-sensitive substring (Python's `in`). */
  function Contains(s: string, t: string): bool
    decreases |s|
  {
    if |t| > |s| then false else s[..|t|] == t || Contains(s[1..], t)
  }

  lemma {:induction false} ContainsIff(s: string, t: string)
    ensures Contains(s, t) <==> exists i: nat :: OccursAt(s, t, i)
    decreases |s|
  {
    if |t| <= |s| {
      if s[..|t|] == t {
        assert OccursAt(s, t, 0);
      } else {
        ContainsIff(s[1..], t);
        if Contains(s[1..], t) {
          var i: nat :| OccursAt(s[1..], t, i);
          assert s[i + 1..i + 1 + |t|] == s[1..][i..i + |t|];
          assert OccursAt(s, t, i + 1);
        }
        if i: nat :| OccursAt(s, t, i) {
          assert i != 0;
          assert s[1..][i - 1..i - 1 + |t|] == s[i..i + |t|];
          assert OccursAt(s[1..], t, i - 1);
        }
      }
    }
  }

  lemma ContainsAt(s: string, t: string, i: nat)
    requires OccursAt(s, t, i)
    ensures Contains(s, t)
  {
    ContainsIff(s, t);
  }

  /** `action_bsize`: 2 for a policy whose name contains "mistral", else the buffer's batch
      size. */
  function ActorBatchSize(policyLm: string, batchSize: nat): (r: nat)
    ensures (exists i: nat :: OccursAt(policyLm, "mistral", i)) ==> r == 2
    ensures (forall i: nat :: !OccursAt(policyLm, "mistral", i)) ==> r == batchSize
  {
    ContainsIff(policyLm, "mistral");
    if Contains(policyLm, "mistral") then 2 else batchSize
  }

  /** The rule matches the substring anywhere in the name. */
  lemma MistralPoliciesUseTwo()
    ensures ActorBatchSize("mistralai/Mistral-7B-Instruct-v0.2", 8) == 2
    ensures ActorBatchSize("my-mistral", 8) == 2
  {
    ContainsAt("mistralai/Mistral-7B-Instruct-v0.2", "mistral", 0);
    assert "my-mistral" == "my-" + "mistral";
    assert "my-mistral"[3..10] == "mistral";
    ContainsAt("my-mistral", "mistral", 3);
  }

  /** The rule is case-sensitive, and other policies use the buffer's batch size. */
  lemma OtherPoliciesUseBatchSize()
    ensures ActorBatchSize("Mistral-7B", 8) == 8
    ensures ActorBatchSize("gpt2", 8) == 8
  {
    ContainsIff("Mistral-7B", "mistral");
    forall i: nat ensures !OccursAt("Mistral-7B", "mistral", i) {
      if i + 7 <= 10 {
        assert "Mistral-7B"[i..i + 7][0] == "Mistral-7B"[i];
      }
    }
  }

  // ---------------------------------------------------------------- events

  /** One loss call per batch, in order. */
  function LossCalls(o: Optimizer, bs: seq<ServedBatch>): (es: seq<Event>)
    ensures |es| == |bs|
    ensures forall i | 0 <= i < |bs| :: es[i] == LossCall(o, bs[i])
  {
    seq(|bs|, i requires 0 <= i < |bs| => LossCall(o, bs[i]))
  }

  lemma LossCallsSnoc(o: Optimizer, bs: seq<ServedBatch>, i: nat)
    requires i < |bs|
    ensures LossCalls(o, bs[..i + 1]) == LossCalls(o, bs[..i]) + [LossCall(o, bs[i])]
  {
  }

  /** What closes an epoch: one clip, one step and, for the critic only, one soft update of
      the target critic. */
  function Closing(cfg: Config, o: Optimizer): seq<Event>
  {
    [ClipGradNorm(cfg.maxGradNorm), OptimizerStep(o)] +
    (if o == CriticOptimizer then [SoftUpdateTarget(cfg.tau)] else [])
  }

  /** One epoch of optimizer `o`: zero the gradients once, one loss call per batch, close. */
  function EpochEvents(cfg: Config, o: Optimizer, bs: seq<ServedBatch>): seq<Event>
  {
    [ZeroGrad(o)] + LossCalls(o, bs) + Closing(cfg, o)
  }

  /** The events of an epoch, appended the way the trainer causes them. */
  lemma EpochEventsAppend(h: seq<Event>, cfg: Config, o: Optimizer, bs: seq<ServedBatch>)
    ensures h + [ZeroGrad(o)] + LossCalls(o, bs) + Closing(cfg, o) == h + EpochEvents(cfg, o, bs)
  {
  }

  /** The epochs of one phase, epoch `e` serving `draws[e]` in batches of `size`. */
  function PhaseEvents(cfg: Config, o: Optimizer, draws: seq<seq<Transition>>, size: nat): seq<Event>
    requires size > 0
    decreases |draws|
  {
    if |draws| == 0 then []
    else PhaseEvents(cfg, o, draws[..|draws| - 1], size) + EpochEvents(cfg, o, LoaderBatches(draws[|draws| - 1], size))
  }

  /** One more epoch adds its events at the end. */
  lemma PhaseEventsSnoc(cfg: Config, o: Optimizer, draws: seq<seq<Transition>>, d: seq<Transition>, size: nat)
    requires size > 0
    ensures PhaseEvents(cfg, o, draws + [d], size) == PhaseEvents(cfg, o, draws, size) + EpochEvents(cfg, o, LoaderBatches(d, size))
  {
    assert (draws + [d])[..|draws|] == draws;
  }

  /** The events of one `update`: the critic phase in batches of the buffer's batch size,
      then, unless the actor is frozen, the actor phase in batches of `ActorBatchSize`. */
  function UpdateEvents(cfg: Config, policyLm: string, batchSize: nat, criticDraws: seq<seq<Transition>>,
                        actorDraws: seq<seq<Transition>>, noUpdateActor: bool): seq<Event>
    requires batchSize > 0
  {
    var critic := PhaseEvents(cfg, CriticOptimizer, criticDraws, batchSize);
    if noUpdateActor then critic
    else critic + PhaseEvents(cfg, LmOptimizer, actorDraws, ActorBatchSize(policyLm, batchSize))
  }
}
