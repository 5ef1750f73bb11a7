/** What the trainer sees of the agent, the configuration it is built with, the events it
    causes, and the two loss calls `critic_iql_loss` and `actor_awr_loss`. */
module Agents {
  import opened Numeric
  import opened Losses
  import opened Records
  import opened Data
  import opened Events

  /** What a loss call produces: the diagnostic record it returns and the scalar it hands to
      `accelerator.backward`. */
  datatype LossOutput = LossOutput(record: map<Key, real>, backward: real)

  /** The agent's networks, opaque. Each is a function of the history of events so far, which
      stands for the parameters the earlier backward passes and optimizer steps produced. */
  datatype Agent = Agent(
    policyLm: string,
    critic: (seq<Event>, seq<string>, seq<string>) -> Heads,
    targetCritic: (seq<Event>, seq<string>, seq<string>) -> Heads,
    getAction: (seq<Event>, seq<string>) -> seq<string>,
    getLogProb: (seq<Event>, seq<string>, seq<string>) -> LogProbOutput)
  {
    /** Every network answers with one value per observation. */
    ghost predicate WellShaped()
    {
      && (forall h, o, a | |a| == |o| :: HeadsOfLength(critic(h, o, a), |o|))
      && (forall h, o, a | |a| == |o| :: HeadsOfLength(targetCritic(h, o, a), |o|))
      && (forall h, o :: |getAction(h, o)| == |o|)
      && (forall h, o, a | |a| == |o| :: |LogProbValues(getLogProb(h, o, a))| == |o|)
    }
  }

  /** An agent whose networks answer with one value per observation. */
  type ShapedAgent = a: Agent | a.WellShaped()
    witness Agent("",
                  (h: seq<Event>, o: seq<string>, a: seq<string>) => Zeros(|o|),
                  (h: seq<Event>, o: seq<string>, a: seq<string>) => Zeros(|o|),
                  (h: seq<Event>, o: seq<string>) => o,
                  (h: seq<Event>, o: seq<string>, a: seq<string>) => LogProb(seq(|o|, _ => 0.0)))

  /** Four heads of zeros. */
  function Zeros(n: nat): (r: Heads)
    ensures HeadsOfLength(r, n)
  {
    var z := seq(n, _ => 0.0);
    Heads(z, z, z, z)
  }

  /** The tensor library functions the losses use and the model does not define. */
  datatype Library = Library(exp: real -> real, std: seq<real> -> real)

  /** `[""] * n`: the empty actions the target critic gets for the next observations. */
  function Blanks(n: nat): (r: seq<string>)
    ensures |r| == n && forall i | 0 <= i < n :: r[i] == ""
  {
    seq(n, _ => "")
  }

  /** The four losses of a critic record. */
  function LossEntries(t: IqlTerms): (r: map<Key, real>)
    ensures r.Keys == LossKeys()
    ensures r[Key(Q1, Loss)] == t.q1Loss && r[Key(Q2, Loss)] == t.q2Loss
    ensures r[Key(V1, Loss)] == t.v1Loss && r[Key(V2, Loss)] == t.v2Loss
  {
    map[Key(Q1, Loss) := t.q1Loss, Key(Q2, Loss) := t.q2Loss,
        Key(V1, Loss) := t.v1Loss, Key(V2, Loss) := t.v2Loss]
  }

  /** The statistics of the four heads of one critic evaluation. */
  function HeadsSummary(h: Heads, std: seq<real> -> real): (r: map<Key, real>)
    requires |h.q1| > 0 && HeadsOfLength(h, |h.q1|)
    ensures r.Keys == HeadStats()
  {
    Summary(Q1, h.q1, std, true) + Summary(Q2, h.q2, std, true)
    + Summary(V1, h.v1, std, true) + Summary(V2, h.v2, std, true)
  }

  /** The statistics of the two target Q heads. */
  function TargetSummary(target: Heads, std: seq<real> -> real): (r: map<Key, real>)
    requires |target.q1| > 0 && HeadsOfLength(target, |target.q1|)
    ensures r.Keys == TargetStats()
  {
    Summary(TargetQ1, target.q1, std, true) + Summary(TargetQ2, target.q2, std, true)
  }

  /** The record `critic_iql_loss` returns: the four losses and the statistics of the six
      heads it evaluated. */
  function CriticRecord(t: IqlTerms, live: Heads, target: Heads, std: seq<real> -> real): (r: map<Key, real>)
    requires |live.q1| > 0 && HeadsOfLength(live, |live.q1|) && HeadsOfLength(target, |live.q1|)
    ensures r.Keys == CriticKeys()
    ensures r[Key(Q1, Loss)] == t.q1Loss && r[Key(Q2, Loss)] == t.q2Loss
    ensures r[Key(V1, Loss)] == t.v1Loss && r[Key(V2, Loss)] == t.v2Loss
  {
    var stats := HeadsSummary(live, std) + TargetSummary(target, std);
    stats + LossEntries(t)
  }

  /** The arithmetic and the record of `critic_iql_loss` on one collated batch, with the
      networks as the history `h` left them. */
  function CriticIqlLoss(agent: ShapedAgent, cfg: Config, lib: Library, h: seq<Event>, b: ServedBatch): (r: LossOutput)
    ensures r.record.Keys == CriticKeys()
    ensures r.backward == r.record[Key(Q1, Loss)] + r.record[Key(Q2, Loss)]
                        + r.record[Key(V1, Loss)] + r.record[Key(V2, Loss)]
  {
    var live := agent.critic(h, b.observation, b.action);
    var next := agent.targetCritic(h, b.nextObservation, Blanks(b.Size()));
    var target := agent.targetCritic(h, b.observation, b.action);
    var t := IqlLoss(b.reward, b.done, live, next, target, cfg.gamma, cfg.expectileFactor);
    LossOutput(CriticRecord(t, live, target, lib.std), t.Total())
  }

  /** For a factor in [0, 1] every reported critic loss is non-negative. */
  lemma CriticLossesNonnegative(agent: ShapedAgent, cfg: Config, lib: Library, h: seq<Event>, b: ServedBatch)
    requires 0.0 <= cfg.expectileFactor <= 1.0
    ensures var r := CriticIqlLoss(agent, cfg, lib, h, b);
            && 0.0 <= r.record[Key(Q1, Loss)] && 0.0 <= r.record[Key(Q2, Loss)]
            && 0.0 <= r.record[Key(V1, Loss)] && 0.0 <= r.record[Key(V2, Loss)]
            && 0.0 <= r.backward
  {
    var live := agent.critic(h, b.observation, b.action);
    var next := agent.targetCritic(h, b.nextObservation, Blanks(b.Size()));
    var target := agent.targetCritic(h, b.observation, b.action);
    IqlLossNonnegative(b.reward, b.done, live, next, target, cfg.gamma, cfg.expectileFactor);
  }

  /** The record `actor_awr_loss` returns. */
  function ActorRecord(pg: real, adv: seq<real>, factor: seq<real>, std: seq<real> -> real): (r: map<Key, real>)
    requires |adv| > 0 && |factor| > 0
    ensures r.Keys == ActorKeys()
    ensures r[Key(Pg, Loss)] == pg
    ensures r[Key(Factor, Min)] == Minimum(factor) && r[Key(Advantages, Min)] == Minimum(adv)
    ensures r[Key(Factor, Max)] == Maximum(factor) && r[Key(Advantages, Max)] == Maximum(adv)
  {
    map[Key(Pg, Loss) := pg] + Summary(Advantages, adv, std, true) + Summary(Factor, factor, std, false)
  }

  /** The arithmetic and the record of `actor_awr_loss` for one batch, the actions the policy
      chose for it and their advantages. */
  function ActorAwrLoss(agent: ShapedAgent, cfg: Config, lib: Library, h: seq<Event>, b: ServedBatch,
                        piAction: seq<string>, adv: seq<real>): (r: LossOutput)
    requires |piAction| == b.Size() && |adv| == b.Size()
    ensures r.record.Keys == ActorKeys()
    ensures r.backward == r.record[Key(Pg, Loss)]
    ensures r.record[Key(Advantages, Min)] == Minimum(adv) && r.record[Key(Advantages, Max)] == Maximum(adv)
  {
    var logProb := LogProbValues(agent.getLogProb(h, b.observation, piAction));
    var factor := Factors(adv, cfg.invTemp, lib.exp);
    var pg := PgLoss(logProb, adv, cfg.invTemp, lib.exp);
    LossOutput(ActorRecord(pg, adv, factor, lib.std), pg)
  }

  /** The actor loss is the same whether `get_log_prob` answers with a bare log-probability
      or with a triple holding it in the middle: the outer elements of a triple never
      matter. */
  lemma LogProbTripleUsesMiddle(triple: ShapedAgent, bare: ShapedAgent, cfg: Config, lib: Library,
                                h: seq<Event>, b: ServedBatch, piAction: seq<string>, adv: seq<real>)
    requires |piAction| == b.Size() && |adv| == b.Size()
    requires bare.getLogProb(h, b.observation, piAction).LogProb?
    requires triple.getLogProb(h, b.observation, piAction).Triple?
    requires triple.getLogProb(h, b.observation, piAction).values
             == bare.getLogProb(h, b.observation, piAction).values
    ensures ActorAwrLoss(triple, cfg, lib, h, b, piAction, adv) == ActorAwrLoss(bare, cfg, lib, h, b, piAction, adv)
  {
  }

  /** With a positive exponential the smallest reported factor, and so every factor, is
      positive. */
  lemma ActorFactorsPositive(agent: ShapedAgent, cfg: Config, lib: Library, h: seq<Event>, b: ServedBatch,
                             piAction: seq<string>, adv: seq<real>)
    requires |piAction| == b.Size() && |adv| == b.Size()
    requires ExpLike(lib.exp)
    ensures 0.0 < ActorAwrLoss(agent, cfg, lib, h, b, piAction, adv).record[Key(Factor, Min)]
  {
    var factor := Factors(adv, cfg.invTemp, lib.exp);
    FactorsPositive(adv, cfg.invTemp, lib.exp);
    assert Minimum(factor) in factor;
  }

  /** The actions the policy chooses for a batch and their advantages under the live critic,
      computed without gradients before the actor loss. */
  function PolicyAdvantage(agent: ShapedAgent, h: seq<Event>, b: Batch): (r: (seq<string>, seq<real>))
    requires b.Sized(b.Size())
    ensures |r.0| == b.Size() && |r.1| == b.Size()
  {
    var piAction := agent.getAction(h, b.observation);
    (piAction, Advantage(agent.critic(h, b.observation, piAction)))
  }
}
