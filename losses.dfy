/** The loss arithmetic of the IQL critic and the AWR actor, on flat tensors of reals.
    Network outputs arrive as given sequences; nothing here evaluates a network. */
module Losses {
  import opened Numeric

  /** The four heads of one critic evaluation, each flattened: twin Q and twin V. */
  datatype Heads = Heads(q1: seq<real>, q2: seq<real>, v1: seq<real>, v2: seq<real>)

  predicate HeadsOfLength(h: Heads, n: nat)
  {
    |h.q1| == n && |h.q2| == n && |h.v1| == n && |h.v2| == n
  }

  /** Elementwise `a - b`. */
  function Sub(a: seq<real>, b: seq<real>): (r: seq<real>)
    requires |a| == |b|
    ensures |r| == |a|
    ensures forall i | 0 <= i < |a| :: r[i] == a[i] - b[i]
  {
    seq(|a|, i requires 0 <= i < |a| => a[i] - b[i])
  }

  /** Elementwise `s ** 2`. */
  function Squares(s: seq<real>): (r: seq<real>)
    ensures |r| == |s|
    ensures forall i | 0 <= i < |s| :: r[i] == Mul(s[i], s[i])
  {
    seq(|s|, i requires 0 <= i < |s| => Mul(s[i], s[i]))
  }

  // ---------------------------------------------------------------- expectile loss

  /** `torch.where(diff > 0, expectile_factor, 1 - expectile_factor)` at one element. */
  function ExpectileWeight(d: real, factor: real): real
  {
    if d > 0.0 then factor else 1.0 - factor
  }

  /** For a factor in [0, 1] no term `weight * diff ** 2` is negative, whatever the
      residual's sign. */
  lemma WeightedSquareNonnegative(factor: real)
    ensures 0.0 <= factor <= 1.0 ==> forall d: real :: 0.0 <= Mul(ExpectileWeight(d, factor), Mul(d, d))
  {
    if 0.0 <= factor <= 1.0 {
      forall d: real ensures 0.0 <= Mul(ExpectileWeight(d, factor), Mul(d, d)) {
        SquareNonnegative(d);
        MulNonnegative(ExpectileWeight(d, factor), Mul(d, d));
      }
    }
  }

  /** The elementwise terms `weight * diff ** 2` of the expectile loss: one per residual,
      none negative for a factor in [0, 1]. */
  function WeightedSquares(diff: seq<real>, factor: real): (r: seq<real>)
    ensures |r| == |diff|
    ensures 0.0 <= factor <= 1.0 ==> forall i | 0 <= i < |r| :: 0.0 <= r[i]
  {
    WeightedSquareNonnegative(factor);
    seq(|diff|, i requires 0 <= i < |diff| => Mul(ExpectileWeight(diff[i], factor), Mul(diff[i], diff[i])))
  }

  /** `ArcherOfflineTrainer.expectile_loss`: the mean of the weighted squared residuals. */
  function ExpectileLoss(diff: seq<real>, factor: real): real
    requires |diff| > 0
  {
    Mean(WeightedSquares(diff, factor))
  }

  /** For a factor in [0, 1] the expectile loss is never negative. */
  lemma ExpectileLossNonnegative(diff: seq<real>, factor: real)
    requires |diff| > 0
    requires 0.0 <= factor <= 1.0
    ensures 0.0 <= ExpectileLoss(diff, factor)
  {
    SumNonnegative(WeightedSquares(diff, factor));
  }

  /** For a factor strictly inside (0, 1) the loss vanishes exactly when every residual does. */
  lemma ExpectileLossZeroIff(diff: seq<real>, factor: real)
    requires |diff| > 0
    requires 0.0 < factor < 1.0
    ensures ExpectileLoss(diff, factor) == 0.0 <==> forall i | 0 <= i < |diff| :: diff[i] == 0.0
  {
    var w := WeightedSquares(diff, factor);
    SumZeroIff(w);
    forall i | 0 <= i < |diff| ensures w[i] == 0.0 <==> diff[i] == 0.0 {
      ScaledSquareZeroIff(ExpectileWeight(diff[i], factor), diff[i]);
    }
  }

  /** With factor 0.5 every weight is 0.5, so the loss is HALF the mean squared residual. */
  lemma ExpectileLossHalf(diff: seq<real>)
    requires |diff| > 0
    ensures ExpectileLoss(diff, 0.5) == 0.5 * Mean(Squares(diff))
  {
    SumScaled(Squares(diff), WeightedSquares(diff, 0.5), 0.5);
  }

  /** Elementwise negation. */
  function Neg(s: seq<real>): (r: seq<real>)
    ensures |r| == |s|
    ensures forall i | 0 <= i < |s| :: r[i] == -s[i]
  {
    seq(|s|, i requires 0 <= i < |s| => -s[i])
  }

  /** The asymmetry of the weighting: negating every residual has the same effect as
      swapping `expectile_factor` for `1 - expectile_factor`. A residual of zero contributes
      nothing under either weight. */
  lemma ExpectileLossMirror(diff: seq<real>, factor: real)
    requires |diff| > 0
    ensures ExpectileLoss(Neg(diff), factor) == ExpectileLoss(diff, 1.0 - factor)
  {
    var w, w' := WeightedSquares(Neg(diff), factor), WeightedSquares(diff, 1.0 - factor);
    forall i | 0 <= i < |diff| ensures w[i] == w'[i] {
      var d := diff[i];
      assert Mul(-d, -d) == Mul(d, d);
      if d == 0.0 {
        assert Mul(d, d) == 0.0;
        assert Mul(ExpectileWeight(-d, factor), 0.0) == 0.0 == Mul(ExpectileWeight(d, 1.0 - factor), 0.0);
      } else {
        assert ExpectileWeight(-d, factor) == ExpectileWeight(d, 1.0 - factor);
      }
    }
    assert w == w';
  }

  // ---------------------------------------------------------------- mean squared error

  /** `torch.nn.MSELoss()(pred, target)`: the mean of `(pred - target) ** 2`. */
  function Mse(pred: seq<real>, target: seq<real>): real
    requires |pred| == |target| > 0
  {
    Mean(Squares(Sub(pred, target)))
  }

  lemma MseNonnegative(pred: seq<real>, target: seq<real>)
    requires |pred| == |target| > 0
    ensures 0.0 <= Mse(pred, target)
  {
    var sq := Squares(Sub(pred, target));
    forall i | 0 <= i < |sq| ensures 0.0 <= sq[i] {
      SquareNonnegative(pred[i] - target[i]);
    }
    SumNonnegative(sq);
  }

  /** The squared error vanishes exactly when the prediction equals the target. */
  lemma MseZeroIff(pred: seq<real>, target: seq<real>)
    requires |pred| == |target| > 0
    ensures Mse(pred, target) == 0.0 <==> pred == target
  {
    var sq := Squares(Sub(pred, target));
    forall i | 0 <= i < |pred| ensures 0.0 <= sq[i] && (sq[i] == 0.0 <==> pred[i] == target[i]) {
      SquareNonnegative(pred[i] - target[i]);
      SquareZeroIff(pred[i] - target[i]);
    }
    SumZeroIff(sq);
    if Mse(pred, target) == 0.0 {
      assert forall i | 0 <= i < |pred| :: pred[i] == target[i];
    }
  }

  /** The value-head expectile loss at factor 0.5 is half the MSE of the value head against
      the target Q values (not the MSE itself). */
  lemma ValueLossHalfMse(targetQ: seq<real>, v: seq<real>)
    requires |targetQ| == |v| > 0
    ensures ExpectileLoss(Sub(targetQ, v), 0.5) == 0.5 * Mse(v, targetQ)
  {
    ExpectileLossHalf(Sub(targetQ, v));
    assert Squares(Sub(targetQ, v)) == Squares(Sub(v, targetQ)) by {
      forall i | 0 <= i < |v| ensures Squares(Sub(targetQ, v))[i] == Squares(Sub(v, targetQ))[i] {
        assert Mul(targetQ[i] - v[i], targetQ[i] - v[i]) == Mul(v[i] - targetQ[i], v[i] - targetQ[i]);
      }
    }
  }

  // ---------------------------------------------------------------- IQL critic loss

  /** The bootstrapped target `reward + (1 - done) * v_next * gamma`, elementwise. */
  function TdTarget(reward: seq<real>, done: seq<real>, vNext: seq<real>, gamma: real): (r: seq<real>)
    requires |done| == |reward| && |vNext| == |reward|
    ensures |r| == |reward|
    ensures forall i | 0 <= i < |r| && done[i] == 1.0 :: r[i] == reward[i]
    ensures forall i | 0 <= i < |r| && done[i] == 0.0 :: r[i] == reward[i] + vNext[i] * gamma
  {
    seq(|reward|, i requires 0 <= i < |reward| => reward[i] + (1.0 - done[i]) * vNext[i] * gamma)
  }

  /** The four losses of one critic micro-batch. */
  datatype IqlTerms = IqlTerms(q1Loss: real, q2Loss: real, v1Loss: real, v2Loss: real)
  {
    /** The scalar handed to the backward pass. */
    function Total(): real
    {
      q1Loss + q2Loss + v1Loss + v2Loss
    }
  }

  /** The arithmetic of `critic_iql_loss`: q-head K regressed by MSE towards the bootstrapped
      target-v-head K of the next observation, v-head K fitted by the expectile loss towards
      target-q-head K of the current observation. */
  function IqlLoss(reward: seq<real>, done: seq<real>, live: Heads, next: Heads, target: Heads,
                   gamma: real, factor: real): IqlTerms
    requires |reward| > 0 && |done| == |reward|
    requires HeadsOfLength(live, |reward|) && HeadsOfLength(next, |reward|) && HeadsOfLength(target, |reward|)
  {
    IqlTerms(Mse(live.q1, TdTarget(reward, done, next.v1, gamma)),
             Mse(live.q2, TdTarget(reward, done, next.v2, gamma)),
             ExpectileLoss(Sub(target.q1, live.v1), factor),
             ExpectileLoss(Sub(target.q2, live.v2), factor))
  }

  /** For a factor in [0, 1] every term, and so the backpropagated total, is non-negative. */
  lemma IqlLossNonnegative(reward: seq<real>, done: seq<real>, live: Heads, next: Heads, target: Heads,
                           gamma: real, factor: real)
    requires |reward| > 0 && |done| == |reward|
    requires HeadsOfLength(live, |reward|) && HeadsOfLength(next, |reward|) && HeadsOfLength(target, |reward|)
    requires 0.0 <= factor <= 1.0
    ensures var t := IqlLoss(reward, done, live, next, target, gamma, factor);
            0.0 <= t.q1Loss && 0.0 <= t.q2Loss && 0.0 <= t.v1Loss && 0.0 <= t.v2Loss && 0.0 <= t.Total()
  {
    MseNonnegative(live.q1, TdTarget(reward, done, next.v1, gamma));
    MseNonnegative(live.q2, TdTarget(reward, done, next.v2, gamma));
    ExpectileLossNonnegative(Sub(target.q1, live.v1), factor);
    ExpectileLossNonnegative(Sub(target.q2, live.v2), factor);
  }

  /** The total IQL loss vanishes exactly when each Q head equals its own bootstrapped
      target and each V head equals the matching target Q head. */
  lemma IqlLossZeroIff(reward: seq<real>, done: seq<real>, live: Heads, next: Heads, target: Heads,
                       gamma: real, factor: real)
    requires |reward| > 0 && |done| == |reward|
    requires HeadsOfLength(live, |reward|) && HeadsOfLength(next, |reward|) && HeadsOfLength(target, |reward|)
    requires 0.0 < factor < 1.0
    ensures IqlLoss(reward, done, live, next, target, gamma, factor).Total() == 0.0 <==>
            && live.q1 == TdTarget(reward, done, next.v1, gamma)
            && live.q2 == TdTarget(reward, done, next.v2, gamma)
            && live.v1 == target.q1
            && live.v2 == target.q2
  {
    var t := IqlLoss(reward, done, live, next, target, gamma, factor);
    IqlLossNonnegative(reward, done, live, next, target, gamma, factor);
    MseZeroIff(live.q1, TdTarget(reward, done, next.v1, gamma));
    MseZeroIff(live.q2, TdTarget(reward, done, next.v2, gamma));
    ValueLossZeroIff(target.q1, live.v1, factor);
    ValueLossZeroIff(target.q2, live.v2, factor);
    assert t.Total() == 0.0 <==> t.q1Loss == 0.0 && t.q2Loss == 0.0 && t.v1Loss == 0.0 && t.v2Loss == 0.0;
  }

  /** The value-head loss vanishes exactly when the value head equals the target Q head. */
  lemma ValueLossZeroIff(targetQ: seq<real>, v: seq<real>, factor: real)
    requires |targetQ| == |v| > 0
    requires 0.0 < factor < 1.0
    ensures ExpectileLoss(Sub(targetQ, v), factor) == 0.0 <==> v == targetQ
  {
    var d := Sub(targetQ, v);
    ExpectileLossZeroIff(d, factor);
    if forall i | 0 <= i < |d| :: d[i] == 0.0 {
      forall i | 0 <= i < |v| ensures v[i] == targetQ[i] {
        assert d[i] == targetQ[i] - v[i];
      }
    }
  }

  // ---------------------------------------------------------------- AWR actor loss

  /** What is demanded of the exponential: positive and strictly increasing. */
  ghost predicate ExpLike(exp: real -> real)
  {
    && (forall x :: 0.0 < exp(x))
    && (forall x, y | x < y :: exp(x) < exp(y))
  }

  /** `torch.exp(inv_temp * advantages)`. */
  function Factors(adv: seq<real>, invTemp: real, exp: real -> real): (r: seq<real>)
    ensures |r| == |adv|
  {
    seq(|adv|, i requires 0 <= i < |adv| => exp(Mul(invTemp, adv[i])))
  }

  /** Every factor is positive, and a larger advantage (inv_temp > 0) gets a larger one. */
  lemma FactorsPositive(adv: seq<real>, invTemp: real, exp: real -> real)
    requires ExpLike(exp)
    ensures forall i | 0 <= i < |adv| :: 0.0 < Factors(adv, invTemp, exp)[i]
    ensures 0.0 < invTemp ==> forall i, j | 0 <= i < |adv| && 0 <= j < |adv| && adv[i] < adv[j] ::
              Factors(adv, invTemp, exp)[i] < Factors(adv, invTemp, exp)[j]
  {
    if 0.0 < invTemp {
      forall i, j | 0 <= i < |adv| && 0 <= j < |adv| && adv[i] < adv[j]
        ensures Factors(adv, invTemp, exp)[i] < Factors(adv, invTemp, exp)[j]
      {
        ScaleStrictlyMonotone(invTemp, adv[i], adv[j]);
      }
    }
  }

  /** The terms `factor * log_prob` whose negated mean is the policy-gradient loss: one per
      sample, and, where the weight is non-negative, of the sign of the log-probability. */
  function WeightedLogProbs(logProb: seq<real>, adv: seq<real>, invTemp: real, exp: real -> real): (r: seq<real>)
    requires |logProb| == |adv|
    ensures |r| == |adv|
    ensures forall i | 0 <= i < |r| && 0.0 <= Factors(adv, invTemp, exp)[i] ::
              (logProb[i] <= 0.0 ==> r[i] <= 0.0) && (0.0 <= logProb[i] ==> 0.0 <= r[i])
  {
    var f := Factors(adv, invTemp, exp);
    MulSigns();
    seq(|adv|, i requires 0 <= i < |adv| => Mul(f[i], logProb[i]))
  }

  /** The arithmetic of `actor_awr_loss`: `-mean(exp(inv_temp * adv) * log_prob)`. */
  function PgLoss(logProb: seq<real>, adv: seq<real>, invTemp: real, exp: real -> real): real
    requires |logProb| == |adv| > 0
  {
    -Mean(WeightedLogProbs(logProb, adv, invTemp, exp))
  }

  /** Raising one advantage (inv_temp > 0) whose log-probability is positive strictly lowers
      the loss: the weight grows with the advantage. */
  lemma PgLossDecreasesWithAdvantage(logProb: seq<real>, adv: seq<real>, invTemp: real,
                                     exp: real -> real, j: nat, a: real)
    requires |logProb| == |adv| > 0 && ExpLike(exp)
    requires j < |adv| && adv[j] < a
    requires 0.0 < logProb[j] && 0.0 < invTemp
    ensures PgLoss(logProb, adv[j := a], invTemp, exp) < PgLoss(logProb, adv, invTemp, exp)
  {
    var w := WeightedLogProbs(logProb, adv, invTemp, exp);
    var f, f' := exp(Mul(invTemp, adv[j])), exp(Mul(invTemp, a));
    ScaleStrictlyMonotone(invTemp, adv[j], a);
    assert f < f';
    MulStrictlyMonotone(f, f', logProb[j]);
    WeightedLogProbsUpdate(logProb, adv, invTemp, exp, j, a);
    SumUpdate(w, j, Mul(f', logProb[j]));
    MeanStrictlyMonotone(w, w[j := Mul(f', logProb[j])]);
  }

  /** Changing one advantage changes only the matching weighted term. */
  lemma WeightedLogProbsUpdate(logProb: seq<real>, adv: seq<real>, invTemp: real,
                               exp: real -> real, j: nat, a: real)
    requires |logProb| == |adv| && j < |adv|
    ensures WeightedLogProbs(logProb, adv[j := a], invTemp, exp) ==
            WeightedLogProbs(logProb, adv, invTemp, exp)[j := Mul(exp(Mul(invTemp, a)), logProb[j])]
  {
  }

  /** Log-probabilities are never positive, and then neither is any weighted term: the
      loss is non-negative. */
  lemma PgLossNonnegative(logProb: seq<real>, adv: seq<real>, invTemp: real, exp: real -> real)
    requires |logProb| == |adv| > 0 && ExpLike(exp)
    requires forall i | 0 <= i < |logProb| :: logProb[i] <= 0.0
    ensures 0.0 <= PgLoss(logProb, adv, invTemp, exp)
  {
    var w := WeightedLogProbs(logProb, adv, invTemp, exp);
    var neg := seq(|w|, i requires 0 <= i < |w| => -1.0 * w[i]);
    FactorsPositive(adv, invTemp, exp);
    forall i | 0 <= i < |w| ensures 0.0 <= neg[i] {
      MulNonpositive(Factors(adv, invTemp, exp)[i], logProb[i]);
    }
    SumNonnegative(neg);
    SumScaled(w, neg, -1.0);
  }

  /** What `get_log_prob` may return: a bare log-probability tensor or a triple whose
      middle element is the log-probability. */
  datatype LogProbOutput =
    | LogProb(values: seq<real>)
    | Triple(first: seq<real>, values: seq<real>, last: seq<real>)

  /** The log-probability the actor loss uses, whatever form it came in. */
  function LogProbValues(o: LogProbOutput): seq<real>
  {
    match o
    case LogProb(v) => v
    case Triple(_, v, _) => v
  }

  /** `torch.minimum` at one element. */
  function Min2(a: real, b: real): real
  {
    if a <= b then a else b
  }

  /** `min(q1, q2) - min(v1, v2)` elementwise, the advantage fed to the actor: added back to
      the smaller V head it gives the smaller Q head. */
  function Advantage(h: Heads): (r: seq<real>)
    requires HeadsOfLength(h, |h.q1|)
    ensures |r| == |h.q1|
    ensures forall i | 0 <= i < |r| ::
      var q := r[i] + Min2(h.v1[i], h.v2[i]);
      q <= h.q1[i] && q <= h.q2[i] && (q == h.q1[i] || q == h.q2[i])
  {
    seq(|h.q1|, i requires 0 <= i < |h.q1| => Min2(h.q1[i], h.q2[i]) - Min2(h.v1[i], h.v2[i]))
  }

  /** When the twin heads agree the advantage is just `q1 - v1`. */
  lemma AdvantageOfAgreeingHeads(h: Heads)
    requires HeadsOfLength(h, |h.q1|)
    requires h.q1 == h.q2 && h.v1 == h.v2
    ensures Advantage(h) == Sub(h.q1, h.v1)
  {
  }
}
