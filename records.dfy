/** The diagnostic records `critic_iql_loss` and `actor_awr_loss` return: named scalars such
    as "q1.loss" or "factor.min". */
module Records {
  import opened Numeric

  /** The tensor a diagnostic describes. */
  datatype Series = Q1 | Q2 | V1 | V2 | TargetQ1 | TargetQ2 | Pg | Advantages | Factor

  /** The statistic taken of it. */
  datatype Stat = Loss | Average | Min | Max | Std

  /** A record key, "<series>.<stat>". */
  datatype Key = Key(series: Series, stat: Stat)

  function SeriesName(s: Series): string
  {
    match s
    case Q1 => "q1"
    case Q2 => "q2"
    case V1 => "v1"
    case V2 => "v2"
    case TargetQ1 => "target_q1"
    case TargetQ2 => "target_q2"
    case Pg => "pg"
    case Advantages => "advantages"
    case Factor => "factor"
  }

  function StatName(s: Stat): string
  {
    match s
    case Loss => "loss"
    case Average => "mean"
    case Min => "min"
    case Max => "max"
    case Std => "std"
  }

  /** The string the source uses as the dictionary key. */
  function Name(k: Key): string
  {
    SeriesName(k.series) + "." + StatName(k.stat)
  }

  /** Two keys are equal exactly when their names are: a record keyed by `Key` is a
      dictionary keyed by the source's strings. */
  lemma NameInjective(a: Key, b: Key)
    ensures Name(a) == Name(b) <==> a == b
  {
    if Name(a) == Name(b) {
      SplitAtSeparator(SeriesName(a.series), StatName(a.stat), SeriesName(b.series), StatName(b.stat));
      SeriesNameInjective(a.series, b.series);
      StatNameInjective(a.stat, b.stat);
    }
  }

  lemma SeriesNameInjective(a: Series, b: Series)
    requires SeriesName(a) == SeriesName(b)
    ensures a == b
  {
  }

  lemma StatNameInjective(a: Stat, b: Stat)
    requires StatName(a) == StatName(b)
    ensures a == b
  {
  }

  /** The position of the first separator, or the length when there is none. */
  function SeparatorIndex(s: string): (i: nat)
    ensures i <= |s|
  {
    if |s| == 0 || s[0] == '.' then 0 else 1 + SeparatorIndex(s[1..])
  }

  lemma {:induction false} SeparatorAfterPrefix(x: string, u: string)
    requires '.' !in x
    ensures SeparatorIndex(x + "." + u) == |x|
  {
    if |x| > 0 {
      assert (x + "." + u)[1..] == x[1..] + "." + u;
      SeparatorAfterPrefix(x[1..], u);
    }
  }

  /** A name with one separator, neither of whose parts contains it, splits uniquely. */
  lemma SplitAtSeparator(x: string, u: string, y: string, v: string)
    requires '.' !in x && '.' !in y
    requires x + "." + u == y + "." + v
    ensures x == y && u == v
  {
    var n := x + "." + u;
    SeparatorAfterPrefix(x, u);
    SeparatorAfterPrefix(y, v);
    assert x == n[..|x|] && y == n[..|y|];
    assert u == n[|x| + 1..] && v == n[|y| + 1..];
  }

  /** The diagnostics for one tensor: mean, min, max and, where `withStd`, the standard
      deviation, a library statistic passed in as `std`. */
  function Summary(series: Series, values: seq<real>, std: seq<real> -> real, withStd: bool): (r: map<Key, real>)
    requires |values| > 0
    ensures r.Keys == if withStd then Stats(series) else Stats(series) - {Key(series, Std)}
    ensures r[Key(series, Average)] == Mean(values)
    ensures withStd ==> r[Key(series, Std)] == std(values)
    ensures Minimum(values) == r[Key(series, Min)] <= r[Key(series, Average)] <= r[Key(series, Max)] == Maximum(values)
  {
    MeanBetweenExtremes(values);
    var m := map[Key(series, Average) := Mean(values), Key(series, Min) := Minimum(values),
                 Key(series, Max) := Maximum(values)];
    if withStd then m[Key(series, Std) := std(values)] else m
  }

  /** The four statistics of a tensor summarised with its standard deviation. */
  function Stats(series: Series): set<Key>
  {
    {Key(series, Average), Key(series, Min), Key(series, Max), Key(series, Std)}
  }

  /** The four losses of a critic record. */
  function LossKeys(): set<Key>
  {
    {Key(Q1, Loss), Key(Q2, Loss), Key(V1, Loss), Key(V2, Loss)}
  }

  lemma LossKeysAre(k: Key)
    requires k in LossKeys()
    ensures k == Key(Q1, Loss) || k == Key(Q2, Loss) || k == Key(V1, Loss) || k == Key(V2, Loss)
  {
  }

  /** The statistics of the four live critic heads. */
  function HeadStats(): set<Key>
  {
    Stats(Q1) + Stats(Q2) + Stats(V1) + Stats(V2)
  }

  /** The statistics of the two target Q heads. */
  function TargetStats(): set<Key>
  {
    Stats(TargetQ1) + Stats(TargetQ2)
  }

  /** The 28 keys of a critic record. */
  function CriticKeys(): set<Key>
  {
    HeadStats() + TargetStats() + LossKeys()
  }

  /** The 8 keys of an actor record: no standard deviation of the factor. */
  function ActorKeys(): set<Key>
  {
    {Key(Pg, Loss)} + Stats(Advantages) + (Stats(Factor) - {Key(Factor, Std)})
  }

  /** A tensor's summary with its standard deviation has four keys. */
  lemma StatsCount(s: Series)
    ensures |Stats(s)| == 4
  {
  }

  /** Every key of `keys` is a statistic, not a loss, of one of the series `within`. */
  predicate OfSeries(keys: set<Key>, within: set<Series>)
  {
    forall k | k in keys :: k.series in within && k.stat != Loss
  }

  lemma StatsOfSeriesSet(s: Series)
    ensures OfSeries(Stats(s), {s})
  {
  }

  /** Statistics of disjoint sets of series are disjoint, so their counts add up. */
  lemma UnionCount(a: set<Key>, sa: set<Series>, b: set<Key>, sb: set<Series>)
    requires OfSeries(a, sa) && OfSeries(b, sb) && sa !! sb
    ensures |a + b| == |a| + |b| && OfSeries(a + b, sa + sb)
  {
    assert a * b == {} by {
      forall k | k in a ensures k !in b {
        assert k.series in sa;
      }
    }
  }

  /** The summaries of the four live heads have 16 keys. */
  lemma HeadSummaries(a: set<Key>, b: set<Key>, c: set<Key>, d: set<Key>)
    requires |a| == 4 && |b| == 4 && |c| == 4 && |d| == 4
    requires OfSeries(a, {Q1}) && OfSeries(b, {Q2}) && OfSeries(c, {V1}) && OfSeries(d, {V2})
    ensures |a + b + c + d| == 16 && OfSeries(a + b + c + d, {Q1, Q2, V1, V2})
  {
    UnionCount(a, {Q1}, b, {Q2});
    UnionCount(a + b, {Q1, Q2}, c, {V1});
    UnionCount(a + b + c, {Q1, Q2, V1}, d, {V2});
  }

  lemma HeadStatsCount()
    ensures |HeadStats()| == 16 && OfSeries(HeadStats(), {Q1, Q2, V1, V2})
  {
    StatsCount(Q1); StatsCount(Q2); StatsCount(V1); StatsCount(V2);
    StatsOfSeriesSet(Q1); StatsOfSeriesSet(Q2); StatsOfSeriesSet(V1); StatsOfSeriesSet(V2);
    HeadSummaries(Stats(Q1), Stats(Q2), Stats(V1), Stats(V2));
  }

  lemma TargetStatsCount()
    ensures |TargetStats()| == 8 && OfSeries(TargetStats(), {TargetQ1, TargetQ2})
  {
    StatsCount(TargetQ1); StatsCount(TargetQ2);
    StatsOfSeriesSet(TargetQ1); StatsOfSeriesSet(TargetQ2);
    UnionCount(Stats(TargetQ1), {TargetQ1}, Stats(TargetQ2), {TargetQ2});
  }

  lemma LossKeysCount()
    ensures |LossKeys()| == 4 && forall k | k in LossKeys() :: k.stat == Loss
  {
  }

  /** Head statistics, target statistics and losses that keep to their series and
      statistics add up. */
  lemma CriticParts(heads: set<Key>, targets: set<Key>, losses: set<Key>)
    requires |heads| == 16 && OfSeries(heads, {Q1, Q2, V1, V2})
    requires |targets| == 8 && OfSeries(targets, {TargetQ1, TargetQ2})
    requires |losses| == 4 && forall k | k in losses :: k.stat == Loss
    ensures |heads + targets + losses| == 28
  {
    UnionCount(heads, {Q1, Q2, V1, V2}, targets, {TargetQ1, TargetQ2});
    assert (heads + targets) * losses == {} by {
      forall k | k in heads + targets ensures k !in losses {
        assert k.stat != Loss;
      }
    }
  }

  /** A critic record has 28 keys: four statistics of each of the six heads and four
      losses. */
  lemma CriticKeysCount()
    ensures |CriticKeys()| == 28
  {
    HeadStatsCount();
    TargetStatsCount();
    LossKeysCount();
    CriticParts(HeadStats(), TargetStats(), LossKeys());
  }

  /** An actor record has 8 keys: the policy-gradient loss, four statistics of the
      advantages and three of the factors. */
  lemma ActorKeysCount()
    ensures |ActorKeys()| == 8
  {
    var factor := Stats(Factor) - {Key(Factor, Std)};
    assert factor == {Key(Factor, Average), Key(Factor, Min), Key(Factor, Max)};
    assert |factor| == 3;
    StatsCount(Advantages);
    var front := {Key(Pg, Loss)} + Stats(Advantages);
    assert {Key(Pg, Loss)} * Stats(Advantages) == {};
    assert |front| == 5;
    assert front * factor == {} by {
      forall k | k in front ensures k.series != Factor { }
    }
  }

  /** Actor records describe the policy-gradient loss, the advantages and the factors. */
  predicate ActorSeries(s: Series)
  {
    s == Pg || s == Advantages || s == Factor
  }

  lemma ActorKeysOfActorSeries(k: Key)
    requires k in ActorKeys()
    ensures ActorSeries(k.series)
  {
  }

  lemma StatsOfSeries(s: Series, k: Key)
    requires k in Stats(s)
    ensures k.series == s
  {
  }

  lemma CriticKeysOfCriticSeries(k: Key)
    requires k in CriticKeys()
    ensures !ActorSeries(k.series)
  {
    if k in LossKeys() {
    } else if k in Stats(Q1) {
      StatsOfSeries(Q1, k);
    } else if k in Stats(Q2) {
      StatsOfSeries(Q2, k);
    } else if k in Stats(V1) {
      StatsOfSeries(V1, k);
    } else if k in Stats(V2) {
      StatsOfSeries(V2, k);
    } else if k in Stats(TargetQ1) {
      StatsOfSeries(TargetQ1, k);
    } else {
      StatsOfSeries(TargetQ2, k);
    }
  }

  /** The two kinds of record share no key, so merging them loses nothing. */
  lemma CriticAndActorKeysDisjoint()
    ensures CriticKeys() !! ActorKeys()
  {
    forall k | k in CriticKeys() && k in ActorKeys() ensures false {
      ActorKeysOfActorSeries(k);
      CriticKeysOfCriticSeries(k);
    }
  }
}
