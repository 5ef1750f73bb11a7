/** Transitions, the column batches a `DataLoader` collates them into, and the replay buffer
    as a sampling oracle. */
module Data {

  /** One row of the replay buffer, with its leading batch dimension removed. */
  datatype Transition = Transition(observation: string, action: string, reward: real,
                                   nextObservation: string, done: real, mcReturn: real)

  /** A dictionary of columns, `observation` ... `mc_return`, as `sample` returns it and as the
      default collate function builds it. */
  datatype Batch = Batch(observation: seq<string>, action: seq<string>, reward: seq<real>,
                         nextObservation: seq<string>, done: seq<real>, mcReturn: seq<real>)
  {
    /** Every column holds `n` entries. */
    predicate Sized(n: nat)
    {
      && |observation| == n && |action| == n && |reward| == n
      && |nextObservation| == n && |done| == n && |mcReturn| == n
    }

    function Size(): nat
    {
      |observation|
    }

    /** The `i`-th entry of every column. */
    function Row(i: nat): Transition
      requires Sized(Size()) && i < Size()
    {
      Transition(observation[i], action[i], reward[i], nextObservation[i], done[i], mcReturn[i])
    }

    /** All rows in order. */
    function Rows(): (r: seq<Transition>)
      requires Sized(Size())
      ensures |r| == Size()
    {
      seq(Size(), i requires 0 <= i < Size() => Row(i))
    }
  }

  /** A batch a `DataLoader` serves: collated and non-empty. */
  type ServedBatch = b: Batch | b.Sized(b.Size()) && b.Size() > 0
    witness Batch([""], [""], [0.0], [""], [0.0], [0.0])

  /** The default collate function: a list of transitions becomes one column per field. */
  function Collate(rows: seq<Transition>): (b: Batch)
    ensures b.Sized(|rows|)
  {
    Batch(seq(|rows|, i requires 0 <= i < |rows| => rows[i].observation),
          seq(|rows|, i requires 0 <= i < |rows| => rows[i].action),
          seq(|rows|, i requires 0 <= i < |rows| => rows[i].reward),
          seq(|rows|, i requires 0 <= i < |rows| => rows[i].nextObservation),
          seq(|rows|, i requires 0 <= i < |rows| => rows[i].done),
          seq(|rows|, i requires 0 <= i < |rows| => rows[i].mcReturn))
  }

  /** `for k, v in d.items(): d[k] = v[0]`: a sample of one becomes a single transition. */
  function Unwrap(b: Batch): Transition
    requires b.Sized(1)
  {
    b.Row(0)
  }

  /** Collating and reading the rows back gives the list that was collated. */
  lemma CollateRows(rows: seq<Transition>)
    ensures Collate(rows).Size() == |rows|
    ensures Collate(rows).Rows() == rows
  {
  }

  /** Reading the rows of a batch and collating them rebuilds the batch. */
  lemma RowsCollate(b: Batch)
    requires b.Sized(b.Size())
    ensures Collate(b.Rows()) == b
  {
  }

  /** Unwrapping a collated single transition gives that transition back. */
  lemma UnwrapCollate(t: Transition)
    ensures Collate([t]).Sized(1)
    ensures Unwrap(Collate([t])) == t
  {
  }

  /** The replay buffer, seen from the trainer: a non-empty store of transitions that
      `sample(n)` draws rows from, and the batch size it was configured with. */
  class ReplayBuffer {
    const batchSize: nat
    const transitions: seq<Transition>

    constructor (batchSize: nat, transitions: seq<Transition>)
      ensures this.batchSize == batchSize && this.transitions == transitions
    {
      this.batchSize := batchSize;
      this.transitions := transitions;
    }

    /** `sample(n)`: `n` stored transitions, collated. Which rows are drawn is left open. */
    method Sample(n: nat) returns (b: Batch, ghost drawn: seq<Transition>)
      requires |transitions| > 0
      ensures |drawn| == n && forall i | 0 <= i < n :: drawn[i] in transitions
      ensures b == Collate(drawn)
    {
      var rows := [];
      while |rows| < n
        invariant |rows| <= n
        invariant forall i | 0 <= i < |rows| :: rows[i] in transitions
      {
        var k :| 0 <= k < |transitions|;
        rows := rows + [transitions[k]];
      }
      b := Collate(rows);
      drawn := rows;
    }
  }

  /** `[replay_buffer.sample(1) for _ in range(n)]` followed by unwrapping every sample:
      `n` transitions, each one the buffer holds. */
  method DrawSingletons(buffer: ReplayBuffer, n: nat) returns (data: seq<Transition>)
    requires n > 0 ==> |buffer.transitions| > 0
    ensures |data| == n
    ensures forall i | 0 <= i < n :: data[i] in buffer.transitions
  {
    data := [];
    while |data| < n
      invariant |data| <= n
      invariant forall i | 0 <= i < |data| :: data[i] in buffer.transitions
    {
      var one, drawn := buffer.Sample(1);
      UnwrapCollate(drawn[0]);
      assert drawn == [drawn[0]];
      data := data + [Unwrap(one)];
    }
  }
}
