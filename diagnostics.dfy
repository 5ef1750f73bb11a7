/** `dict_mean`: averaging a list of diagnostic records key by key. */
module Diagnostics {
  import opened Numeric

  /** A value, or the key whose lookup failed (Python's `KeyError`). */
  datatype Result<T, E> = Ok(value: T) | Err(error: E)

  /** Every record holds every key of the first record. */
  ghost predicate KeysShared<K>(ds: seq<map<K, real>>)
  {
    forall i, k | 0 <= i < |ds| && k in ds[0] :: k in ds[i]
  }

  /** `[d[key] for d in ds]`, in list order. */
  function Column<K>(ds: seq<map<K, real>>, key: K): (c: seq<real>)
    requires forall i | 0 <= i < |ds| :: key in ds[i]
    ensures |c| == |ds|
    ensures forall i | 0 <= i < |ds| :: c[i] == ds[i][key]
  {
    seq(|ds|, i requires 0 <= i < |ds| => ds[i][key])
  }

  /** What `dict_mean` computes when no lookup fails: the keys of the first record, each
      mapped to the unweighted mean of its column; nothing at all for an empty list. (Keys
      some record lacks, where `dict_mean` fails instead, are left out.) */
  ghost function MeanRecord<K>(ds: seq<map<K, real>>): (r: map<K, real>)
  {
    if |ds| == 0 then map[]
    else map k | k in ds[0] && (forall i | 0 <= i < |ds| :: k in ds[i]) :: Mean(Column(ds, k))
  }

  /** Growing a column one record at a time appends that record's value. */
  lemma ColumnPrefix<K>(ds: seq<map<K, real>>, key: K, j: nat)
    requires j < |ds| && forall i | 0 <= i <= j :: key in ds[i]
    ensures Column(ds[..j + 1], key) == Column(ds[..j], key) + [ds[j][key]]
  {
  }

  /** `dict_mean(dict_list)`. The outer loop visits the first record's keys, the inner one
      sums a key's column over all records and fails at the first record without the key. */
  method DictMean<K(==)>(ds: seq<map<K, real>>) returns (r: Result<map<K, real>, K>)
    ensures r.Ok? <==> KeysShared(ds)
    ensures r.Ok? ==> r.value == MeanRecord(ds)
    ensures r.Err? ==> |ds| > 0 && r.error in ds[0] &&
                       exists i | 0 <= i < |ds| :: r.error !in ds[i]
  {
    if |ds| == 0 {
      return Ok(map[]);
    }
    var mean: map<K, real> := map[];
    var pending := ds[0].Keys;
    while pending != {}
      invariant pending <= ds[0].Keys
      invariant mean.Keys == ds[0].Keys - pending
      invariant forall k | k in mean :: forall i | 0 <= i < |ds| :: k in ds[i]
      invariant forall k | k in mean :: mean[k] == Mean(Column(ds, k))
      decreases pending
    {
      var key :| key in pending;
      var total := 0.0;
      var j := 0;
      while j < |ds|
        invariant 0 <= j <= |ds|
        invariant forall i | 0 <= i < j :: key in ds[i]
        invariant total == Sum(Column(ds[..j], key))
      {
        if key !in ds[j] {
          return Err(key);
        }
        ColumnPrefix(ds, key, j);
        total := total + ds[j][key];
        j := j + 1;
      }
      assert ds[..j] == ds;
      mean := mean[key := total / |ds| as real];
      pending := pending - {key};
    }
    assert KeysShared(ds) by {
      forall i, k | 0 <= i < |ds| && k in ds[0] ensures k in ds[i] {
        assert k in mean;
      }
    }
    assert mean == MeanRecord(ds);
    return Ok(mean);
  }

  /** Averaging copies of one record gives that record back. */
  lemma MeanRecordOfCopies<K>(ds: seq<map<K, real>>, d: map<K, real>)
    requires |ds| > 0 && forall i | 0 <= i < |ds| :: ds[i] == d
    ensures KeysShared(ds)
    ensures MeanRecord(ds) == d
  {
    forall k | k in d ensures MeanRecord(ds)[k] == d[k] {
      MeanOfConstant(Column(ds, k), d[k]);
    }
  }

  /** Every averaged value lies between the smallest and the largest value of its key. */
  lemma MeanRecordBetweenExtremes<K>(ds: seq<map<K, real>>, k: K)
    requires KeysShared(ds) && |ds| > 0 && k in ds[0]
    ensures k in MeanRecord(ds)
    ensures Minimum(Column(ds, k)) <= MeanRecord(ds)[k] <= Maximum(Column(ds, k))
  {
    MeanBetweenExtremes(Column(ds, k));
  }

  /** Keys beyond the first record's are dropped, and the result has exactly its keys. */
  lemma MeanRecordKeys<K>(ds: seq<map<K, real>>)
    requires KeysShared(ds)
    ensures MeanRecord(ds).Keys == (if |ds| == 0 then {} else ds[0].Keys)
  {
  }
}
