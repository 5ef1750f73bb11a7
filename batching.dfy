/** The batching of a `DataLoader` over an in-memory list, in order, without shuffling and
    without dropping the last, possibly short, batch. */
module Batching {

  /** Consecutive batches of `size` elements; only the last may be shorter. */
  function Chunks<T>(s: seq<T>, size: nat): (r: seq<seq<T>>)
    requires size > 0
    ensures forall i | 0 <= i < |r| :: 0 < |r[i]| <= size
    ensures forall i | 0 <= i < |r| - 1 :: |r[i]| == size
    decreases |s|
  {
    if |s| == 0 then []
    else if |s| <= size then [s]
    else [s[..size]] + Chunks(s[size..], size)
  }

  /** Concatenation of a list of batches. */
  function Flatten<T>(bs: seq<seq<T>>): seq<T>
  {
    if |bs| == 0 then [] else bs[0] + Flatten(bs[1..])
  }

  /** `ceil(n / d)` for a positive `d`, by repeated subtraction. */
  function CeilDiv(n: nat, d: nat): nat
    requires d > 0
    decreases n
  {
    if n == 0 then 0 else if n <= d then 1 else 1 + CeilDiv(n - d, d)
  }

  /** `CeilDiv(n, d)` is the least `k` with `n <= k * d`. */
  lemma {:induction false} CeilDivIsCeiling(n: nat, d: nat)
    requires d > 0
    ensures var k := CeilDiv(n, d); n <= k * d && (k == 0 || (k - 1) * d < n)
    decreases n
  {
    if n > d {
      CeilDivIsCeiling(n - d, d);
      var k := CeilDiv(n - d, d);
      assert (k + 1) * d == k * d + d;
    }
  }

  /** `ceil(n / d)` is positive exactly when `n` is. */
  lemma CeilDivPositive(n: nat, d: nat)
    requires d > 0
    ensures CeilDiv(n, d) > 0 <==> n > 0
  {
  }

  lemma {:induction false} FlattenAppend<T>(a: seq<seq<T>>, b: seq<seq<T>>)
    ensures Flatten(a + b) == Flatten(a) + Flatten(b)
  {
    if |a| > 0 {
      assert (a + b)[0] == a[0] && (a + b)[1..] == a[1..] + b;
      FlattenAppend(a[1..], b);
      assert Flatten(a + b) == a[0] + (Flatten(a[1..]) + Flatten(b));
    } else {
      assert a + b == b;
    }
  }

  /** The batches, put back together, are exactly the list: every element is served once,
      in order. */
  lemma {:induction false} FlattenChunks<T>(s: seq<T>, size: nat)
    requires size > 0
    ensures Flatten(Chunks(s, size)) == s
    decreases |s|
  {
    if |s| > size {
      FlattenChunks(s[size..], size);
      assert [s[..size]] + Chunks(s[size..], size) == Chunks(s, size);
      assert s[..size] + s[size..] == s;
    }
  }

  /** The number of batches is `ceil(|s| / size)`. */
  lemma {:induction false} ChunkCount<T>(s: seq<T>, size: nat)
    requires size > 0
    ensures |Chunks(s, size)| == CeilDiv(|s|, size)
    decreases |s|
  {
    if |s| > size {
      ChunkCount(s[size..], size);
    }
  }

  /** A list of exactly `k` full batches is served as `k` batches of `size`. */
  lemma {:induction false} ChunksExact<T>(s: seq<T>, size: nat, k: nat)
    requires size > 0 && |s| == k * size
    ensures |Chunks(s, size)| == k
    ensures forall i | 0 <= i < k :: |Chunks(s, size)[i]| == size
    decreases k
  {
    if k > 1 {
      assert |s[size..]| == (k - 1) * size;
      ChunksExact(s[size..], size, k - 1);
    }
  }
}
