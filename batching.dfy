/** Slicing the chunk list into the consecutive batches handed to the
    embedding provider: offsets 0, 100, 200, ... and the up-to-100 chunks
    starting at each. */
module Batching {
  import opened Wrappers

  /** The fixed batch size of the ingestion task. */
  const BatchSize: nat := 100

  /** The slices taken by the loop from start offset `i` on; every one is
      non-empty and holds at most `BatchSize` elements. */
  function SlicesFrom<T>(xs: seq<T>, i: nat): (r: seq<seq<T>>)
    ensures forall k :: 0 <= k < |r| ==> 0 < |r[k]| <= BatchSize
    decreases if i < |xs| then |xs| - i else 0
  {
    if i >= |xs| then []
    else [xs[i..Min(i + BatchSize, |xs|)]] + SlicesFrom(xs, i + BatchSize)
  }

  /** Every batch the loop produces, in loop order; together they are the
      whole list. */
  function Batches<T>(xs: seq<T>): (r: seq<seq<T>>)
    ensures Concat(r) == xs
  {
    SlicesConcat(xs, 0);
    assert xs[0..] == xs;
    SlicesFrom(xs, 0)
  }

  /** Concatenation of a sequence of sequences, in order. */
  function Concat<T>(bs: seq<seq<T>>): seq<T> {
    if bs == [] then [] else bs[0] + Concat(bs[1..])
  }

  /** Number of batches of at most `d` elements needed for `n` elements. */
  function CeilDiv(n: nat, d: nat): nat
    requires d > 0
  {
    (n + d - 1) / d
  }

  lemma {:induction false} ConcatAppend<T>(bs: seq<seq<T>>, b: seq<T>)
    ensures Concat(bs + [b]) == Concat(bs) + b
  {
    if bs != [] {
      assert (bs + [b])[1..] == bs[1..] + [b];
      ConcatAppend(bs[1..], b);
    }
  }

  /** Length of a concatenation of blocks that are all full except
      possibly the last. */
  lemma {:induction false} ConcatLength<T>(bs: seq<seq<T>>)
    requires forall k :: 0 <= k < |bs| - 1 ==> |bs[k]| == BatchSize
    requires bs != []
    ensures |Concat(bs)| == BatchSize * (|bs| - 1) + |bs[|bs| - 1]|
  {
    if |bs| > 1 {
      ConcatLength(bs[1..]);
    }
  }

  /** The loop's slices, concatenated in loop order, give back the rest of
      the list from offset `i`: no element is skipped or repeated. */
  lemma {:induction false} SlicesConcat<T>(xs: seq<T>, i: nat)
    requires i <= |xs|
    ensures Concat(SlicesFrom(xs, i)) == xs[i..]
    decreases |xs| - i
  {
    if i < |xs| {
      var j := Min(i + BatchSize, |xs|);
      if j < |xs| {
        SlicesConcat(xs, j);
      } else {
        assert SlicesFrom(xs, i + BatchSize) == [];
      }
      assert SlicesFrom(xs, i)[1..] == SlicesFrom(xs, i + BatchSize);
      assert xs[i..] == xs[i..j] + xs[j..];
    }
  }

  /** Batch `k` of the slices from `i` is exactly `xs[i + 100k .. i + 100k + 100]`
      (clipped at the end of the list). */
  lemma {:induction false} SlicesAt<T>(xs: seq<T>, i: nat, k: nat)
    requires k < |SlicesFrom(xs, i)|
    ensures i + BatchSize * k < |xs|
    ensures SlicesFrom(xs, i)[k] == xs[i + BatchSize * k .. Min(i + BatchSize * k + BatchSize, |xs|)]
    decreases if i < |xs| then |xs| - i else 0
  {
    if k > 0 {
      SlicesAt(xs, i + BatchSize, k - 1);
    }
  }

  /** The number of slices from offset `i` is the ceiling of the remaining
      length divided by the batch size. */
  lemma {:induction false} SlicesCount<T>(xs: seq<T>, i: nat)
    requires i <= |xs|
    ensures |SlicesFrom(xs, i)| == CeilDiv(|xs| - i, BatchSize)
    decreases |xs| - i
  {
    if i < |xs| {
      if i + BatchSize <= |xs| {
        SlicesCount(xs, i + BatchSize);
      }
    }
  }

  /** The properties of the batching loop as a whole: bounded non-empty
      batches, lossless in-order concatenation, one embedding call per started
      block of 100 chunks, and no call at all for an empty chunk list. */
  lemma BatchesSpec<T>(xs: seq<T>)
    ensures forall k :: 0 <= k < |Batches(xs)| ==> 0 < |Batches(xs)[k]| <= BatchSize
    ensures Concat(Batches(xs)) == xs
    ensures |Batches(xs)| == CeilDiv(|xs|, BatchSize)
    ensures xs == [] <==> Batches(xs) == []
  {
    SlicesCount(xs, 0);
  }

  /** All batches but the last are full. */
  lemma BatchesFull<T>(xs: seq<T>)
    ensures forall k :: 0 <= k < |Batches(xs)| - 1 ==> |Batches(xs)[k]| == BatchSize
  {
    forall k | 0 <= k < |Batches(xs)| - 1
      ensures |Batches(xs)[k]| == BatchSize
    {
      SlicesAt(xs, 0, k);
      SlicesAt(xs, 0, k + 1);
    }
  }

  /** Element `k` of a concatenation of blocks that are all full except
      possibly the last sits at position `k % 100` of block `k / 100`. */
  lemma {:induction false} ConcatIndex<T>(bs: seq<seq<T>>, k: nat)
    requires forall j :: 0 <= j < |bs| - 1 ==> |bs[j]| == BatchSize
    requires bs != [] ==> |bs[|bs| - 1]| <= BatchSize
    requires k < |Concat(bs)|
    ensures k / BatchSize < |bs| && k % BatchSize < |bs[k / BatchSize]|
    ensures Concat(bs)[k] == bs[k / BatchSize][k % BatchSize]
  {
    if k < |bs[0]| {
      assert k < BatchSize;
    } else {
      assert |bs| > 1;
      ConcatIndex(bs[1..], k - BatchSize);
    }
  }
}
