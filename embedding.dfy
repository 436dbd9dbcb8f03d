/** The embedding loop of the ingestion task: every batch is handed to the
    provider in order and the returned vectors are appended to `vectors`. */
module Embedding {
  import opened Wrappers
  import opened Batching

  /** What the loop did: its result (every vector, or the first failure) and
      the batches it handed to the provider, in call order. */
  datatype EmbedRun<T, V> = EmbedRun(result: Result<seq<V>>, sent: seq<seq<T>>)

  /** The loop run over the batches `bs`: a call per batch, stopping at the
      first call that raises. The batches sent are a prefix of `bs`, all of
      it when the loop succeeds. */
  function RunEmbeds<T, V>(embed: seq<T> -> Result<seq<V>>, bs: seq<seq<T>>): (r: EmbedRun<T, V>)
    ensures |r.sent| <= |bs|
    ensures r.result.Ok? ==> |r.sent| == |bs|
  {
    if bs == [] then EmbedRun(Ok([]), [])
    else
      var prev := RunEmbeds(embed, bs[..|bs| - 1]);
      var last := bs[|bs| - 1];
      if prev.result.Err? then prev
      else match embed(last)
        case Err(m) => EmbedRun(Err(m), prev.sent + [last])
        case Ok(v) => EmbedRun(Ok(prev.result.value + v), prev.sent + [last])
  }

  /** The vectors the provider returns for a call, none if it raises. */
  function Out<V>(r: Result<seq<V>>): seq<V> {
    if r.Ok? then r.value else []
  }

  /** The provider's answer to each batch, in batch order. */
  function Outputs<T, V>(embed: seq<T> -> Result<seq<V>>, bs: seq<seq<T>>): seq<seq<V>> {
    seq(|bs|, k requires 0 <= k < |bs| => Out(embed(bs[k])))
  }

  /** Once a call has raised, later batches change nothing: they are never sent. */
  lemma {:induction false} RunEmbedsStopsAtError<T, V>(embed: seq<T> -> Result<seq<V>>, bs: seq<seq<T>>, rest: seq<seq<T>>)
    requires RunEmbeds(embed, bs).result.Err?
    ensures RunEmbeds(embed, bs + rest) == RunEmbeds(embed, bs)
    decreases |rest|
  {
    if rest == [] {
      assert bs + rest == bs;
    } else {
      var front := rest[..|rest| - 1];
      RunEmbedsStopsAtError(embed, bs, front);
      assert (bs + rest)[..|bs + rest| - 1] == bs + front;
    }
  }

  /** The answers to a list of batches extended by one batch. */
  lemma OutputsSnoc<T, V>(embed: seq<T> -> Result<seq<V>>, bs: seq<seq<T>>)
    requires bs != []
    ensures Outputs(embed, bs) == Outputs(embed, bs[..|bs| - 1]) + [Out(embed(bs[|bs| - 1]))]
  {
  }

  /** The loop succeeds iff every call succeeds. */
  lemma {:induction false} RunEmbedsSucceeds<T, V>(embed: seq<T> -> Result<seq<V>>, bs: seq<seq<T>>)
    ensures RunEmbeds(embed, bs).result.Ok? <==> forall k :: 0 <= k < |bs| ==> embed(bs[k]).Ok?
    decreases |bs|
  {
    if bs != [] {
      var front := bs[..|bs| - 1];
      RunEmbedsSucceeds(embed, front);
      assert forall k :: 0 <= k < |front| ==> front[k] == bs[k];
    }
  }

  /** When the loop succeeds it has sent every batch and `vectors` is the
      in-order concatenation of the answers. */
  lemma {:induction false} RunEmbedsOk<T, V>(embed: seq<T> -> Result<seq<V>>, bs: seq<seq<T>>)
    ensures RunEmbeds(embed, bs).result.Ok? ==>
              RunEmbeds(embed, bs).sent == bs &&
              RunEmbeds(embed, bs).result.value == Concat(Outputs(embed, bs))
    decreases |bs|
  {
    if bs != [] && RunEmbeds(embed, bs).result.Ok? {
      var front := bs[..|bs| - 1];
      var last := bs[|bs| - 1];
      RunEmbedsOk(embed, front);
      var prev := RunEmbeds(embed, front);
      assert prev.result.Ok? && embed(last).Ok?;
      assert RunEmbeds(embed, bs) == EmbedRun(Ok(prev.result.value + Out(embed(last))), front + [last]);
      assert bs == front + [last];
      OutputsSnoc(embed, bs);
      ConcatAppend(Outputs(embed, front), Out(embed(last)));
    }
  }

  /** If a call raises, the loop has sent exactly the batches up to and
      including that one, every earlier call succeeded, and the loop's error
      is that call's. */
  lemma {:induction false} RunEmbedsErr<T, V>(embed: seq<T> -> Result<seq<V>>, bs: seq<seq<T>>)
    requires RunEmbeds(embed, bs).result.Err?
    ensures 0 < |RunEmbeds(embed, bs).sent| <= |bs|
    ensures RunEmbeds(embed, bs).sent == bs[..|RunEmbeds(embed, bs).sent|]
    ensures embed(RunEmbeds(embed, bs).sent[|RunEmbeds(embed, bs).sent| - 1]) == Err(RunEmbeds(embed, bs).result.msg)
    ensures forall k :: 0 <= k < |RunEmbeds(embed, bs).sent| - 1 ==> embed(bs[k]).Ok?
    decreases |bs|
  {
    var front := bs[..|bs| - 1];
    var last := bs[|bs| - 1];
    var prev := RunEmbeds(embed, front);
    if prev.result.Err? {
      RunEmbedsErr(embed, front);
    } else {
      RunEmbedsSucceeds(embed, front);
      RunEmbedsOk(embed, front);
      assert prev.sent == front;
      assert bs == front + [last];
    }
  }

  /** When every call answers with one vector per input text, there is one
      vector per chunk and vector `k` is the answer, at position `k % 100`, of
      the call whose input at that position is chunk `k`. */
  lemma EmbeddingsAligned<T, V>(embed: seq<T> -> Result<seq<V>>, chunks: seq<T>)
    requires forall k :: 0 <= k < |Batches(chunks)| ==>
               embed(Batches(chunks)[k]).Ok? && |embed(Batches(chunks)[k]).value| == |Batches(chunks)[k]|
    ensures RunEmbeds(embed, Batches(chunks)).result.Ok?
    ensures |RunEmbeds(embed, Batches(chunks)).result.value| == |chunks|
    ensures forall k :: 0 <= k < |chunks| ==>
              k / BatchSize < |Batches(chunks)| && k % BatchSize < |Batches(chunks)[k / BatchSize]| &&
              chunks[k] == Batches(chunks)[k / BatchSize][k % BatchSize] &&
              RunEmbeds(embed, Batches(chunks)).result.value[k] ==
                embed(Batches(chunks)[k / BatchSize]).value[k % BatchSize]
  {
    var bs := Batches(chunks);
    var outs := Outputs(embed, bs);
    RunEmbedsSucceeds(embed, bs);
    RunEmbedsOk(embed, bs);
    BatchesSpec(chunks);
    BatchesFull(chunks);
    var vectors := RunEmbeds(embed, bs).result.value;
    assert vectors == Concat(outs);
    if bs != [] {
      ConcatLength(bs);
      ConcatLength(outs);
    }
    forall k | 0 <= k < |chunks|
      ensures k / BatchSize < |bs| && k % BatchSize < |bs[k / BatchSize]|
      ensures chunks[k] == bs[k / BatchSize][k % BatchSize]
      ensures vectors[k] == embed(bs[k / BatchSize]).value[k % BatchSize]
    {
      ConcatIndex(bs, k);
      ConcatIndex(outs, k);
    }
  }

  /** The loop at the heart of the task: slices `chunks` into batches of at
      most 100, calls the provider once per batch and extends `vectors` with
      each answer, stopping at the first call that raises. */
  method EmbedChunks<T, V>(chunks: seq<T>, embed: seq<T> -> Result<seq<V>>)
    returns (r: Result<seq<V>>, sent: seq<seq<T>>)
    ensures EmbedRun(r, sent) == RunEmbeds(embed, Batches(chunks))
    ensures r.Ok? <==> forall k :: 0 <= k < |Batches(chunks)| ==> embed(Batches(chunks)[k]).Ok?
    ensures r.Ok? ==> sent == Batches(chunks) && r.value == Concat(Outputs(embed, sent))
    ensures r.Err? ==> 0 < |sent| && embed(sent[|sent| - 1]) == Err(r.msg)
    ensures chunks == [] ==> r == Ok([]) && sent == []
  {
    var vectors: seq<V> := [];
    sent := [];
    r := Ok([]);
    var i: nat := 0;
    while i < |chunks|
      invariant r.Ok? ==> sent + SlicesFrom(chunks, i) == Batches(chunks)
      invariant r.Ok? ==> RunEmbeds(embed, sent) == EmbedRun(Ok(vectors), sent)
      invariant r.Err? ==> EmbedRun(r, sent) == RunEmbeds(embed, Batches(chunks))
      decreases if r.Ok? then |chunks| - i else 0
    {
      var batch := chunks[i..Min(i + BatchSize, |chunks|)];
      var out := embed(batch);
      assert SlicesFrom(chunks, i) == [batch] + SlicesFrom(chunks, i + BatchSize);
      assert (sent + [batch])[..|sent|] == sent;
      ghost var done := sent;
      sent := sent + [batch];
      assert sent + SlicesFrom(chunks, i + BatchSize) == Batches(chunks) by {
        assert done + ([batch] + SlicesFrom(chunks, i + BatchSize)) == sent + SlicesFrom(chunks, i + BatchSize);
      }
      if out.Err? {
        r := Err(out.msg);
        assert RunEmbeds(embed, sent) == EmbedRun(r, sent);
        RunEmbedsStopsAtError(embed, sent, SlicesFrom(chunks, i + BatchSize));
        break;
      }
      vectors := vectors + out.value;
      i := i + BatchSize;
    }
    if r.Ok? {
      assert SlicesFrom(chunks, i) == [];
      assert sent == Batches(chunks);
      r := Ok(vectors);
    }
    assert EmbedRun(r, sent) == RunEmbeds(embed, Batches(chunks));
    RunEmbedsSucceeds(embed, Batches(chunks));
    RunEmbedsOk(embed, Batches(chunks));
    if r.Err? {
      RunEmbedsErr(embed, Batches(chunks));
    }
  }
}
