/** One attempt of the ingestion task for a job: mark the job processing,
    fetch, clean, chunk, embed in batches, upsert, mark it completed; on any
    failure or timeout record the failure and decide whether to retry.

    Every external step (the job-status writes, the fetch, the cleaning and
    chunking, the embedding provider and the vector store) is opaque: a
    function of its inputs that returns a value or raises. The model records
    the external calls an attempt makes, in order, with whether each
    succeeded. */
module Ingestion {
  import opened Wrappers
  import opened Batching
  import opened Embedding
  import opened Retry

  /** The status column of a job. */
  datatype Status = Pending | Processing | Completed | Failed

  /** The external calls an attempt can make. */
  datatype Op =
    | MarkProcessing                            // status write "processing"
    | Fetch(url: string)                        // download the page
    | Clean                                     // strip the HTML
    | ChunkText                                 // split the text into chunks
    | OpenEmbedder                              // build the embedding client
    | Embed(batch: seq<string>)                 // one embedding request
    | OpenStore                                 // build the vector-store client
    | CreateCollection                          // create the collection if missing
    | AddDocuments(chunks: nat, vectors: nat)   // upsert chunks with their vectors
    | MarkCompleted(chunkCount: nat)            // status write "completed"
    | MarkFailed(errorMessage: string)          // status write "failed"

  /** A call that was made, and whether it returned (`ok`) or raised. */
  datatype Call = Call(op: Op, ok: bool)

  /** The behaviour of every collaborator during one attempt. `uuid` is the
      outcome of parsing the job id, which the work and the failure handler
      both do before touching the job row. */
  datatype Services<!V> = Services(
    uuid: Result<()>,
    markProcessing: Result<()>,
    fetch: string -> Result<string>,
    clean: string -> Result<string>,
    chunk: string -> Result<seq<string>>,
    openEmbedder: Result<()>,
    embed: seq<string> -> Result<seq<V>>,
    openStore: Result<()>,
    createCollection: Result<()>,
    addDocuments: (seq<string>, seq<V>) -> Result<nat>,
    markCompleted: nat -> Result<()>,
    markFailed: string -> Result<()>
  )

  /** The dictionary a successful attempt returns. */
  datatype WorkResult = WorkResult(jobId: string, status: Status, chunksAdded: nat)

  /** The result of the work and the calls it made. */
  datatype WorkRun = WorkRun(result: Result<WorkResult>, calls: seq<Call>)

  /** The calls recording the embedding requests the batching loop sent;
      only the last can have raised. */
  function EmbedCalls(sent: seq<seq<string>>, failed: bool): seq<Call> {
    seq(|sent|, k requires 0 <= k < |sent| => Call(Embed(sent[k]), !(failed && k == |sent| - 1)))
  }

  /** The work done by the worker thread, step by step; the first step that
      raises ends it with that step's error. The steps are grouped as the
      source numbers them: mark processing, then fetch/clean/chunk, then the
      embeddings, then the upsert and the "completed" write. */
  function WorkSpec<V>(svc: Services<V>, jobId: string, url: string): (r: WorkRun)
    ensures r.calls == [] <==> svc.uuid.Err?
    ensures r.result.Ok? ==> r.result.value.jobId == jobId && r.result.value.status == Completed
  {
    if svc.uuid.Err? then WorkRun(Err(svc.uuid.msg), []) else
    var acc := [Call(MarkProcessing, svc.markProcessing.Ok?)];
    if svc.markProcessing.Err? then WorkRun(Err(svc.markProcessing.msg), acc) else
    PrepareStage(svc, jobId, url, acc)
  }

  /** Fetch the page, clean it and chunk it. */
  function PrepareStage<V>(svc: Services<V>, jobId: string, url: string, acc: seq<Call>): (r: WorkRun)
    ensures r.result.Ok? ==> r.result.value.jobId == jobId && r.result.value.status == Completed
  {
    var html := svc.fetch(url);
    var c1 := acc + [Call(Fetch(url), html.Ok?)];
    if html.Err? then WorkRun(Err(html.msg), c1) else
    var text := svc.clean(html.value);
    var c2 := c1 + [Call(Clean, text.Ok?)];
    if text.Err? then WorkRun(Err(text.msg), c2) else
    var chunks := svc.chunk(text.value);
    var c3 := c2 + [Call(ChunkText, chunks.Ok?)];
    if chunks.Err? then WorkRun(Err(chunks.msg), c3) else
    EmbedStage(svc, jobId, chunks.value, c3)
  }

  /** Build the embedding client and embed the chunks batch by batch. */
  function EmbedStage<V>(svc: Services<V>, jobId: string, chunks: seq<string>, acc: seq<Call>): (r: WorkRun)
    ensures r.result.Ok? ==> r.result.value.jobId == jobId && r.result.value.status == Completed
  {
    var c1 := acc + [Call(OpenEmbedder, svc.openEmbedder.Ok?)];
    if svc.openEmbedder.Err? then WorkRun(Err(svc.openEmbedder.msg), c1) else
    var run := RunEmbeds(svc.embed, Batches(chunks));
    var c2 := c1 + EmbedCalls(run.sent, run.result.Err?);
    if run.result.Err? then WorkRun(Err(run.result.msg), c2) else
    StoreStage(svc, jobId, chunks, run.result.value, c2)
  }

  /** Open the store, create the collection, upsert, and write "completed"
      with the number of chunks. */
  function StoreStage<V>(svc: Services<V>, jobId: string, chunks: seq<string>, vectors: seq<V>, acc: seq<Call>): (r: WorkRun)
    ensures r.result.Ok? ==> r.result.value.jobId == jobId && r.result.value.status == Completed
  {
    var c1 := acc + [Call(OpenStore, svc.openStore.Ok?)];
    if svc.openStore.Err? then WorkRun(Err(svc.openStore.msg), c1) else
    var c2 := c1 + [Call(CreateCollection, svc.createCollection.Ok?)];
    if svc.createCollection.Err? then WorkRun(Err(svc.createCollection.msg), c2) else
    var added := svc.addDocuments(chunks, vectors);
    var c3 := c2 + [Call(AddDocuments(|chunks|, |vectors|), added.Ok?)];
    if added.Err? then WorkRun(Err(added.msg), c3) else
    var done := svc.markCompleted(|chunks|);
    var c4 := c3 + [Call(MarkCompleted(|chunks|), done.Ok?)];
    if done.Err? then WorkRun(Err(done.msg), c4) else
    WorkRun(Ok(WorkResult(jobId, Completed, added.value)), c4)
  }

  /** The worker's `_work`, as a sequence of steps that each append the call
      they make; a step that raises ends the work with its error. */
  method Work<V>(svc: Services<V>, jobId: string, url: string)
    returns (r: Result<WorkResult>, calls: seq<Call>)
    ensures WorkRun(r, calls) == WorkSpec(svc, jobId, url)
  {
    if svc.uuid.Err? {
      return Err(svc.uuid.msg), [];
    }
    calls := [Call(MarkProcessing, svc.markProcessing.Ok?)];
    if svc.markProcessing.Err? {
      return Err(svc.markProcessing.msg), calls;
    }
    r, calls := Prepare(svc, jobId, url, calls);
  }

  /** Steps 1 to 3 of the work: fetch, clean and chunk, then go on to the
      embeddings. */
  method Prepare<V>(svc: Services<V>, jobId: string, url: string, acc: seq<Call>)
    returns (r: Result<WorkResult>, calls: seq<Call>)
    ensures WorkRun(r, calls) == PrepareStage(svc, jobId, url, acc)
  {
    var html := svc.fetch(url);
    calls := acc + [Call(Fetch(url), html.Ok?)];
    if html.Err? {
      return Err(html.msg), calls;
    }
    var text := svc.clean(html.value);
    calls := calls + [Call(Clean, text.Ok?)];
    if text.Err? {
      return Err(text.msg), calls;
    }
    var chunks := svc.chunk(text.value);
    calls := calls + [Call(ChunkText, chunks.Ok?)];
    if chunks.Err? {
      return Err(chunks.msg), calls;
    }
    r, calls := EmbedAll(svc, jobId, chunks.value, calls);
  }

  /** Step 4 of the work: build the embedding client and run the batching
      loop, then go on to the store. */
  method EmbedAll<V>(svc: Services<V>, jobId: string, chunks: seq<string>, acc: seq<Call>)
    returns (r: Result<WorkResult>, calls: seq<Call>)
    ensures WorkRun(r, calls) == EmbedStage(svc, jobId, chunks, acc)
  {
    calls := acc + [Call(OpenEmbedder, svc.openEmbedder.Ok?)];
    if svc.openEmbedder.Err? {
      return Err(svc.openEmbedder.msg), calls;
    }
    var vectors, sent := EmbedChunks(chunks, svc.embed);
    calls := calls + EmbedCalls(sent, vectors.Err?);
    if vectors.Err? {
      return Err(vectors.msg), calls;
    }
    r, calls := Store(svc, jobId, chunks, vectors.value, calls);
  }

  /** Steps 5 and 6 of the work: open the store, create the collection,
      upsert the chunks with their vectors and write "completed". */
  method Store<V>(svc: Services<V>, jobId: string, chunks: seq<string>, vectors: seq<V>, acc: seq<Call>)
    returns (r: Result<WorkResult>, calls: seq<Call>)
    ensures WorkRun(r, calls) == StoreStage(svc, jobId, chunks, vectors, acc)
  {
    calls := acc + [Call(OpenStore, svc.openStore.Ok?)];
    if svc.openStore.Err? {
      return Err(svc.openStore.msg), calls;
    }
    calls := calls + [Call(CreateCollection, svc.createCollection.Ok?)];
    if svc.createCollection.Err? {
      return Err(svc.createCollection.msg), calls;
    }
    var added := svc.addDocuments(chunks, vectors);
    calls := calls + [Call(AddDocuments(|chunks|, |vectors|), added.Ok?)];
    if added.Err? {
      return Err(added.msg), calls;
    }
    var done := svc.markCompleted(|chunks|);
    calls := calls + [Call(MarkCompleted(|chunks|), done.Ok?)];
    if done.Err? {
      return Err(done.msg), calls;
    }
    r := Ok(WorkResult(jobId, Completed, added.value));
  }

  /** `w` extends the calls `acc` made so far with calls that stop at the
      first one that raises: none of them writes "processing" or "failed",
      every one but the last returned and did not write "completed", and the
      run succeeds iff the last returned, which is then the "completed" write. */
  ghost predicate StopsAtFirstFailure(w: WorkRun, acc: seq<Call>) {
    && |w.calls| > |acc| && w.calls[..|acc|] == acc
    && (forall k :: |acc| <= k < |w.calls| ==> !w.calls[k].op.MarkProcessing? && !w.calls[k].op.MarkFailed?)
    && (forall k :: |acc| <= k < |w.calls| - 1 ==> w.calls[k].ok && !w.calls[k].op.MarkCompleted?)
    && (w.result.Ok? <==> w.calls[|w.calls| - 1].ok)
    && (w.result.Ok? ==> w.calls[|w.calls| - 1].op.MarkCompleted?)
  }

  lemma StoreStageShape<V>(svc: Services<V>, jobId: string, chunks: seq<string>, vectors: seq<V>, acc: seq<Call>)
    ensures StopsAtFirstFailure(StoreStage(svc, jobId, chunks, vectors, acc), acc)
  {
  }

  /** Calls that returned and write no status can be moved from the calls
      made so far into the run's own calls. */
  lemma ShapeExtend(w: WorkRun, acc: seq<Call>, ext: seq<Call>)
    requires StopsAtFirstFailure(w, acc + ext)
    requires forall k :: 0 <= k < |ext| ==> ext[k].ok && !IsStatusWrite(ext[k].op)
    ensures StopsAtFirstFailure(w, acc)
  {
  }

  lemma EmbedStageShape<V>(svc: Services<V>, jobId: string, chunks: seq<string>, acc: seq<Call>)
    ensures StopsAtFirstFailure(EmbedStage(svc, jobId, chunks, acc), acc)
  {
    if svc.openEmbedder.Ok? {
      if RunEmbeds(svc.embed, Batches(chunks)).result.Err? {
        EmbedStageFails(svc, jobId, chunks, acc);
      } else {
        EmbedStageStores(svc, jobId, chunks, acc);
      }
    }
  }

  /** The shape when the embedding loop raises. */
  lemma EmbedStageFails<V>(svc: Services<V>, jobId: string, chunks: seq<string>, acc: seq<Call>)
    requires svc.openEmbedder.Ok? && RunEmbeds(svc.embed, Batches(chunks)).result.Err?
    ensures StopsAtFirstFailure(EmbedStage(svc, jobId, chunks, acc), acc)
  {
    var c1 := acc + [Call(OpenEmbedder, true)];
    EmbedFailureShape(svc.embed, Batches(chunks), c1);
    var c2 := c1 + EmbedCalls(RunEmbeds(svc.embed, Batches(chunks)).sent, true);
    assert c2[..|acc|] == acc;
  }

  /** The shape when the embedding loop succeeds and the store steps follow. */
  lemma EmbedStageStores<V>(svc: Services<V>, jobId: string, chunks: seq<string>, acc: seq<Call>)
    requires svc.openEmbedder.Ok? && RunEmbeds(svc.embed, Batches(chunks)).result.Ok?
    ensures StopsAtFirstFailure(EmbedStage(svc, jobId, chunks, acc), acc)
  {
    var run := RunEmbeds(svc.embed, Batches(chunks));
    var c2 := acc + [Call(OpenEmbedder, true)] + EmbedCalls(run.sent, false);
    StoreStageShape(svc, jobId, chunks, run.result.value, c2);
    var ext := [Call(OpenEmbedder, true)] + EmbedCalls(run.sent, false);
    assert c2 == acc + ext;
    ShapeExtend(StoreStage(svc, jobId, chunks, run.result.value, c2), acc, ext);
  }

  /** The calls of a failing embedding loop: every request but the last
      returned, and none is a status write. */
  lemma EmbedFailureShape<V>(embed: seq<string> -> Result<seq<V>>, bs: seq<seq<string>>, c1: seq<Call>)
    requires RunEmbeds(embed, bs).result.Err?
    ensures var run := RunEmbeds(embed, bs);
            var c2 := c1 + EmbedCalls(run.sent, true);
            && |c2| > |c1| && c2[..|c1|] == c1
            && (forall k :: |c1| <= k < |c2| ==> c2[k].op.Embed?)
            && (forall k :: |c1| <= k < |c2| - 1 ==> c2[k].ok)
            && !c2[|c2| - 1].ok
  {
    RunEmbedsErr(embed, bs);
    var run := RunEmbeds(embed, bs);
    var c2 := c1 + EmbedCalls(run.sent, true);
    assert c2[..|c1|] == c1;
  }

  lemma PrepareStageShape<V>(svc: Services<V>, jobId: string, url: string, acc: seq<Call>)
    ensures StopsAtFirstFailure(PrepareStage(svc, jobId, url, acc), acc)
  {
    var html := svc.fetch(url);
    if html.Ok? {
      var text := svc.clean(html.value);
      if text.Ok? {
        var chunks := svc.chunk(text.value);
        if chunks.Ok? {
          var c3 := acc + [Call(Fetch(url), true)] + [Call(Clean, true)] + [Call(ChunkText, true)];
          EmbedStageShape(svc, jobId, chunks.value, c3);
          var ext := [Call(Fetch(url), true), Call(Clean, true), Call(ChunkText, true)];
          assert c3 == acc + ext;
          ShapeExtend(EmbedStage(svc, jobId, chunks.value, c3), acc, ext);
        }
      }
    }
  }

  /** The shape of the work's call trace: nothing is called when the job id
      does not parse; otherwise the first call is the "processing" write and
      no other call writes "processing" or "failed"; every call but the last
      returned and none of them wrote "completed"; the work succeeds iff its
      last call returned, and that call is then the "completed" write. */
  lemma WorkShape<V>(svc: Services<V>, jobId: string, url: string)
    ensures WorkSpec(svc, jobId, url).calls == [] <==> svc.uuid.Err?
    ensures var cs := WorkSpec(svc, jobId, url).calls;
            cs != [] ==> cs[0] == Call(MarkProcessing, svc.markProcessing.Ok?)
    ensures var cs := WorkSpec(svc, jobId, url).calls;
            forall k :: 0 < k < |cs| ==> !cs[k].op.MarkProcessing? && !cs[k].op.MarkFailed?
    ensures var cs := WorkSpec(svc, jobId, url).calls;
            forall k :: 0 <= k < |cs| - 1 ==> cs[k].ok && !cs[k].op.MarkCompleted?
    ensures var w := WorkSpec(svc, jobId, url);
            w.result.Ok? <==> w.calls != [] && w.calls[|w.calls| - 1].ok
    ensures var w := WorkSpec(svc, jobId, url);
            w.result.Ok? ==> w.calls[|w.calls| - 1].op.MarkCompleted?
  {
    if svc.uuid.Ok? && svc.markProcessing.Ok? {
      var acc := [Call(MarkProcessing, true)];
      PrepareStageShape(svc, jobId, url, acc);
      var w := PrepareStage(svc, jobId, url, acc);
      assert w.calls[0] == w.calls[..1][0];
    }
  }

  /** The chunk list the work obtains, if fetching, cleaning and chunking
      all return. */
  function ChunksOf<V>(svc: Services<V>, url: string): Result<seq<string>> {
    match svc.fetch(url)
    case Err(m) => Err(m)
    case Ok(html) =>
      match svc.clean(html)
      case Err(m) => Err(m)
      case Ok(text) => svc.chunk(text)
  }

  /** The vectors of the chunks: the in-order concatenation of the answers
      to the embedding requests. */
  function VectorsOf<V>(svc: Services<V>, chunks: seq<string>): seq<V> {
    Concat(Outputs(svc.embed, Batches(chunks)))
  }

  /** Every step of the work returns, stated step by step without reference
      to how the work is run. */
  ghost predicate EveryStepSucceeds<V>(svc: Services<V>, url: string) {
    && svc.uuid.Ok?
    && svc.markProcessing.Ok?
    && ChunksOf(svc, url).Ok?
    && svc.openEmbedder.Ok?
    && (forall k :: 0 <= k < |Batches(ChunksOf(svc, url).value)| ==> svc.embed(Batches(ChunksOf(svc, url).value)[k]).Ok?)
    && svc.openStore.Ok?
    && svc.createCollection.Ok?
    && svc.addDocuments(ChunksOf(svc, url).value, VectorsOf(svc, ChunksOf(svc, url).value)).Ok?
    && svc.markCompleted(|ChunksOf(svc, url).value|).Ok?
  }

  /** The batches of the embedding requests in a call trace, in call order. */
  function EmbeddedBatches(cs: seq<Call>): seq<seq<string>> {
    if cs == [] then []
    else (if cs[0].op.Embed? then [cs[0].op.batch] else []) + EmbeddedBatches(cs[1..])
  }

  lemma {:induction false} EmbeddedBatchesAppend(a: seq<Call>, b: seq<Call>)
    ensures EmbeddedBatches(a + b) == EmbeddedBatches(a) + EmbeddedBatches(b)
  {
    if a != [] {
      assert (a + b)[1..] == a[1..] + b;
      EmbeddedBatchesAppend(a[1..], b);
    } else {
      assert a + b == b;
    }
  }

  lemma {:induction false} EmbeddedBatchesNoEmbed(cs: seq<Call>)
    requires forall k :: 0 <= k < |cs| ==> !cs[k].op.Embed?
    ensures EmbeddedBatches(cs) == []
  {
    if cs != [] {
      EmbeddedBatchesNoEmbed(cs[1..]);
    }
  }

  lemma {:induction false} EmbeddedBatchesOfEmbedCalls(sent: seq<seq<string>>, failed: bool)
    ensures EmbeddedBatches(EmbedCalls(sent, failed)) == sent
  {
    if sent != [] {
      var front := sent[..|sent| - 1];
      var last := sent[|sent| - 1];
      EmbeddedBatchesOfEmbedCalls(front, false);
      assert EmbedCalls(sent, failed) == EmbedCalls(front, false) + [Call(Embed(last), !failed)];
      EmbeddedBatchesAppend(EmbedCalls(front, false), [Call(Embed(last), !failed)]);
      assert sent == front + [last];
    }
  }

  /** The calls of a work run whose steps up to the embeddings returned. */
  function CallsBeforeStore(url: string, sent: seq<seq<string>>): seq<Call> {
    [Call(MarkProcessing, true)] + [Call(Fetch(url), true)] + [Call(Clean, true)] + [Call(ChunkText, true)]
    + [Call(OpenEmbedder, true)] + EmbedCalls(sent, false)
  }

  /** Once every step up to the embeddings has returned, what is left of the
      work is the store stage. */
  lemma WorkReachesStore<V>(svc: Services<V>, jobId: string, url: string)
    requires svc.uuid.Ok? && svc.markProcessing.Ok? && ChunksOf(svc, url).Ok? && svc.openEmbedder.Ok?
    requires RunEmbeds(svc.embed, Batches(ChunksOf(svc, url).value)).result.Ok?
    ensures var chunks := ChunksOf(svc, url).value;
            var run := RunEmbeds(svc.embed, Batches(chunks));
            WorkSpec(svc, jobId, url) == StoreStage(svc, jobId, chunks, run.result.value, CallsBeforeStore(url, run.sent))
  {
  }

  /** The work returns iff every step returns. */
  lemma CompletedIffEveryStep<V>(svc: Services<V>, jobId: string, url: string)
    ensures WorkSpec(svc, jobId, url).result.Ok? <==> EveryStepSucceeds(svc, url)
  {
    var w := WorkSpec(svc, jobId, url);
    if svc.uuid.Ok? && svc.markProcessing.Ok? && ChunksOf(svc, url).Ok? && svc.openEmbedder.Ok? {
      var chunks := ChunksOf(svc, url).value;
      var bs := Batches(chunks);
      var run := RunEmbeds(svc.embed, bs);
      RunEmbedsSucceeds(svc.embed, bs);
      RunEmbedsOk(svc.embed, bs);
      if run.result.Ok? {
        WorkReachesStore(svc, jobId, url);
        StoreStageOk(svc, jobId, chunks, run.result.value, CallsBeforeStore(url, run.sent));
      } else {
        var c3 := [Call(MarkProcessing, true), Call(Fetch(url), true), Call(Clean, true), Call(ChunkText, true)];
        assert w == PrepareStage(svc, jobId, url, [Call(MarkProcessing, true)]);
        assert w == EmbedStage(svc, jobId, chunks, c3);
      }
    } else if svc.uuid.Ok? && svc.markProcessing.Ok? {
      assert w == PrepareStage(svc, jobId, url, [Call(MarkProcessing, true)]);
    }
  }

  /** The calls of the store stage when every one of them returns. */
  function StoreCalls(chunks: nat, vectors: nat): seq<Call> {
    [Call(OpenStore, true), Call(CreateCollection, true), Call(AddDocuments(chunks, vectors), true),
     Call(MarkCompleted(chunks), true)]
  }

  /** A store stage whose calls all return completes with the count the
      upsert reported. */
  lemma StoreStageCompleted<V>(svc: Services<V>, jobId: string, chunks: seq<string>, vectors: seq<V>, acc: seq<Call>)
    requires svc.openStore.Ok? && svc.createCollection.Ok?
    requires svc.addDocuments(chunks, vectors).Ok? && svc.markCompleted(|chunks|).Ok?
    ensures StoreStage(svc, jobId, chunks, vectors, acc)
            == WorkRun(Ok(WorkResult(jobId, Completed, svc.addDocuments(chunks, vectors).value)),
                       acc + StoreCalls(|chunks|, |vectors|))
  {
  }

  /** The store stage succeeds iff each of its calls returns. */
  lemma StoreStageOk<V>(svc: Services<V>, jobId: string, chunks: seq<string>, vectors: seq<V>, acc: seq<Call>)
    ensures StoreStage(svc, jobId, chunks, vectors, acc).result.Ok? <==>
              && svc.openStore.Ok? && svc.createCollection.Ok?
              && svc.addDocuments(chunks, vectors).Ok? && svc.markCompleted(|chunks|).Ok?
  {
  }

  /** The embedding requests of a completed run are those the loop sent. */
  lemma EmbeddedBatchesCompleted(url: string, sent: seq<seq<string>>, chunks: nat, vectors: nat)
    ensures EmbeddedBatches(CallsBeforeStore(url, sent) + StoreCalls(chunks, vectors)) == sent
  {
    var pre := [Call(MarkProcessing, true)] + [Call(Fetch(url), true)] + [Call(Clean, true)] + [Call(ChunkText, true)]
               + [Call(OpenEmbedder, true)];
    EmbeddedBatchesNoEmbed(StoreCalls(chunks, vectors));
    EmbeddedBatchesNoEmbed(pre);
    EmbeddedBatchesAppend(CallsBeforeStore(url, sent), StoreCalls(chunks, vectors));
    EmbeddedBatchesAppend(pre, EmbedCalls(sent, false));
    EmbeddedBatchesOfEmbedCalls(sent, false);
  }

  /** A completed work run returns `{status: "completed", chunks_added:
      added}` with the count the upsert reported; its last call is the
      "completed" write carrying the number of chunks; its embedding requests
      are exactly the batches of the chunk list, in order; and the upsert was
      given the chunks with their vectors. */
  lemma CompletedRun<V>(svc: Services<V>, jobId: string, url: string)
    requires EveryStepSucceeds(svc, url)
    ensures var chunks := ChunksOf(svc, url).value;
            var w := WorkSpec(svc, jobId, url);
            && w.result == Ok(WorkResult(jobId, Completed, svc.addDocuments(chunks, VectorsOf(svc, chunks)).value))
            && w.calls[|w.calls| - 1] == Call(MarkCompleted(|chunks|), true)
            && w.calls[|w.calls| - 2] == Call(AddDocuments(|chunks|, |VectorsOf(svc, chunks)|), true)
            && EmbeddedBatches(w.calls) == Batches(chunks)
  {
    var chunks := ChunksOf(svc, url).value;
    var bs := Batches(chunks);
    var run := RunEmbeds(svc.embed, bs);
    RunEmbedsSucceeds(svc.embed, bs);
    RunEmbedsOk(svc.embed, bs);
    WorkReachesStore(svc, jobId, url);
    var vectors := run.result.value;
    StoreStageCompleted(svc, jobId, chunks, vectors, CallsBeforeStore(url, run.sent));
    EmbeddedBatchesCompleted(url, run.sent, |chunks|, |vectors|);
  }

  /** A row of the job table, reduced to the columns the task writes. */
  datatype JobRecord = JobRecord(status: Status, chunkCount: nat, errorMessage: Option<string>)

  /** The row after a call: a status write that returned updates the columns
      it names; a call that raised or is not a status write changes nothing. */
  function Apply(rec: JobRecord, c: Call): (r: JobRecord)
    ensures !c.ok || !IsStatusWrite(c.op) ==> r == rec
    ensures c.ok && IsStatusWrite(c.op) ==> r.status != Pending
  {
    if !c.ok then rec
    else match c.op
      case MarkProcessing => rec.(status := Processing)
      case MarkCompleted(n) => rec.(status := Completed, chunkCount := n)
      case MarkFailed(m) => rec.(status := Failed, errorMessage := Some(m))
      case _ => rec
  }

  /** The row after a sequence of calls, applied in order. */
  function ApplyAll(rec: JobRecord, cs: seq<Call>): (r: JobRecord)
    ensures (forall k :: 0 <= k < |cs| ==> !cs[k].ok || !IsStatusWrite(cs[k].op)) ==> r == rec
  {
    if cs == [] then rec else Apply(ApplyAll(rec, cs[..|cs| - 1]), cs[|cs| - 1])
  }

  /** How the worker thread ended, as seen by `join(timeout=300)`: it
      finished, or it was still alive, having completed `progress` calls. */
  datatype Join = Joined | TimedOut(progress: nat)

  /** The text of the timeout error. */
  const TimeoutMessage: string := "Ingestion task timed out"

  /** How a delivery of the task ends: it returns the work's dictionary, or
      raises, either through a scheduled retry or by re-raising. */
  datatype TaskOutcome =
    | Returned(result: WorkResult)
    | RetryScheduled(error: string, countdown: nat)
    | Raised(error: string)

  /** The outcome of one delivery and the calls made during it. */
  datatype AttemptRun = AttemptRun(outcome: TaskOutcome, calls: seq<Call>)

  /** The calls the worker thread had completed when the join gave up: the
      first `progress` of its calls. All of them can be complete, since the
      thread can still be alive just after its last call returned. */
  function BeforeDeadline(calls: seq<Call>, progress: nat): seq<Call> {
    calls[..Min(progress, |calls|)]
  }

  /** The failure handler's attempt to write "failed"; it needs the job id
      parsed first, and what the write itself raises is swallowed. */
  function RecordFailure<V>(svc: Services<V>, msg: string): seq<Call> {
    if svc.uuid.Err? then [] else [Call(MarkFailed(msg), svc.markFailed(msg).Ok?)]
  }

  /** How the failure handler ends once the failure is recorded. */
  function OnFailure(retries: nat, msg: string): TaskOutcome {
    match Decide(retries)
    case RetryAfter(countdown) => RetryScheduled(msg, countdown)
    case GiveUp => Raised(msg)
  }

  /** The error that reaches the failure handler, if any. */
  function AttemptError<V>(svc: Services<V>, jobId: string, url: string, join: Join): Option<string> {
    if join.TimedOut? then Some(TimeoutMessage)
    else match WorkSpec(svc, jobId, url).result
      case Ok(_) => None
      case Err(m) => Some(m)
  }

  /** One delivery of `process_url_ingestion`, whose `retries` counter is
      `retries`: run the work, wait for it, and on failure record it and
      decide whether to retry. */
  function Attempt<V>(svc: Services<V>, jobId: string, url: string, retries: nat, join: Join): (r: AttemptRun)
    ensures r.outcome.Returned? ==> join.Joined? && r.outcome.result.jobId == jobId && r.outcome.result.status == Completed
    ensures r.outcome.RetryScheduled? ==> retries < MaxRetries
  {
    var w := WorkSpec(svc, jobId, url);
    match join
    case Joined =>
      if w.result.Ok? then AttemptRun(Returned(w.result.value), w.calls)
      else AttemptRun(OnFailure(retries, w.result.msg), w.calls + RecordFailure(svc, w.result.msg))
    case TimedOut(progress) =>
      AttemptRun(OnFailure(retries, TimeoutMessage),
                 BeforeDeadline(w.calls, progress) + RecordFailure(svc, TimeoutMessage))
  }

  /** A write to the job's status column. */
  predicate IsStatusWrite(op: Op) {
    op.MarkProcessing? || op.MarkCompleted? || op.MarkFailed?
  }

  lemma {:induction false} ApplyAllLast(rec: JobRecord, cs: seq<Call>)
    requires cs != []
    ensures ApplyAll(rec, cs) == Apply(ApplyAll(rec, cs[..|cs| - 1]), cs[|cs| - 1])
  {
  }

  /** In every delivery the "processing" write is the first call, is made at
      most once, and has returned before any fetch, cleaning, chunking,
      embedding or store call is made. A delivery that does not start with it
      timed out before that write completed and only wrote "failed". */
  lemma ProcessingBeforeAnyWork<V>(svc: Services<V>, jobId: string, url: string, retries: nat, join: Join)
    ensures var cs := Attempt(svc, jobId, url, retries, join).calls;
            forall k :: 0 <= k < |cs| && !IsStatusWrite(cs[k].op) ==> k > 0 && cs[0] == Call(MarkProcessing, true)
    ensures var cs := Attempt(svc, jobId, url, retries, join).calls;
            forall k :: 0 < k < |cs| ==> !cs[k].op.MarkProcessing?
    ensures var cs := Attempt(svc, jobId, url, retries, join).calls;
            cs != [] && !cs[0].op.MarkProcessing? ==> join.TimedOut? && cs == RecordFailure(svc, TimeoutMessage)
  {
    WorkShape(svc, jobId, url);
  }

  /** A delivery whose job id parses and whose "processing" write returns
      starts with that write, unless it timed out before the worker made any
      call. */
  lemma ProcessingFirst<V>(svc: Services<V>, jobId: string, url: string, retries: nat, join: Join)
    requires svc.uuid.Ok? && svc.markProcessing.Ok?
    requires join.Joined? || join.progress > 0
    ensures var cs := Attempt(svc, jobId, url, retries, join).calls;
            cs != [] && cs[0] == Call(MarkProcessing, true)
  {
    WorkShape(svc, jobId, url);
  }

  /** A delivery returns iff the worker finished in time and every step
      returned. It then returns `{status: "completed", chunks_added: added}`,
      and the job row ends up "completed" with `chunk_count` equal to the
      number of chunks, whatever it held before. */
  lemma CompletedAttempt<V>(svc: Services<V>, jobId: string, url: string, retries: nat, join: Join, rec: JobRecord)
    ensures Attempt(svc, jobId, url, retries, join).outcome.Returned? <==> join.Joined? && EveryStepSucceeds(svc, url)
    ensures Attempt(svc, jobId, url, retries, join).outcome.Returned? ==>
              var chunks := ChunksOf(svc, url).value;
              var a := Attempt(svc, jobId, url, retries, join);
              && a.outcome.result == WorkResult(jobId, Completed, svc.addDocuments(chunks, VectorsOf(svc, chunks)).value)
              && ApplyAll(rec, a.calls).status == Completed
              && ApplyAll(rec, a.calls).chunkCount == |chunks|
  {
    CompletedIffEveryStep(svc, jobId, url);
    if join.Joined? && EveryStepSucceeds(svc, url) {
      CompletedRun(svc, jobId, url);
      ApplyAllLast(rec, WorkSpec(svc, jobId, url).calls);
    }
  }

  /** A delivery that fails, by an error in any step or by the timeout, has
      its last call be the "failed" write carrying the error text, made
      whenever the job id parses (if it does not, the delivery makes no call
      at all). A "completed" write that returned appears only when the worker
      timed out just after making it, and is then directly followed by the
      "failed" write. */
  lemma FailureIsRecorded<V>(svc: Services<V>, jobId: string, url: string, retries: nat, join: Join)
    requires AttemptError(svc, jobId, url, join).Some?
    ensures var cs := Attempt(svc, jobId, url, retries, join).calls;
            forall k :: 0 <= k < |cs| && cs[k].op.MarkCompleted? && cs[k].ok ==> join.TimedOut? && k == |cs| - 2
    ensures svc.uuid.Err? ==> Attempt(svc, jobId, url, retries, join).calls == []
    ensures var cs := Attempt(svc, jobId, url, retries, join).calls;
            var msg := AttemptError(svc, jobId, url, join).value;
            svc.uuid.Ok? ==> cs != [] && cs[|cs| - 1] == Call(MarkFailed(msg), svc.markFailed(msg).Ok?)
  {
    WorkShape(svc, jobId, url);
  }

  /** When the "failed" write of a failed delivery returns, the row ends up
      "failed" with the error text as its message. */
  lemma FailedRow<V>(svc: Services<V>, jobId: string, url: string, retries: nat, join: Join, rec: JobRecord)
    requires AttemptError(svc, jobId, url, join).Some?
    requires svc.uuid.Ok? && svc.markFailed(AttemptError(svc, jobId, url, join).value).Ok?
    ensures var row := ApplyAll(rec, Attempt(svc, jobId, url, retries, join).calls);
            row.status == Failed && row.errorMessage == AttemptError(svc, jobId, url, join)
  {
    FailureIsRecorded(svc, jobId, url, retries, join);
    ApplyAllLast(rec, Attempt(svc, jobId, url, retries, join).calls);
  }

  /** A worker that made every call, the "completed" write included, but
      was still alive at the deadline: the delivery's trace is the whole
      work followed by the "failed" write of the timeout. */
  lemma LateCompletedTrace<V>(svc: Services<V>, jobId: string, url: string, retries: nat, progress: nat)
    requires svc.uuid.Ok?
    requires progress >= |WorkSpec(svc, jobId, url).calls|
    ensures Attempt(svc, jobId, url, retries, TimedOut(progress)).calls
            == WorkSpec(svc, jobId, url).calls + [Call(MarkFailed(TimeoutMessage), svc.markFailed(TimeoutMessage).Ok?)]
  {
    var w := WorkSpec(svc, jobId, url);
    assert BeforeDeadline(w.calls, progress) == w.calls;
  }

  /** When such a worker had completed every step, the row ends "failed"
      with the timeout message while keeping the chunk count the
      "completed" write stored. */
  lemma LateCompletedThenFailed<V>(svc: Services<V>, jobId: string, url: string, retries: nat, progress: nat,
                                   rec: JobRecord)
    requires EveryStepSucceeds(svc, url)
    requires progress >= |WorkSpec(svc, jobId, url).calls|
    requires svc.markFailed(TimeoutMessage).Ok?
    ensures var row := ApplyAll(rec, Attempt(svc, jobId, url, retries, TimedOut(progress)).calls);
            && row.status == Failed && row.errorMessage == Some(TimeoutMessage)
            && row.chunkCount == |ChunksOf(svc, url).value|
  {
    var w := WorkSpec(svc, jobId, url);
    CompletedRun(svc, jobId, url);
    LateCompletedTrace(svc, jobId, url, retries, progress);
    CompletedThenFailedRow(rec, w.calls, |ChunksOf(svc, url).value|, TimeoutMessage);
  }

  /** A returned "failed" write right after a returned "completed" write
      sets the status and the message and keeps the chunk count. */
  lemma CompletedThenFailedRow(rec: JobRecord, cs: seq<Call>, n: nat, msg: string)
    requires cs != [] && cs[|cs| - 1] == Call(MarkCompleted(n), true)
    ensures var row := ApplyAll(rec, cs + [Call(MarkFailed(msg), true)]);
            row.status == Failed && row.errorMessage == Some(msg) && row.chunkCount == n
  {
    var f := Call(MarkFailed(msg), true);
    ApplyAllLast(rec, cs + [f]);
    assert (cs + [f])[..|cs|] == cs;
    ApplyAllLast(rec, cs);
  }

  /** After a failure, a retry carrying the error is scheduled iff fewer than
      three retries have happened, after `60 * 2^retries` seconds; otherwise
      the error is re-raised. */
  lemma RetryDecision<V>(svc: Services<V>, jobId: string, url: string, retries: nat, join: Join)
    requires AttemptError(svc, jobId, url, join).Some?
    ensures var outcome := Attempt(svc, jobId, url, retries, join).outcome;
            var msg := AttemptError(svc, jobId, url, join).value;
            && (outcome.RetryScheduled? <==> retries < MaxRetries)
            && (outcome.RetryScheduled? ==> outcome == RetryScheduled(msg, BaseCountdown * Pow2(retries)))
            && (!outcome.RetryScheduled? ==> outcome == Raised(msg))
  {
  }

  /** A delivery that schedules a retry had a retry budget left and waits
      `60 * 2^retries` seconds. */
  lemma AttemptCountdown<V>(svc: Services<V>, jobId: string, url: string, retries: nat, join: Join)
    ensures var outcome := Attempt(svc, jobId, url, retries, join).outcome;
            outcome.RetryScheduled? ==> retries < MaxRetries && outcome.countdown == BaseCountdown * Pow2(retries)
  {
  }

  /** Whether the "failed" write returns or raises does not change how the
      delivery ends: the handler swallows its error and still decides. */
  lemma FailedWriteIsSwallowed<V>(svc: Services<V>, markFailed: string -> Result<()>, jobId: string, url: string,
                                  retries: nat, join: Join)
    ensures Attempt(svc.(markFailed := markFailed), jobId, url, retries, join).outcome
            == Attempt(svc, jobId, url, retries, join).outcome
  {
  }
}
