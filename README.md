# Ingestion task of a web-aware RAG engine, modelled in Dafny

This project models the Celery task `process_url_ingestion`
(`app/tasks/ingestion.py`). For one ingestion job and one URL, each delivery
of the task does the following:

- parses the job id;
- writes the job's status `processing`;
- fetches the page, cleans the HTML and chunks the text;
- embeds the chunks in batches of 100;
- creates the vector collection if it is missing and upserts the chunks with
  their vectors;
- writes `completed` with the chunk count.

The work runs in a worker thread that the task waits on for at most 300
seconds. On any `Exception`, or on the timeout, the task writes `failed` with the
error text and swallows any error from that write. It then schedules a retry
after `60 * 2^retries` seconds while `retries < 3`, and re-raises otherwise.

Every collaborator is opaque. This covers the job-status writes, the fetch,
the cleaner, the chunker, the embedding provider and the vector store. Each
is a field of `Ingestion.Services`: a value or a function that returns
`Ok(v)` or `Err(message)`. A delivery is described by two things:

- how it ends (`TaskOutcome`: returned, retry scheduled, or re-raised);
- the ordered trace of the external calls it made, each marked as returned
  or raised.

The job row (status, chunk count, error message) is the fold `ApplyAll` of
the status writes in that trace that returned.

Modules:

- `Wrappers`: `Result`, `Option`, `Min`.
- `Batching`: the slicing of the chunk list into batches of at most 100.
- `Embedding`:
  - `RunEmbeds`, the specification of the batching loop;
  - `EmbedChunks`, the loop itself, which grows `vectors` batch by batch.
- `Retry`: the retry decision and its backoff.
- `Ingestion`:
  - the work as stage functions (`WorkSpec`, `PrepareStage`, `EmbedStage`,
    `StoreStage`);
  - the step-by-step methods (`Work`, `Prepare`, `EmbedAll`, `Store`), each
    proved equal to its stage function;
  - one delivery (`Attempt`) and the job row (`ApplyAll`).
- `Redelivery`: the chain of deliveries of one job. Each retry is delivered
  again with the counter one higher.

The code writes `processing` unconditionally (`app/tasks/ingestion.py:45`)
and re-delivers a failed job up to three times (`:116-120`). So a job's status
goes from `failed` back to `processing` across deliveries, as proved in
`Redelivery.FailedThenProcessingAgain`.

## Model

| member | source | states |
|---|---|---|
| Batching.BatchesSpec | app/tasks/ingestion.py:63-65 | every batch is non-empty and holds at most 100 chunks; the batches concatenated in loop order are exactly the chunk list; there are `ceil(len(chunks)/100)` of them; there are none iff the chunk list is empty |
| Batching.SlicesFrom | app/tasks/ingestion.py:64-65 | the slices `chunks[i:i+100]` for offsets `i, i+100, ...` below `len(chunks)`; its contract: every slice is non-empty and holds at most 100 chunks; specified further by `SlicesConcat`, `SlicesCount` and `SlicesAt` |
| Batching.Batches | app/tasks/ingestion.py:64-65 | the batches of the loop, from offset 0; its contract: they concatenate back to the chunk list; specified further by `BatchesSpec`, `BatchesFull` |
| Batching.SlicesConcat | app/tasks/ingestion.py:64-65 | the slices taken from offset `i` on concatenate to the rest of the list from `i`, with no gap and no overlap |
| Batching.SlicesCount | app/tasks/ingestion.py:64 | the loop takes `ceil((n - i)/100)` slices from offset `i` |
| Batching.SlicesAt | app/tasks/ingestion.py:64-65 | slice `k` from offset `i` starts inside the list and is `chunks[i+100k : min(i+100k+100, n)]` |
| Batching.BatchesFull | app/tasks/ingestion.py:64-65 | every batch but the last holds exactly 100 chunks |
| Batching.ConcatIndex | app/tasks/ingestion.py:67 | in a concatenation of full blocks of 100 (except possibly the last), element `k` is element `k % 100` of block `k / 100` |
| Embedding.RunEmbedsSucceeds | app/tasks/ingestion.py:64-67 | the embedding loop succeeds iff every batch's call returns |
| Embedding.RunEmbeds | app/tasks/ingestion.py:62-67 | the embedding loop as a function: one call per batch, in order, stopping at the first that raises; its contract: at most one call per batch, and one per batch when the loop succeeds; specified by `RunEmbedsSucceeds`, `RunEmbedsOk`, `RunEmbedsErr`, `RunEmbedsStopsAtError` |
| Embedding.RunEmbedsOk | app/tasks/ingestion.py:62-67 | a successful loop sent every batch in order, and `vectors` is the in-order concatenation of the provider's answers |
| Embedding.RunEmbedsErr | app/tasks/ingestion.py:64-67 | a failing loop sent a non-empty prefix of the batches; every call before the last returned; its error is the last call's |
| Embedding.RunEmbedsStopsAtError | app/tasks/ingestion.py:66 | once a call has raised, later batches are never sent and change nothing |
| Embedding.EmbeddingsAligned | app/tasks/ingestion.py:62-67 | if every call returns one vector per input, then `len(vectors) == len(chunks)`, chunk `k` is element `k % 100` of batch `k / 100`, and vector `k` is that element of that batch's answer |
| Embedding.EmbedChunks | app/tasks/ingestion.py:62-67 | the loop that extends `vectors` batch by batch yields exactly `RunEmbeds`; it succeeds iff every call returns; on success it sent every batch and holds the concatenated answers; on failure its error is the last sent batch's; an empty chunk list makes no call |
| Retry.DecideSchedule | app/tasks/ingestion.py:117-118 | the countdowns of the three retries are 60, 120 and 240 seconds, each double the one before |
| Retry.Decide | app/tasks/ingestion.py:116-123 | the retry decision; its contract: a retry iff `retries < 3`, after `60 * 2^retries` seconds; specified further by `DecideSchedule` |
| Retry.ScheduleSum | app/tasks/ingestion.py:118 | countdowns that follow the doubling schedule add up to `TotalBackoff` |
| Retry.TotalBackoffClosedForm | app/tasks/ingestion.py:118 | the first `n` countdowns sum to `60 * (2^n - 1)` seconds (a countdown is the least delay before the next delivery) |
| Ingestion.Work | app/tasks/ingestion.py:39-79 | `_work`, run step by step, gives exactly the result and call trace of `WorkSpec` |
| Ingestion.WorkSpec | app/tasks/ingestion.py:39-79 | `_work` as a function returning its result and call trace; its contract: it makes no call iff the job id does not parse, and a successful work returns `{job_id, status: completed}`; specified by `WorkShape`, `CompletedIffEveryStep`, `CompletedRun`, and implemented by `Work` |
| Ingestion.PrepareStage | app/tasks/ingestion.py:47-57 | fetch, clean and chunk, then the rest; its contract: a success carries the job id and status `completed`; specified by `PrepareStageShape`, implemented by `Prepare` |
| Ingestion.EmbedStage | app/tasks/ingestion.py:59-67 | the embedder and the batching loop, then the rest; its contract: a success carries the job id and status `completed`; specified by `EmbedStageShape`, implemented by `EmbedAll` |
| Ingestion.StoreStage | app/tasks/ingestion.py:69-79 | the store steps and the `completed` write; its contract: a success carries the job id and status `completed`; specified by `StoreStageShape`, `StoreStageOk`, `StoreStageCompleted`, implemented by `Store` |
| Ingestion.Prepare | app/tasks/ingestion.py:47-57 | fetching, cleaning and chunking, then the rest of the work, gives exactly `PrepareStage` |
| Ingestion.EmbedAll | app/tasks/ingestion.py:59-67 | building the embedder and running the batching loop, then the store steps, gives exactly `EmbedStage` |
| Ingestion.Store | app/tasks/ingestion.py:69-79 | the store steps and the `completed` write give exactly `StoreStage` |
| Ingestion.StoreStageShape | app/tasks/ingestion.py:69-79 | the store steps stop at the first call that raises; none of them writes `processing` or `failed`; the stage succeeds iff its last call returned, and that call is then the `completed` write |
| Ingestion.EmbedStageShape | app/tasks/ingestion.py:59-79 | the same stop-at-first-failure shape holds from the embedding steps on |
| Ingestion.PrepareStageShape | app/tasks/ingestion.py:47-79 | the same stop-at-first-failure shape holds from the fetch on |
| Ingestion.WorkShape | app/tasks/ingestion.py:39-79 | the work makes no call iff the job id does not parse; otherwise its first call is the `processing` write, and no later call writes `processing` or `failed`; every call but the last returned and none of them wrote `completed`; the work succeeds iff its last call returned, and that call is then the `completed` write |
| Ingestion.StoreStageOk | app/tasks/ingestion.py:69-79 | the store stage succeeds iff opening the store, creating the collection, the upsert and the `completed` write all return |
| Ingestion.StoreStageCompleted | app/tasks/ingestion.py:71-79 | when every store call returns, the stage returns `{status: completed, chunks_added: added}` with the upsert's count, after exactly the four store calls |
| Ingestion.CompletedIffEveryStep | app/tasks/ingestion.py:39-79 | the work returns iff every step returns: the `processing` write, fetch, clean, chunk, the embedder, every embedding batch, the store, the collection, the upsert of the chunks with their vectors, and the `completed` write |
| Ingestion.CompletedRun | app/tasks/ingestion.py:49-79 | a completed work returns the upsert's count as `chunks_added`; its last call is the `completed` write with `chunk_count = len(chunks)`; the upsert before it received all chunks and all vectors; its embedding requests are exactly the batches, in order |
| Ingestion.EmbeddedBatchesCompleted | app/tasks/ingestion.py:64-79 | the embedding requests in a completed run's trace are exactly the batches the loop sent |
| Ingestion.ProcessingBeforeAnyWork | app/tasks/ingestion.py:39-101 | in every delivery, each fetch, clean, chunk, embedding or store call comes after a returned `processing` write, which is the first call; `processing` is written at most once; a delivery that does not start with that write timed out before it completed and only wrote `failed` |
| Ingestion.ProcessingFirst | app/tasks/ingestion.py:39-99 | a delivery whose job id parses and whose `processing` write returns starts with that write, unless it timed out before the worker made any call |
| Ingestion.CompletedAttempt | app/tasks/ingestion.py:78-104 | a delivery returns iff the worker finished within the timeout and every step returned; it then returns `{job_id, status: completed, chunks_added}`, and the row becomes `completed` with `chunk_count = len(chunks)` whatever it held before |
| Ingestion.Attempt | app/tasks/ingestion.py:81-123 | one delivery: run the work, wait for it, on an error or the timeout write `failed` and retry or re-raise; its contract: it returns only when the worker joined, with the job id and status `completed`, and it schedules a retry only while `retries < 3`; specified by `ProcessingBeforeAnyWork`, `CompletedAttempt`, `FailureIsRecorded`, `RetryDecision`, `AttemptCountdown`, `FailedWriteIsSwallowed` |
| Ingestion.Apply | app/tasks/ingestion.py:45-111 | the job row after one call, for the status writes at :45, :78 and :111; its contract: a call that raised or writes no status changes nothing, and a returned status write sets a status other than `pending` |
| Ingestion.ApplyAll | app/tasks/ingestion.py:45-111 | the job row after the status writes at :45, :78 and :111, in order; its contract: a trace with no returned status write leaves the row unchanged; specified by `CompletedAttempt`, `FailedRow`, `LateCompletedThenFailed`, `FailedThenProcessingAgain` |
| Ingestion.FailureIsRecorded | app/tasks/ingestion.py:98-113 | in a failed or timed-out delivery, a returned `completed` write appears only when the worker timed out just after making it, directly before the `failed` write; if the job id parses, its last call is the `failed` write carrying the error text (for a timeout, "Ingestion task timed out"); otherwise it makes no call |
| Ingestion.FailedRow | app/tasks/ingestion.py:109-113 | when that `failed` write returns, the row ends `failed` with the error text as `error_message` |
| Ingestion.LateCompletedTrace | app/tasks/ingestion.py:96-99 | a worker still alive at the deadline after its last call: the delivery's trace is the whole work followed by the timeout's `failed` write |
| Ingestion.LateCompletedThenFailed | app/tasks/ingestion.py:78-111 | if that worker completed every step, the row ends `failed` with the timeout message while keeping the chunk count of the `completed` write |
| Ingestion.RetryDecision | app/tasks/ingestion.py:115-123 | after a failure, a retry carrying the error is scheduled iff `retries < 3`, after `60 * 2^retries` seconds; otherwise the error is re-raised |
| Ingestion.AttemptCountdown | app/tasks/ingestion.py:116-120 | a delivery that schedules a retry had budget left and waits `60 * 2^retries` seconds |
| Ingestion.FailedWriteIsSwallowed | app/tasks/ingestion.py:109-123 | whether the `failed` write returns or raises does not change how the delivery ends |
| Redelivery.AttemptBacksOff | app/tasks/ingestion.py:116-120 | the delivery of the ingestion task, as a step of the chain, backs off: retries only within the budget, after `60 * 2^retries` seconds |
| Redelivery.Chain | app/tasks/ingestion.py:116-123 | the deliveries of a job for any step: each retry is delivered again with the counter one higher; its contract: at most one run per delivery on offer, and every run but the last scheduled a retry; specified further by `ChainStops`, `ChainAt`, `ChainSchedule`, `ChainBounded` |
| Redelivery.ChainStops | app/tasks/ingestion.py:116-123 | the chain runs at most one delivery per delivery on offer and at least one if any is on offer; it ends early only with a delivery that returned or re-raised |
| Redelivery.ChainAt | app/tasks/ingestion.py:116-120 | delivery `k` of a chain started with counter `r` runs with counter `r + k` |
| Redelivery.ChainSchedule | app/tasks/ingestion.py:116-120 | for a backing-off step, every delivery but the last scheduled a retry, delivery `k` after `60 * 2^(r + k)` seconds |
| Redelivery.ChainBounded | app/tasks/ingestion.py:116-123 | for a backing-off step started with counter `r`, at most `4 - r` deliveries run (one once the budget is spent) |
| Redelivery.DeliverBounded | app/tasks/ingestion.py:116-123 | a job is delivered at most four times |
| Redelivery.DeliverSchedule | app/tasks/ingestion.py:116-120 | the retries of a job are scheduled after 60, 120 and 240 seconds: delivery `k` after `60 * 2^k` |
| Redelivery.DeliverWaits | app/tasks/ingestion.py:118-120 | the countdowns scheduled between a job's first and last delivery add up to `60 * (2^r - 1)` seconds for `r` retries, so at most 420 |
| Redelivery.FailedThenProcessingAgain | app/tasks/ingestion.py:109-120 | after a failed delivery whose `failed` write returned, a retry whose `processing` write returns moves the row from `failed` back to `processing`, whether the retry then joins or times out |

## Left out

- The Celery machinery (decorator, broker, `self.retry`, `self.request`) is reduced to the counter `retries` and the three outcomes: returned, retry scheduled, re-raised. A re-raise ends the chain of deliveries.
- Threading is not modelled, because it is concurrency. A timeout becomes `TimedOut(progress)`: the delivery's trace keeps the first `progress` calls of the work, which can be all of them, since the thread can still be alive after its last call returned (`Ingestion.LateCompletedThenFailed`). Calls the abandoned thread makes after the deadline are left out, including a late `completed` write that lands after `failed` or races the next delivery.
- The internals of the fetch, the HTML cleaner and the chunker are not part of this model. They are opaque functions, and so are the chunk-size and overlap settings.
- The embedding provider and its vectors are opaque. The model never looks at numbers or dimensionality.
- The vector store's collection and upsert semantics are left out. They are external steps that return a count or raise.
- The internals of `update_job_status_sync` are not modelled; its three calls are the steps `markProcessing`, `markCompleted` and `markFailed`. A status write that returns is taken to update only the columns it names; one that raises changes nothing.
- Ingestion.Attempt: an exception outside `Exception` (such as `asyncio.CancelledError` or `SystemExit`) raised by the work is not modelled. `run_work` catches only `Exception` (:87-92), so the thread ends with no result and no exception, and the task returns `None` (:100-104) with no `failed` write and no retry, leaving the row at `processing`. The model has no such outcome: every failure of the work is an `Err` that reaches the failure handler.
- Parsing the job id as a UUID is an opaque step (`Services.uuid`) that either parses or raises. The grammar of UUIDs is left out.
- Timestamps (`started_at`, `completed_at`), traceback text and logging are left out: they change no status or outcome.
- The code writes `processing` without checking the previous status (:45), does not compare the number of vectors with the number of chunks (:69-74), and keeps no per-batch progress counter; the model has none of these either.
