/** The chain of deliveries of one ingestion job: a delivery that schedules a
    retry is followed by another whose `retries` counter is one higher. */
module Redelivery {
  import opened Retry
  import opened Ingestion

  /** What one delivery meets: the behaviour of the collaborators and how the
      wait for the worker thread ended. */
  datatype Delivery<!V> = Delivery(svc: Services<V>, join: Join)

  /** How one delivery runs, given what it meets and its `retries` counter. */
  type Step<!V> = (Delivery<V>, nat) -> AttemptRun

  /** The deliveries of a job, starting from the one whose counter is
      `retries`, while there are deliveries to run and each one schedules a
      retry: at most one run per delivery on offer, and every run but the
      last scheduled a retry. */
  function Chain<V>(step: Step<V>, ds: seq<Delivery<V>>, retries: nat): (r: seq<AttemptRun>)
    ensures |r| <= |ds|
    ensures forall k :: 0 <= k < |r| - 1 ==> r[k].outcome.RetryScheduled?
    decreases |ds|
  {
    if ds == [] then []
    else
      var a := step(ds[0], retries);
      if a.outcome.RetryScheduled? then [a] + Chain(step, ds[1..], retries + 1) else [a]
  }

  /** The ingestion task as a step of the chain. */
  function AttemptStep<V>(jobId: string, url: string): Step<V> {
    (d: Delivery<V>, retries: nat) => Attempt(d.svc, jobId, url, retries, d.join)
  }

  /** The deliveries of the ingestion of `url` for job `jobId`. */
  function Deliver<V>(jobId: string, url: string, ds: seq<Delivery<V>>, retries: nat): seq<AttemptRun> {
    Chain(AttemptStep(jobId, url), ds, retries)
  }

  /** A step that schedules a retry only within the budget, after the
      doubling countdown. */
  ghost predicate BacksOff<V(!new)>(step: Step<V>) {
    forall d: Delivery<V>, retries: nat :: step(d, retries).outcome.RetryScheduled? ==>
      retries < MaxRetries && step(d, retries).outcome.countdown == BaseCountdown * Pow2(retries)
  }

  /** The ingestion task backs off. */
  lemma AttemptBacksOff<V(!new)>(jobId: string, url: string)
    ensures BacksOff(AttemptStep<V>(jobId, url))
  {
  }

  /** The chain runs at most one delivery per entry of `ds`, at least one if
      there is any, and stops early only by returning or re-raising. */
  lemma {:induction false} ChainStops<V>(step: Step<V>, ds: seq<Delivery<V>>, retries: nat)
    ensures |Chain(step, ds, retries)| <= |ds|
    ensures ds != [] ==> Chain(step, ds, retries) != []
    ensures |Chain(step, ds, retries)| < |ds| ==>
              Chain(step, ds, retries) != [] &&
              !Chain(step, ds, retries)[|Chain(step, ds, retries)| - 1].outcome.RetryScheduled?
    decreases |ds|
  {
    if ds != [] {
      var a := step(ds[0], retries);
      if a.outcome.RetryScheduled? {
        ChainStops(step, ds[1..], retries + 1);
        var rest := Chain(step, ds[1..], retries + 1);
        assert Chain(step, ds, retries) == [a] + rest;
      }
    }
  }

  /** Delivery `k` of the chain runs with counter `retries + k`. */
  lemma {:induction false} ChainAt<V>(step: Step<V>, ds: seq<Delivery<V>>, retries: nat, k: nat)
    requires k < |Chain(step, ds, retries)|
    ensures k < |ds|
    ensures Chain(step, ds, retries)[k] == step(ds[k], retries + k)
    decreases k
  {
    if k > 0 {
      var rest := Chain(step, ds[1..], retries + 1);
      assert Chain(step, ds, retries) == [step(ds[0], retries)] + rest;
      ChainAt(step, ds[1..], retries + 1, k - 1);
      assert ds[1..][k - 1] == ds[k];
      assert (retries + 1) + (k - 1) == retries + k;
    }
  }

  /** Every delivery of the chain but the last scheduled a retry, after
      `60 * 2^(retries + k)` seconds for delivery `k`. */
  lemma {:induction false} ChainSchedule<V(!new)>(step: Step<V>, ds: seq<Delivery<V>>, retries: nat)
    requires BacksOff(step)
    ensures forall k :: 0 <= k < |Chain(step, ds, retries)| - 1 ==>
              && Chain(step, ds, retries)[k].outcome.RetryScheduled?
              && Chain(step, ds, retries)[k].outcome.countdown == BaseCountdown * Pow2(retries + k)
    decreases |ds|
  {
    if ds != [] {
      var a := step(ds[0], retries);
      if a.outcome.RetryScheduled? {
        ChainSchedule(step, ds[1..], retries + 1);
        var rest := Chain(step, ds[1..], retries + 1);
        var runs := [a] + rest;
        assert Chain(step, ds, retries) == runs;
        forall k | 1 <= k < |runs| - 1
          ensures runs[k].outcome.RetryScheduled? && runs[k].outcome.countdown == BaseCountdown * Pow2(retries + k)
        {
          assert runs[k] == rest[k - 1];
          assert (retries + 1) + (k - 1) == retries + k;
        }
      }
    }
  }

  /** The retry budget bounds the chain: starting from counter `retries`,
      at most `4 - retries` deliveries run (at least one once the budget is
      spent), so a job is delivered at most four times. */
  lemma {:induction false} ChainBounded<V(!new)>(step: Step<V>, ds: seq<Delivery<V>>, retries: nat)
    requires BacksOff(step)
    ensures |Chain(step, ds, retries)| <= if retries <= MaxRetries then MaxRetries + 1 - retries else 1
    decreases |ds|
  {
    if ds != [] {
      var a := step(ds[0], retries);
      if a.outcome.RetryScheduled? {
        assert retries < MaxRetries;
        ChainBounded(step, ds[1..], retries + 1);
      }
    }
  }

  /** A job first delivered with counter 0 is delivered at most four times,
      and at most once per delivery on offer. */
  lemma DeliverBounded<V(!new)>(jobId: string, url: string, ds: seq<Delivery<V>>)
    ensures |Deliver(jobId, url, ds, 0)| <= MaxRetries + 1
    ensures |Deliver(jobId, url, ds, 0)| <= |ds|
  {
    AttemptBacksOff<V>(jobId, url);
    ChainBounded(AttemptStep<V>(jobId, url), ds, 0);
    ChainStops(AttemptStep<V>(jobId, url), ds, 0);
  }

  /** In the deliveries of a job first delivered with counter 0, delivery
      `k`, when another follows it, scheduled that retry after `60 * 2^k`
      seconds. */
  lemma DeliverSchedule<V(!new)>(jobId: string, url: string, ds: seq<Delivery<V>>)
    ensures forall k :: 0 <= k < |Deliver(jobId, url, ds, 0)| - 1 ==>
              && Deliver(jobId, url, ds, 0)[k].outcome.RetryScheduled?
              && Deliver(jobId, url, ds, 0)[k].outcome.countdown == BaseCountdown * Pow2(k)
  {
    AttemptBacksOff<V>(jobId, url);
    ChainSchedule(AttemptStep<V>(jobId, url), ds, 0);
  }

  /** The countdown each run scheduled, 0 for a run that scheduled none. */
  function Countdowns(runs: seq<AttemptRun>): seq<nat> {
    seq(|runs|, k requires 0 <= k < |runs| =>
      if runs[k].outcome.RetryScheduled? then runs[k].outcome.countdown else 0)
  }

  /** Between the first and the last delivery of a job, the retries were
      scheduled with countdowns adding up to `60 * (2^r - 1)` seconds for `r`
      retries, so at most 420 seconds. A countdown is the least delay before
      the next delivery, not an exact one. */
  lemma DeliverWaits<V(!new)>(jobId: string, url: string, ds: seq<Delivery<V>>)
    ensures var runs := Deliver(jobId, url, ds, 0);
            runs != [] ==> SumUpTo(Countdowns(runs), |runs| - 1) == BaseCountdown * (Pow2(|runs| - 1) - 1)
    ensures var runs := Deliver(jobId, url, ds, 0);
            runs != [] ==> SumUpTo(Countdowns(runs), |runs| - 1) <= 420
  {
    var runs := Deliver(jobId, url, ds, 0);
    if runs != [] {
      DeliverSchedule(jobId, url, ds);
      DeliverBounded(jobId, url, ds);
      ScheduleSum(Countdowns(runs), |runs| - 1);
      TotalBackoffClosedForm(|runs| - 1);
      assert Pow2(|runs| - 1) <= 8 by {
        assert Pow2(0) == 1 && Pow2(1) == 2 && Pow2(2) == 4 && Pow2(3) == 8;
      }
    }
  }

  /** The job's status is not monotone across deliveries: when a delivery
      fails and its "failed" write returns, and the retry's "processing"
      write returns, the row goes from "failed" back to "processing"; the
      retry may itself time out later, once that write is done. */
  lemma FailedThenProcessingAgain<V>(jobId: string, url: string, ds: seq<Delivery<V>>, k: nat, rec: JobRecord)
    requires k + 1 < |ds| && k + 1 < |Deliver(jobId, url, ds, 0)|
    requires ds[k].svc.uuid.Ok?
    requires AttemptError(ds[k].svc, jobId, url, ds[k].join).Some?
    requires ds[k].svc.markFailed(AttemptError(ds[k].svc, jobId, url, ds[k].join).value).Ok?
    requires ds[k + 1].svc.uuid.Ok? && ds[k + 1].svc.markProcessing.Ok?
    requires ds[k + 1].join.Joined? || ds[k + 1].join.progress > 0
    ensures var runs := Deliver(jobId, url, ds, 0);
            var afterFailure := ApplyAll(rec, runs[k].calls);
            && afterFailure.status == Failed
            && runs[k + 1].calls != []
            && ApplyAll(afterFailure, runs[k + 1].calls[..1]).status == Processing
  {
    ChainAt(AttemptStep(jobId, url), ds, 0, k);
    ChainAt(AttemptStep(jobId, url), ds, 0, k + 1);
    var runs := Deliver(jobId, url, ds, 0);
    assert runs[k] == Attempt(ds[k].svc, jobId, url, k, ds[k].join);
    assert runs[k + 1] == Attempt(ds[k + 1].svc, jobId, url, k + 1, ds[k + 1].join);
    FailedRow(ds[k].svc, jobId, url, k, ds[k].join, rec);
    ProcessingFirst(ds[k + 1].svc, jobId, url, k + 1, ds[k + 1].join);
    var afterFailure := ApplyAll(rec, runs[k].calls);
    ApplyAllLast(afterFailure, runs[k + 1].calls[..1]);
    assert runs[k + 1].calls[..1][..0] == [];
  }
}
