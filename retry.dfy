/** The retry decision taken after a failed attempt: the task is declared
    with `max_retries=3` and schedules a retry after `60 * 2 ** retries`
    seconds while the budget lasts. */
module Retry {

  /** `max_retries` of the task declaration. */
  const MaxRetries: nat := 3

  /** The backoff of the first retry, in seconds. */
  const BaseCountdown: nat := 60

  function Pow2(n: nat): nat {
    if n == 0 then 1 else 2 * Pow2(n - 1)
  }

  /** What the failure handler does once the failure has been recorded:
      schedule another delivery after `countdown` seconds, or re-raise. */
  datatype Decision = RetryAfter(countdown: nat) | GiveUp

  /** The decision after a failed delivery whose counter is `retries`: a
      retry while the budget lasts, after the countdown of that retry. */
  function Decide(retries: nat): (r: Decision)
    ensures r.RetryAfter? <==> retries < MaxRetries
    ensures r.RetryAfter? ==> r.countdown == Countdown(retries)
  {
    if retries < MaxRetries then RetryAfter(BaseCountdown * Pow2(retries)) else GiveUp
  }

  /** The countdowns of the three retries are 60, 120 and 240 seconds, each
      double the previous one. */
  lemma {:induction false} DecideSchedule(retries: nat)
    ensures Decide(0) == RetryAfter(60) && Decide(1) == RetryAfter(120) && Decide(2) == RetryAfter(240)
    ensures retries + 1 < MaxRetries ==>
              Decide(retries + 1).countdown == 2 * Decide(retries).countdown
  {
  }

  /** The countdown of retry number `n`, counted from 0. */
  function Countdown(n: nat): nat {
    BaseCountdown * Pow2(n)
  }

  /** Sum of the countdowns of the first `n` retries. */
  function TotalBackoff(n: nat): nat {
    if n == 0 then 0 else TotalBackoff(n - 1) + Countdown(n - 1)
  }

  /** The backoffs form a geometric series: the countdowns of the first `n`
      retries add up to `60 * (2^n - 1)` seconds. */
  lemma {:induction false} TotalBackoffClosedForm(n: nat)
    ensures TotalBackoff(n) == BaseCountdown * (Pow2(n) - 1)
  {
    if n > 0 {
      TotalBackoffClosedForm(n - 1);
    }
  }

  /** The first `n` of a list of countdowns, added up. */
  function SumUpTo(cs: seq<nat>, n: nat): nat
    requires n <= |cs|
  {
    if n == 0 then 0 else SumUpTo(cs, n - 1) + cs[n - 1]
  }

  /** Countdowns that follow the doubling schedule add up to the total
      backoff. */
  lemma {:induction false} ScheduleSum(cs: seq<nat>, n: nat)
    requires n <= |cs|
    requires forall k :: 0 <= k < n ==> cs[k] == Countdown(k)
    ensures SumUpTo(cs, n) == TotalBackoff(n)
  {
    if n > 0 {
      ScheduleSum(cs, n - 1);
    }
  }
}
