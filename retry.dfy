/** The retry loop `fetchWithRetry` shared by the episode and location pages:
    up to `retries + 1` attempts, a predicate that classifies each attempt's
    outcome as retryable, and a capped exponential backoff with jitter
    between attempts.

    The network is a function from the attempt index to that attempt's
    outcome (a timeout is an `Aborted` rejection); the random jitter offset
    is a function from the attempt index to an integer; `sleep` is recorded
    as the list of durations it is asked for. */
module Retry {
  import opened Outcomes

  /** Defaults of the configuration object. */
  const DefaultRetries := 2
  const DefaultBaseDelayMs := 250
  const DefaultMaxDelayMs := 2500

  /** The default `retryOn`: every rejection is retryable; a response is
      retryable when its status is 429 or a 5xx. */
  predicate RetryOn(o: Outcome): (retry: bool)
    ensures o.Thrown? ==> retry
    ensures retry && o.Received? ==> !IsOk(o.response) && o.response.status >= 400
  {
    match o
    case Thrown(_) => true
    case Received(res) => res.status == 429 || (500 <= res.status <= 599)
  }

  /** What the default predicate means by status class: errors are
      retried, an ok response never is, among client errors only 429 is,
      every server error is, and no status below 400 or from 600 on is. */
  lemma RetryOnClassifies(o: Outcome)
    ensures o.Thrown? ==> RetryOn(o)
    ensures o.Received? && IsOk(o.response) ==> !RetryOn(o)
    ensures o.Received? && o.response.status < 400 ==> !RetryOn(o)
    ensures o.Received? && 400 <= o.response.status <= 499 ==> (RetryOn(o) <==> o.response.status == 429)
    ensures o.Received? && 500 <= o.response.status <= 599 ==> RetryOn(o)
    ensures o.Received? && o.response.status >= 600 ==> !RetryOn(o)
  {
  }

  // ---------------------------------------------------------------------
  // Backoff

  function Pow2(k: nat): (p: nat)
    ensures p >= 1
  {
    if k == 0 then 1 else 2 * Pow2(k - 1)
  }

  lemma {:induction false} Pow2Monotone(i: nat, j: nat)
    requires i <= j
    ensures Pow2(i) <= Pow2(j)
    decreases j - i
  {
    if i < j {
      Pow2Monotone(i + 1, j);
    }
  }

  lemma {:induction false} Pow2Exceeds(k: nat)
    ensures Pow2(k) > k
  {
    if k > 0 {
      Pow2Exceeds(k - 1);
    }
  }

  /** `Math.min(maxDelayMs, baseDelayMs * 2 ** attempt)`: the delay before
      jitter that follows a retryable outcome of attempt `attempt`. */
  function Backoff(baseDelayMs: nat, maxDelayMs: nat, attempt: nat): (d: nat)
    ensures d <= maxDelayMs && d <= baseDelayMs * Pow2(attempt)
    ensures d == maxDelayMs || d == baseDelayMs * Pow2(attempt)
  {
    var exp := baseDelayMs * Pow2(attempt);
    if exp < maxDelayMs then exp else maxDelayMs
  }

  /** Once an attempt's delay before jitter has reached the cap, every later
      attempt waits exactly the cap. */
  lemma BackoffStaysCapped(baseDelayMs: nat, maxDelayMs: nat, i: nat, j: nat)
    requires i <= j && Backoff(baseDelayMs, maxDelayMs, i) == maxDelayMs
    ensures Backoff(baseDelayMs, maxDelayMs, j) == maxDelayMs
  {
    BackoffNondecreasing(baseDelayMs, maxDelayMs, i, j);
  }

  lemma BackoffNondecreasing(baseDelayMs: nat, maxDelayMs: nat, i: nat, j: nat)
    requires i <= j
    ensures Backoff(baseDelayMs, maxDelayMs, i) <= Backoff(baseDelayMs, maxDelayMs, j)
  {
    Pow2Monotone(i, j);
    MulMonotone(baseDelayMs, Pow2(i), Pow2(j));
  }

  lemma MulMonotone(a: nat, x: nat, y: nat)
    requires x <= y
    ensures a * x <= a * y
  {
    assert a * y == a * x + a * (y - x);
  }

  /** With a positive base delay, every attempt from index `maxDelayMs` on
      waits exactly the cap. */
  lemma BackoffReachesCap(baseDelayMs: nat, maxDelayMs: nat, attempt: nat)
    requires baseDelayMs >= 1 && attempt >= maxDelayMs
    ensures Backoff(baseDelayMs, maxDelayMs, attempt) == maxDelayMs
  {
    Pow2Exceeds(attempt);
    MulMonotone(Pow2(attempt), 1, baseDelayMs);
  }

  // ---------------------------------------------------------------------
  // Jitter

  /** `Math.max(0, exp + j)`: the duration handed to `sleep`. */
  function Sleep(exp: nat, j: int): (d: nat)
    ensures d >= exp + j
    ensures d == 0 || d == exp + j
  {
    if exp + j < 0 then 0 else exp + j
  }

  /** The source draws `j = exp * jitter * (2r - 1)` with `r` in [0, 1), so
      `|j| <= exp * jitter`; here the jitter fraction is `num / den`. */
  predicate WithinJitter(j: int, exp: nat, num: nat, den: nat) {
    -(exp * num) <= j * den <= exp * num
  }

  /** For a jitter fraction in [0, 1] the clamp at zero never triggers and
      the sleep lies within the fraction of the delay before jitter. */
  lemma JitteredSleepBounds(exp: nat, j: int, num: nat, den: nat)
    requires 0 < den && num <= den
    requires WithinJitter(j, exp, num, den)
    ensures Sleep(exp, j) == exp + j
    ensures exp * (den - num) <= Sleep(exp, j) * den <= exp * (den + num)
  {
    MulMonotone(exp, num, den);
    assert (exp + j) * den == exp * den + j * den;
    assert exp * (den - num) == exp * den - exp * num;
    assert exp * (den + num) == exp * den + exp * num;
  }

  /** The jittered sleep can exceed `maxDelayMs`: with the defaults
      (jitter 0.2), attempt 4 is already capped at 2500 and may sleep 3000. */
  lemma JitteredSleepMayExceedCap()
    ensures WithinJitter(500, Backoff(DefaultBaseDelayMs, DefaultMaxDelayMs, 4), 1, 5)
    ensures Sleep(Backoff(DefaultBaseDelayMs, DefaultMaxDelayMs, 4), 500) > DefaultMaxDelayMs
  {
    assert Pow2(4) == 16;
  }

  // ---------------------------------------------------------------------
  // The retry loop

  /** The attempt at which the loop stops when it reaches attempt `k`: the
      first attempt from `k` on whose outcome is not retryable, or the last
      attempt `retries`, whichever comes first. */
  function LastAttempt(network: nat -> Outcome, retryOn: Outcome -> bool, retries: nat, k: nat): (s: nat)
    requires k <= retries
    ensures k <= s <= retries
    ensures s == retries || !retryOn(network(s))
    ensures forall i :: k <= i < s ==> retryOn(network(i))
    decreases retries - k
  {
    if !retryOn(network(k)) || k == retries then k
    else LastAttempt(network, retryOn, retries, k + 1)
  }

  /** The number of `fetch` calls one run makes. */
  function AttemptCount(network: nat -> Outcome, retryOn: Outcome -> bool, retries: int): (n: nat)
    ensures retries < 0 ==> n == 0
    ensures retries >= 0 ==> 1 <= n <= retries + 1
  {
    if retries < 0 then 0 else LastAttempt(network, retryOn, retries, 0) + 1
  }

  /** How one run ends: the outcome of its last attempt, returned when it is
      a response and rethrown unchanged when it is an error. */
  function RetryResult(network: nat -> Outcome, retryOn: Outcome -> bool, retries: int): (r: FetchResult)
    ensures r == NoReturn <==> retries < 0
  {
    if retries < 0 then NoReturn
    else Settle(network(LastAttempt(network, retryOn, retries, 0)))
  }

  /** When every attempt is retryable all `retries + 1` attempts run and the
      last outcome is the result: an exhausted 429/5xx is returned as a
      response, an exhausted error is rethrown. */
  lemma ExhaustsWhenEveryAttemptRetryable(network: nat -> Outcome, retryOn: Outcome -> bool, retries: nat)
    requires forall i :: 0 <= i <= retries ==> retryOn(network(i))
    ensures AttemptCount(network, retryOn, retries) == retries + 1
    ensures RetryResult(network, retryOn, retries) == Settle(network(retries))
    ensures network(retries).Received? ==>
              RetryResult(network, retryOn, retries) == Returned(network(retries).response)
    ensures network(retries).Thrown? ==>
              RetryResult(network, retryOn, retries) == Threw(network(retries).error)
  {
  }

  /** A non-retryable outcome on attempt `k`, after `k` retryable ones, ends
      the run at once with that outcome after `k + 1` calls. That no sleep
      follows it comes from `FetchWithRetry`, which sleeps `calls - 1` times. */
  lemma NonRetryableEndsRun(network: nat -> Outcome, retryOn: Outcome -> bool, retries: nat, k: nat)
    requires k <= retries
    requires forall i :: 0 <= i < k ==> retryOn(network(i))
    requires !retryOn(network(k))
    ensures AttemptCount(network, retryOn, retries) == k + 1
    ensures RetryResult(network, retryOn, retries) == Settle(network(k))
  {
  }

  /** Two 503 responses and then a 200. */
  function ServerErrorsThenOk(k: nat): Outcome {
    if k < 2 then Received(Response(503, "")) else Received(Response(200, "{}"))
  }

  /** With the defaults and no jitter: three calls, the 200 is returned, and
      the sleeps between them are exactly 250 and then 500 ms. */
  lemma DefaultScheduleScenario()
    ensures AttemptCount(ServerErrorsThenOk, RetryOn, DefaultRetries) == 3
    ensures RetryResult(ServerErrorsThenOk, RetryOn, DefaultRetries) == Returned(Response(200, "{}"))
    ensures Sleep(Backoff(DefaultBaseDelayMs, DefaultMaxDelayMs, 0), 0) == 250
    ensures Sleep(Backoff(DefaultBaseDelayMs, DefaultMaxDelayMs, 1), 0) == 500
  {
    assert LastAttempt(ServerErrorsThenOk, RetryOn, 2, 2) == 2;
    assert Pow2(1) == 2;
  }

  /** The same scenario as one run of the loop `FetchWithRetry`. */
  method DefaultScheduleRun() returns (result: FetchResult, calls: nat, sleeps: seq<nat>)
    ensures calls == 3 && sleeps == [250, 500]
    ensures result == Returned(Response(200, "{}"))
  {
    DefaultScheduleScenario();
    var delays;
    result, calls, delays, sleeps :=
      FetchWithRetry(ServerErrorsThenOk, RetryOn, DefaultRetries, DefaultBaseDelayMs, DefaultMaxDelayMs, k => 0);
  }

  /** `fetchWithRetry`: one `fetch` per attempt, each outcome classified by
      `retryOn`; returns or rethrows on the first non-retryable outcome or on
      the last attempt, and otherwise sleeps the jittered backoff. Besides the
      result it reports the number of `fetch` calls, the delays before jitter
      and the durations passed to `sleep`. */
  method FetchWithRetry(network: nat -> Outcome, retryOn: Outcome -> bool, retries: int,
                        baseDelayMs: nat, maxDelayMs: nat, jitter: nat -> int)
    returns (result: FetchResult, calls: nat, delays: seq<nat>, sleeps: seq<nat>)
    ensures result == RetryResult(network, retryOn, retries)
    ensures calls == AttemptCount(network, retryOn, retries)
    ensures |delays| == |sleeps| == (if calls == 0 then 0 else calls - 1)
    ensures forall k :: 0 <= k < |delays| ==> retryOn(network(k))
    ensures forall k :: 0 <= k < |delays| ==> delays[k] == Backoff(baseDelayMs, maxDelayMs, k)
    ensures forall k :: 0 <= k < |sleeps| ==> sleeps[k] == Sleep(delays[k], jitter(k))
  {
    result, calls, delays, sleeps := NoReturn, 0, [], [];
    var attempt: int := 0;
    while attempt <= retries
      invariant 0 <= attempt && (retries >= 0 ==> attempt <= retries) && (retries < 0 ==> attempt == 0)
      invariant calls == attempt && |delays| == attempt && |sleeps| == attempt
      invariant forall k :: 0 <= k < attempt ==> retryOn(network(k))
      invariant forall k :: 0 <= k < attempt ==> delays[k] == Backoff(baseDelayMs, maxDelayMs, k)
      invariant forall k :: 0 <= k < attempt ==> sleeps[k] == Sleep(delays[k], jitter(k))
      invariant retries >= 0 ==>
                  LastAttempt(network, retryOn, retries, attempt) == LastAttempt(network, retryOn, retries, 0)
      decreases retries - attempt
    {
      var outcome := network(attempt);
      calls := calls + 1;
      match outcome {
        case Received(res) =>
          if !retryOn(outcome) || attempt == retries {
            result := Returned(res);
            return;
          }
        case Thrown(err) =>
          if !retryOn(outcome) || attempt == retries {
            result := Threw(err);
            return;
          }
      }
      var exp := Backoff(baseDelayMs, maxDelayMs, attempt);
      delays := delays + [exp];
      sleeps := sleeps + [Sleep(exp, jitter(attempt))];
      attempt := attempt + 1;
    }
  }
}
