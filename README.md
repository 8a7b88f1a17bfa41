# Resilient detail fetches of the Rick and Morty pages, in Dafny

The episode page (`src/js/episodes.js`) and the location page
(`src/js/locations.js`) each carry the same resilience layer: a retry loop
`fetchWithRetry` and a circuit breaker from `createCircuitBreaker`. They
compose them in `getCharacterExample` (episodes) and `getResident`
(locations). The two copies are the same code, token for token; only the log
messages and the function names differ, and the line numbers are shifted
(see "Shared code" below). This project models that code once.

- `outcomes.dfy` (module `Outcomes`): the values that flow through the layer.
  These are a response (status and body), a `fetch` rejection (network
  error, or the abort fired by the per-attempt timeout), the result of one
  retry run, the errors an operation under the breaker can end with, and
  `Result` and `Option`.
- `retry.dfy` (module `Retry`): the default `retryOn` predicate, the capped
  exponential backoff `min(maxDelayMs, baseDelayMs * 2^attempt)`, and the
  jittered sleep `max(0, exp + j)`. It also has the specification functions
  `LastAttempt`, `AttemptCount` and `RetryResult` for one run, and the
  method `FetchWithRetry`. That method is the `for (attempt …)` loop with its
  early return and rethrow; it is proved equal to those functions.
  - The network is a function from the attempt index to that attempt's
    outcome.
  - The jitter offset is a function from the attempt index to an integer.
  - `sleep` is recorded as the list of durations it is asked for.
- `breaker.dfy` (module `Breaker`): `canRequest`, `onSuccess`, `onFailure`
  and one `exec` call as functions on a `State` value. They are `Admit`,
  `AfterSuccess`, `AfterFailure` and `Next`/`ExecStep`. The module also has
  the breaker's invariant and the lemmas about single calls and about runs of
  consecutive failures or successes. The class `CircuitBreaker` holds the
  four closure variables as fields and the three thresholds as constants.
  Its methods `CanRequest`, `OnSuccess`, `OnFailure` and `Exec` are proved
  to change the fields exactly as those functions say. `GetState` is a
  function, so it only reads.
- `detail.dfy` (module `Detail`): the composition. The operation `Load`
  runs the retry loop with `retries: 2`. It turns a non-ok final response
  into an error with its status and yields the body of an ok one. The
  method `GetDetail` calls it through `cb.exec` and maps every error to
  `null` (`None`). `DetailRun` follows a sequence of such requests, and is
  proved to move the breaker as `Run` does for the requests' final outcomes.

`Date.now()` is a parameter. `exec` reads the clock when it admits a call
(`startedAt`). `onFailure` reads it again once the operation has failed
(`settledAt`), which is after the whole retry sequence and its sleeps. So
`nextTryAt` counts from the failure. It does not count from the admission.

Where the code does something a reader might not expect of a retry and
breaker layer, the model follows the code:
- HALF_OPEN admits every call. There is no limit of one probe in flight
  (`AdmitsEveryCallUnlessOpen`).
- An exhausted retryable response (429/5xx on the last attempt) is returned
  as a response, not turned into an error. An exhausted or non-retryable
  error is rethrown unchanged. Nothing is normalised into a classified
  outcome inside the retry loop. The composition is what turns a non-ok
  response into an error.
- The jittered sleep may exceed `maxDelayMs` (`JitteredSleepMayExceedCap`).
- With a negative `retries` the loop body never runs and the function
  returns `undefined` (`NoReturn`). The caller then reads `.ok` of
  `undefined`, which throws (`NoResponse`).

## Model

| member | source | states |
|---|---|---|
| `Outcomes.Settle` | src/js/episodes.js:24-36 | one attempt's outcome as the loop hands it back: a response is returned, an error is thrown, and it is never "no return" |
| `Outcomes.IsOk` | src/js/episodes.js:162 | `response.ok`: a response is ok exactly when its status class (the hundreds digit) is 2 |
| `Retry.RetryOn` | src/js/episodes.js:14-17 | the default `retryOn`: every rejection is retried, and a retried response is never ok and always has a status of 400 or more |
| `Retry.RetryOnClassifies` | src/js/episodes.js:14-17 | the default `retryOn` retries every error and every 5xx, never an ok (2xx) response, among 4xx only 429 (so 200 and 404 are not retried), and no status below 400 or of 600 and above |
| `Retry.Pow2` | src/js/episodes.js:30 | `2 ** attempt` is at least 1 |
| `Retry.Pow2Monotone` | src/js/episodes.js:30 | `2 ** attempt` does not decrease as `attempt` grows |
| `Retry.Backoff` | src/js/episodes.js:30 | `Math.min(maxDelayMs, baseDelayMs * 2 ** attempt)`: the delay is at most the cap and at most the doubled base delay, and it is one of the two |
| `Retry.BackoffStaysCapped` | src/js/episodes.js:30 | once an attempt's delay before jitter has reached `maxDelayMs`, every later attempt waits exactly `maxDelayMs` |
| `Retry.BackoffNondecreasing` | src/js/episodes.js:30 | the delay before jitter does not decrease from one attempt to a later one |
| `Retry.BackoffReachesCap` | src/js/episodes.js:30 | with a positive base delay, every attempt from index `maxDelayMs` on waits exactly the cap |
| `Retry.Sleep` | src/js/episodes.js:31-32 | `Math.max(0, exp + j)`: the sleep is at least `exp + j`, and it is either 0 or exactly `exp + j` |
| `Retry.JitteredSleepBounds` | src/js/episodes.js:31-32 | with a jitter fraction in [0, 1] and an offset within it, the sleep is never clamped and lies within that fraction of the delay before jitter |
| `Retry.JitteredSleepMayExceedCap` | src/js/episodes.js:31-32 | with the default jitter 0.2 a capped delay of 2500 can sleep 3000, more than `maxDelayMs` |
| `Retry.LastAttempt` | src/js/episodes.js:20-42 | the loop stops at the first attempt whose outcome is not retryable, or at attempt `retries`; every earlier attempt was retryable |
| `Retry.AttemptCount` | src/js/episodes.js:20-42 | `fetch` is called between 1 and `retries + 1` times, and never when `retries` is negative |
| `Retry.RetryResult` | src/js/episodes.js:20-42 | a run ends in a return or a throw whenever `retries >= 0`; it falls off the loop only when `retries < 0` |
| `Retry.ExhaustsWhenEveryAttemptRetryable` | src/js/episodes.js:20-42 | if every attempt errors or returns 429/5xx, exactly `retries + 1` calls are made; the last response is returned as is, and the last error is rethrown unchanged |
| `Retry.NonRetryableEndsRun` | src/js/episodes.js:28-36 | a non-retryable outcome on attempt `k` ends the run at once with that outcome after `k + 1` calls; that no sleep follows it is `FetchWithRetry`'s `calls - 1` sleeps |
| `Retry.DefaultScheduleScenario` | src/js/episodes.js:9-11 | with the defaults and no jitter, 503, 503, 200 gives three calls and returns the 200; the sleeps are exactly 250 and then 500 ms |
| `Retry.DefaultScheduleRun` | src/js/episodes.js:7-43 | one run of the loop with the defaults, no jitter and the outcomes 503, 503, 200 makes three `fetch` calls, sleeps exactly 250 and then 500 ms, and returns the 200 |
| `Retry.FetchWithRetry` | src/js/episodes.js:7-43 | the loop's result and its number of `fetch` calls are those of `RetryResult` and `AttemptCount`. It sleeps once after each attempt but the last, each time after a retryable outcome. The sleep after attempt `k` has delay `Backoff(base, max, k)` before jitter and duration `max(0, delay + j_k)` |
| `Breaker.Admit` | src/js/episodes.js:58-68 | `canRequest`: a call is refused exactly when OPEN before `nextTryAt`; an admitted call never leaves the breaker OPEN; `failures` and `nextTryAt` are never touched |
| `Breaker.AfterSuccess` | src/js/episodes.js:70-81 | `onSuccess`: never opens or leaves OPEN and never moves `nextTryAt`; outside HALF_OPEN it clears `failures`; closing from HALF_OPEN clears both counters |
| `Breaker.AfterFailure` | src/js/episodes.js:83-97 | `onFailure` at time `now`: never ends in HALF_OPEN (a failure in HALF_OPEN always reopens); staying CLOSED means one more failure, still below the threshold; opening sets `nextTryAt = now + openStateMs`, and no other `nextTryAt` change is possible |
| `Breaker.Next` | src/js/episodes.js:101-115 | the state after one `exec` call: a refused call changes nothing; a successful call ends OPEN only when it was refused; a failed call that does not end OPEN was counted in CLOSED |
| `Breaker.ExecStep` | src/js/episodes.js:101-115 | one `exec` call: a success is always `fn`'s own value from an invoked call; an uninvoked call changes nothing and yields `CIRCUIT_OPEN`; ending in HALF_OPEN needs an invoked, successful `fn` |
| `Breaker.InitialInv` | src/js/episodes.js:53-56 | the initial variables (CLOSED, 0, 0, 0) satisfy the breaker invariant |
| `Breaker.TransitionsPreserveInv` | src/js/episodes.js:58-97 | `canRequest`, `onSuccess`, `onFailure` and a whole `exec` call keep the invariant: counters never negative, `successes == 0` outside HALF_OPEN, CLOSED and HALF_OPEN below their thresholds |
| `Breaker.InvBounds` | src/js/episodes.js:58-97 | with positive thresholds, in CLOSED `failures < failureThreshold`, in HALF_OPEN `successes < successThreshold`, and `successes == 0` whenever the state is not HALF_OPEN |
| `Breaker.ExecRejectsOnlyWhileOpen` | src/js/episodes.js:101-115 | `exec` fails fast exactly when OPEN and `now < nextTryAt`. Then `fn` is not invoked, the error is `CIRCUIT_OPEN` and no variable changes. Otherwise `fn` runs once and its value or error is propagated unchanged |
| `Breaker.AdmitsEveryCallUnlessOpen` | src/js/episodes.js:58-68 | CLOSED and HALF_OPEN admit every call and change nothing, so HALF_OPEN has no limit on probes |
| `Breaker.OpenAdmitsProbeWhenDue` | src/js/episodes.js:58-68 | at or after `nextTryAt` an OPEN breaker moves to HALF_OPEN with `successes = 0` before `fn` runs, and the call's outcome is counted in HALF_OPEN |
| `Breaker.SuccessResetsFailures` | src/js/episodes.js:70-81 | a success outside HALF_OPEN sets `failures` to 0 and changes nothing else |
| `Breaker.HalfOpenFailureReopens` | src/js/episodes.js:83-90 | one failure in HALF_OPEN reopens the breaker with both counters 0 and `nextTryAt = now + openStateMs` |
| `Breaker.FailuresOpenAtThreshold` | src/js/episodes.js:92-96 | in CLOSED each consecutive failed call adds one to `failures`. The breaker stays CLOSED until the `failureThreshold`-th failure, which opens it with `nextTryAt` = that failure's time + `openStateMs` |
| `Breaker.SuccessesCloseAtThreshold` | src/js/episodes.js:71-77 | in HALF_OPEN each consecutive success adds one to `successes`; the `successThreshold`-th closes the breaker with both counters 0 |
| `Breaker.DefaultBreakerScenario` | src/js/episodes.js:119-123 | with the page settings (4, 2, 10000), four failed calls open a fresh breaker, and any call made less than 10000 ms after the fourth failure is rejected with `CIRCUIT_OPEN` without invoking `fn` |
| `Breaker.CircuitBreaker.constructor` | src/js/episodes.js:46-56 | a new breaker keeps its three thresholds and starts CLOSED with both counters 0 and `nextTryAt = 0`, satisfying the invariant |
| `Breaker.CircuitBreaker.GetState` | src/js/episodes.js:100 | reports the current mode; as a function it reads the breaker and cannot change it |
| `Breaker.CircuitBreaker.CanRequest` | src/js/episodes.js:58-68 | the fields after the call and the answer are those `Admit` gives for the fields before; the invariant is kept |
| `Breaker.CircuitBreaker.OnSuccess` | src/js/episodes.js:70-81 | the fields move as `AfterSuccess` says; the invariant is kept |
| `Breaker.CircuitBreaker.OnFailure` | src/js/episodes.js:83-97 | the fields move as `AfterFailure` says at time `now`; the invariant is kept |
| `Breaker.CircuitBreaker.Exec` | src/js/episodes.js:101-115 | the fields, the result and whether `fn` was invoked are those of `ExecStep`, so all the lemmas above apply to the object |
| `Detail.Load` | src/js/episodes.js:156-169 | the operation under the breaker succeeds exactly when the retry loop returns an ok response, with that response's body; it never fails with `CIRCUIT_OPEN` |
| `Detail.DetailStep` | src/js/episodes.js:154-181 | one call of the fetcher: the breaker moves as one `exec` call whose success is `Load`'s; the page gets a value only when `Load` succeeded with it; at most three `fetch` calls |
| `Detail.NullUnlessOk` | src/js/episodes.js:154-181 | the page gets the body exactly when the breaker admitted the call and the retry loop ended with an ok response. Every other path gives `null`: `CIRCUIT_OPEN`, a rethrown error, or a non-ok response |
| `Detail.RejectedCallMakesNoFetch` | src/js/episodes.js:156-176 | a rejected call makes no `fetch`, leaves the breaker unchanged and gives `null`; an admitted one makes one to three `fetch` calls |
| `Detail.WholeRetrySequenceCountsOnce` | src/js/episodes.js:156-169 | the breaker sees one event per logical call, whatever the number of attempts: one success if the final response is ok, otherwise one failure |
| `Detail.FailuresGrowByAtMostOne` | src/js/episodes.js:156-169 | one logical call raises the breaker's failure count by at most one |
| `Detail.NotFoundIsOneFailure` | src/js/episodes.js:157-166 | a 404 on the first attempt is not retried: one `fetch`, the error carries status 404, one breaker failure, and `null` |
| `Detail.ExhaustedServerErrorIsOneFailure` | src/js/episodes.js:157-166 | three 5xx responses make three `fetch` calls. The last response comes back from the loop and becomes an error with its status, which counts as one breaker failure, and the page gets `null` |
| `Detail.AsCalls` | src/js/episodes.js:156-169 | the breaker sees exactly one call per logical request, with that request's times and whether its whole retry sequence ended with an ok response |
| `Detail.DetailRunIsBreakerRun` | src/js/episodes.js:156-169 | a sequence of logical requests moves the breaker exactly as the same number of `exec` calls with their final outcomes, so the attempts inside a request are invisible to it |
| `Detail.FailedRequestsOpenPageBreaker` | src/js/episodes.js:119-123 | with the page settings, four requests in a row that each end without an ok response (in any mix of 404, exhausted 5xx and rethrown errors) open a fresh breaker until 10000 ms after the fourth settled |
| `Detail.GetDetail` | src/js/episodes.js:154-181 | the breaker's new fields, the value returned to the page and the number of `fetch` calls are those of `DetailStep`; the breaker invariant is kept |

## Shared code

Every row above cites `src/js/episodes.js`. The same lines exist in
`src/js/locations.js`, one line earlier in the retry loop and the breaker:

| episodes.js | locations.js | code |
|---|---|---|
| 7-43 | 6-42 | `fetchWithRetry` |
| 14-17 | 13-16 | default `retryOn` |
| 30-32, 38-40 | 29-31, 37-39 | backoff and jittered sleep |
| 46-117 | 45-116 | `createCircuitBreaker` |
| 119-123 | 118-122 | the page breaker `cb` |
| 154-181 | 147-174 | `getCharacterExample` / `getResident` (seven lines earlier) |

## Left out

- Real I/O is left out:
  - `fetch` and its `options`: the URL does not affect the model, and the network is an input function from attempt to outcome.
  - The timeout built from `AbortController`, `setTimeout` and `clearTimeout`: a timed-out attempt is simply an `Aborted` outcome.
  - `sleep`: the requested durations are recorded instead.
  - `Date.now()`: it is a parameter.
  - `console` output.
- `Math.random` and floating-point arithmetic: all durations are integers. The jitter offset is an integer per attempt; `WithinJitter` states the bound `|j| <= exp * jitter` with the fraction written `num / den`.
- `response.json()`: the parsed data is stood for by the body text, and a body that fails to parse is not modelled.
- JavaScript numbers that are not integers (a fractional `retries` or threshold) and delay settings that are negative are not modelled. `retries` is any integer, and delays are natural numbers.
- A caller-supplied `retryOn` is a total, side-effect-free predicate; one that throws is not modelled.
- Concurrent `exec` calls interleaving at `await` points are not modelled: calls are sequential. The source has no guard for concurrent calls, and no single-probe limit in HALF_OPEN.
- `Detail.GetDetail`: the number of `fetch` calls is computed from `Retry.AttemptCount`, not by running `Retry.FetchWithRetry` inside the operation, because the operation handed to `Exec` is a pure function value. `FetchWithRetry` is proved to make exactly that many calls.
- `src/js/characters.js` is not part of this model; it is a single `fetch` plus card rendering.
- `getEpisodes`, `getLocations` and the `nextPageUrl` cursor are not part of this model (page fetching and JSON plumbing). Nor are `showEpisodes`, `showLocations` and the `nextPage` click handlers, which are rendering and event wiring.
