/** The detail fetchers `getCharacterExample` (episode page) and
    `getResident` (location page): one breaker call per logical request,
    whose operation runs the whole retry loop, turns a final non-ok response
    into an error, and yields the body of an ok one; every error, including
    the breaker's own `CIRCUIT_OPEN`, ends as `null`. */
module Detail {
  import opened Outcomes
  import Retry
  import opened Breaker

  /** The retry count both fetchers pass; the delays are the defaults. */
  const Retries := 2

  /** The operation handed to `cb.exec`. */
  function Load(network: nat -> Outcome): (r: Result<string>)
    ensures var f := Retry.RetryResult(network, Retry.RetryOn, Retries);
      && (r.Success? <==> f.Returned? && IsOk(f.response))
      && (r.Success? ==> r.value == f.response.body)
      && (r.Failure? ==> r.error != CircuitOpen)
  {
    match Retry.RetryResult(network, Retry.RetryOn, Retries)
    case Returned(res) => if IsOk(res) then Success(res.body) else Failure(HttpStatus(res.status))
    case Threw(e) => Failure(FetchFailed(e))
    case NoReturn => Failure(NoResponse)
  }

  /** What one call of the fetcher does: the breaker's new state, the value
      returned to the page (`None` for `null`), and the number of `fetch`
      calls made. */
  datatype Lookup = Lookup(next: State, data: Option<string>, fetches: nat)

  function DetailStep(c: Config, s: State, startedAt: int, settledAt: int, network: nat -> Outcome): (d: Lookup)
    ensures d.next == Next(c, s, startedAt, settledAt, Load(network).Success?)
    ensures d.data.Some? ==> Load(network) == Success(d.data.value)
    ensures d.fetches <= Retries + 1
  {
    var st := ExecStep(c, s, startedAt, settledAt, Load(network));
    Lookup(st.next,
           if st.result.Success? then Some(st.result.value) else None,
           if st.invoked then Retry.AttemptCount(network, Retry.RetryOn, Retries) else 0)
  }

  /** The page's result is the body exactly when the breaker admitted the
      call and the retry loop ended with an ok response; every error path
      yields `null`. */
  lemma NullUnlessOk(c: Config, s: State, startedAt: int, settledAt: int, network: nat -> Outcome)
    ensures var d := DetailStep(c, s, startedAt, settledAt, network);
            var r := Retry.RetryResult(network, Retry.RetryOn, Retries);
      && (d.data.Some? <==> Admit(s, startedAt).allowed && r.Returned? && IsOk(r.response))
      && (d.data.Some? ==> d.data.value == r.response.body)
  {
  }

  /** A rejected call makes no `fetch` at all and leaves the breaker as it
      was; an admitted one makes one to three. */
  lemma RejectedCallMakesNoFetch(c: Config, s: State, startedAt: int, settledAt: int, network: nat -> Outcome)
    ensures var d := DetailStep(c, s, startedAt, settledAt, network);
      && (!Admit(s, startedAt).allowed ==> d.fetches == 0 && d.next == s && d.data == None)
      && (Admit(s, startedAt).allowed ==> 1 <= d.fetches <= Retries + 1)
  {
  }

  /** The breaker sees the whole retry sequence as one event: an admitted
      call counts as a single success when the final response is ok and as
      a single failure otherwise (an error, or a non-ok response such as a
      404 or an exhausted 5xx), however many attempts it took. */
  lemma WholeRetrySequenceCountsOnce(c: Config, s: State, startedAt: int, settledAt: int, network: nat -> Outcome)
    requires Admit(s, startedAt).allowed
    ensures var d := DetailStep(c, s, startedAt, settledAt, network);
            var r := Retry.RetryResult(network, Retry.RetryOn, Retries);
      d.next == if r.Returned? && IsOk(r.response) then AfterSuccess(c, Admit(s, startedAt).next)
                else AfterFailure(c, Admit(s, startedAt).next, settledAt)
  {
  }

  /** So a call moves `failures` up by at most one. */
  lemma FailuresGrowByAtMostOne(c: Config, s: State, startedAt: int, settledAt: int, network: nat -> Outcome)
    requires Inv(c, s)
    ensures DetailStep(c, s, startedAt, settledAt, network).next.failures <= s.failures + 1
  {
  }

  /** A 404 is not retried: one `fetch`, and one breaker failure. */
  lemma NotFoundIsOneFailure(c: Config, s: State, startedAt: int, settledAt: int, network: nat -> Outcome)
    requires Admit(s, startedAt).allowed
    requires network(0).Received? && network(0).response.status == 404
    ensures Load(network) == Failure(HttpStatus(404))
    ensures DetailStep(c, s, startedAt, settledAt, network) ==
              Lookup(AfterFailure(c, Admit(s, startedAt).next, settledAt), None, 1)
  {
    Retry.NonRetryableEndsRun(network, Retry.RetryOn, Retries, 0);
  }

  /** Three 5xx responses in a row: three `fetch` calls, the last response
      comes back from the retry loop and is turned into one breaker failure. */
  lemma ExhaustedServerErrorIsOneFailure(c: Config, s: State, startedAt: int, settledAt: int, network: nat -> Outcome)
    requires Admit(s, startedAt).allowed
    requires forall i :: 0 <= i <= Retries ==>
               network(i).Received? && 500 <= network(i).response.status <= 599
    ensures Load(network) == Failure(HttpStatus(network(Retries).response.status))
    ensures DetailStep(c, s, startedAt, settledAt, network) ==
              Lookup(AfterFailure(c, Admit(s, startedAt).next, settledAt), None, 3)
  {
    Retry.ExhaustsWhenEveryAttemptRetryable(network, Retry.RetryOn, Retries);
  }

  /** One logical request: when it starts, when its operation settles, and
      what the network yields for each of its attempts. */
  datatype Request = Request(startedAt: int, settledAt: int, network: nat -> Outcome)

  /** The breaker's state after a sequence of logical requests. */
  function DetailRun(c: Config, s: State, reqs: seq<Request>): State
    decreases |reqs|
  {
    if reqs == [] then s
    else DetailRun(c, DetailStep(c, s, reqs[0].startedAt, reqs[0].settledAt, reqs[0].network).next, reqs[1..])
  }

  /** Whether the request's operation succeeds if it runs: the whole retry
      sequence ended with an ok response. */
  predicate EndsOk(r: Request) {
    Load(r.network).Success?
  }

  /** What the breaker sees of each request: its times and its outcome. */
  function AsCalls(reqs: seq<Request>): (calls: seq<Call>)
    ensures |calls| == |reqs|
    ensures forall i :: 0 <= i < |reqs| ==>
              calls[i] == Call(reqs[i].startedAt, reqs[i].settledAt, EndsOk(reqs[i]))
  {
    if reqs == [] then []
    else [Call(reqs[0].startedAt, reqs[0].settledAt, EndsOk(reqs[0]))] + AsCalls(reqs[1..])
  }

  /** A sequence of logical requests moves the breaker exactly as the same
      number of `exec` calls with their final outcomes would: attempts
      inside a request are invisible to it. */
  lemma {:induction false} DetailRunIsBreakerRun(c: Config, s: State, reqs: seq<Request>)
    ensures DetailRun(c, s, reqs) == Run(c, s, AsCalls(reqs))
    decreases |reqs|
  {
    if reqs != [] {
      assert AsCalls(reqs)[1..] == AsCalls(reqs[1..]);
      DetailRunIsBreakerRun(c, DetailStep(c, s, reqs[0].startedAt, reqs[0].settledAt, reqs[0].network).next, reqs[1..]);
    }
  }

  /** With the page settings, four requests in a row that each end without
      an ok response (a 404, an exhausted 5xx, a rethrown error, in any mix)
      open a fresh breaker until 10000 ms after the fourth one settled;
      until then `RejectedCallMakesNoFetch` applies to every request. */
  lemma FailedRequestsOpenPageBreaker(reqs: seq<Request>)
    requires |reqs| == 4 && forall i :: 0 <= i < 4 ==> !EndsOk(reqs[i])
    ensures DetailRun(Defaults, Initial, reqs) == State(Open, 4, 0, reqs[3].settledAt + 10000)
  {
    DetailRunIsBreakerRun(Defaults, Initial, reqs);
    FailuresOpenAtThreshold(Defaults, Initial, AsCalls(reqs));
  }

  /** `getCharacterExample(url)` / `getResident(url)` against the page's
      breaker `cb`; `network` gives the outcome of each attempt. */
  method GetDetail(cb: CircuitBreaker, startedAt: int, settledAt: int, network: nat -> Outcome)
    returns (data: Option<string>, fetches: nat)
    requires cb.Valid()
    modifies cb
    ensures cb.Valid()
    ensures Lookup(cb.Snapshot(), data, fetches) ==
              DetailStep(cb.Settings(), old(cb.Snapshot()), startedAt, settledAt, network)
  {
    var r, invoked := cb.Exec(startedAt, settledAt, () => Load(network));
    fetches := if invoked then Retry.AttemptCount(network, Retry.RetryOn, Retries) else 0;
    data := if r.Success? then Some(r.value) else None;
  }
}
