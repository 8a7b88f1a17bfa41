/** Values exchanged between the network, the retry loop, the circuit
    breaker and the detail fetchers of the episode and location pages. */
module Outcomes {

  /** An HTTP response as `fetch` resolves it: its status code and its body
      text (the body stands in for what `response.json()` would parse). */
  datatype Response = Response(status: int, body: string)

  /** How a single `fetch` call can reject: a transport failure, or the
      abort that the per-attempt timeout triggers. */
  datatype FetchError = NetworkError | Aborted

  /** What the network yields for one attempt. */
  datatype Outcome = Received(response: Response) | Thrown(error: FetchError)

  /** How one run of the retry loop ends: it returns a response, rethrows an
      error, or (when the loop body never runs) falls off the end of the
      function, which in JavaScript returns `undefined`. */
  datatype FetchResult = Returned(response: Response) | Threw(error: FetchError) | NoReturn

  /** Every error an operation wrapped by the circuit breaker can end with. */
  datatype Error =
    | FetchFailed(cause: FetchError)   // rethrown by the retry loop
    | HttpStatus(code: int)            // the final response was not ok
    | NoResponse                       // `response.ok` read on `undefined`
    | CircuitOpen                      // synthesised by the breaker itself

  datatype Result<T> = Success(value: T) | Failure(error: Error)

  datatype Option<T> = None | Some(value: T)

  /** `response.ok`: the status is in the range 200-299, that is, its
      status class (the hundreds digit) is 2. */
  predicate IsOk(r: Response): (ok: bool)
    ensures ok <==> r.status / 100 == 2
  {
    200 <= r.status <= 299
  }

  /** The fetch result as the retry loop hands it back for one attempt. */
  function Settle(o: Outcome): (r: FetchResult)
    ensures r != NoReturn
    ensures o.Received? <==> r.Returned?
  {
    match o
    case Received(res) => Returned(res)
    case Thrown(e) => Threw(e)
  }
}
