/** The circuit breaker `createCircuitBreaker` shared by the episode and
    location pages: a CLOSED / OPEN / HALF_OPEN machine over four mutable
    variables (`state`, `failures`, `successes`, `nextTryAt`).

    The transitions are first given as functions on a `State` value
    (`Admit` is `canRequest`, `AfterSuccess` is `onSuccess`, `AfterFailure`
    is `onFailure`, `ExecStep` is one call of `exec`), and the properties of
    the machine are proved about them; the class `CircuitBreaker` keeps the
    four variables as fields and its methods are proved to move them exactly
    as those functions say. `Date.now()` is a parameter: `exec` reads it once
    when admitting the call (`startedAt`) and `onFailure` reads it again once
    the operation has settled (`settledAt`). */
module Breaker {
  import opened Outcomes

  datatype Mode = Closed | Open | HalfOpen

  /** The three settings of `createCircuitBreaker`. */
  datatype Config = Config(failureThreshold: int, successThreshold: int, openStateMs: int)

  /** The defaults, which are also the settings both pages pass. */
  const Defaults := Config(4, 2, 10000)

  datatype State = State(mode: Mode, failures: int, successes: int, nextTryAt: int)

  /** The variables as `createCircuitBreaker` initialises them. */
  const Initial := State(Closed, 0, 0, 0)

  datatype Admission = Admission(allowed: bool, next: State)

  /** `canRequest`: an OPEN breaker admits a call once its waiting time is
      over, moving to HALF_OPEN with a fresh success count; every other state
      admits every call unchanged. */
  function Admit(s: State, now: int): (a: Admission)
    ensures a.allowed <==> !(s.mode == Open && now < s.nextTryAt)
    ensures a.allowed ==> a.next.mode != Open
    ensures a.next.failures == s.failures && a.next.nextTryAt == s.nextTryAt
  {
    if s.mode == Open then
      if now >= s.nextTryAt then Admission(true, s.(mode := HalfOpen, successes := 0))
      else Admission(false, s)
    else Admission(true, s)
  }

  /** `onSuccess`. */
  function AfterSuccess(c: Config, s: State): (t: State)
    ensures t.nextTryAt == s.nextTryAt
    ensures t.mode == Open <==> s.mode == Open
    ensures s.mode == HalfOpen && t.mode == Closed ==> t.failures == 0 && t.successes == 0
    ensures s.mode != HalfOpen ==> t.failures == 0
  {
    if s.mode == HalfOpen then
      var n := s.successes + 1;
      if n >= c.successThreshold then s.(mode := Closed, failures := 0, successes := 0)
      else s.(successes := n)
    else s.(failures := 0)
  }

  /** `onFailure`, called at time `now`. */
  function AfterFailure(c: Config, s: State, now: int): (t: State)
    ensures t.mode != HalfOpen
    ensures t.mode == Closed ==> s.mode == Closed && t.failures == s.failures + 1 < c.failureThreshold
    ensures t.mode == Open && s.mode != Open ==> t.nextTryAt == now + c.openStateMs
    ensures t.nextTryAt == s.nextTryAt || t.nextTryAt == now + c.openStateMs
  {
    if s.mode == HalfOpen then
      s.(mode := Open, nextTryAt := now + c.openStateMs, failures := 0, successes := 0)
    else
      var n := s.failures + 1;
      if n >= c.failureThreshold then s.(failures := n, mode := Open, nextTryAt := now + c.openStateMs)
      else s.(failures := n)
  }

  /** The state after one call of `exec` whose operation (if admitted)
      succeeds or fails. */
  function Next(c: Config, s: State, startedAt: int, settledAt: int, succeeded: bool): (t: State)
    ensures s.mode == Open && startedAt < s.nextTryAt ==> t == s
    ensures succeeded && t.mode == Open ==> t == s
    ensures !succeeded && t.mode != Open ==> t.mode == Closed && t.failures == s.failures + 1
  {
    var a := Admit(s, startedAt);
    if !a.allowed then a.next
    else if succeeded then AfterSuccess(c, a.next)
    else AfterFailure(c, a.next, settledAt)
  }

  datatype Step<T> = Step(next: State, result: Result<T>, invoked: bool)

  /** One call of `exec`: `outcome` is what the operation yields if it is
      invoked; `invoked` says whether it was. */
  function ExecStep<T>(c: Config, s: State, startedAt: int, settledAt: int, outcome: Result<T>): (st: Step<T>)
    ensures st.result.Success? ==> st.invoked && st.result == outcome
    ensures !st.invoked ==> st.next == s && st.result == Failure(CircuitOpen)
    ensures st.next.mode == HalfOpen ==> st.invoked && outcome.Success?
  {
    var a := Admit(s, startedAt);
    Step(Next(c, s, startedAt, settledAt, outcome.Success?),
         if a.allowed then outcome else Failure(CircuitOpen),
         a.allowed)
  }

  /** What holds of the variables in every state the breaker can reach: the
      counters are never negative, `successes` is zero outside HALF_OPEN,
      and CLOSED and HALF_OPEN stay below their thresholds (with a positive
      threshold; a threshold of zero or less trips on the first event). */
  ghost predicate Inv(c: Config, s: State) {
    && s.failures >= 0 && s.successes >= 0
    && (s.mode != HalfOpen ==> s.successes == 0)
    && (s.mode == Closed ==> s.failures == 0 || s.failures < c.failureThreshold)
    && (s.mode == HalfOpen ==> s.successes == 0 || s.successes < c.successThreshold)
  }

  lemma InitialInv(c: Config)
    ensures Inv(c, Initial)
  {
  }

  /** Each of `canRequest`, `onSuccess` and `onFailure` keeps the invariant,
      so one `exec` call does too. */
  lemma TransitionsPreserveInv(c: Config, s: State, startedAt: int, settledAt: int, succeeded: bool)
    requires Inv(c, s)
    ensures Inv(c, Admit(s, startedAt).next)
    ensures Inv(c, AfterSuccess(c, s))
    ensures Inv(c, AfterFailure(c, s, settledAt))
    ensures Inv(c, Next(c, s, startedAt, settledAt, succeeded))
  {
  }

  /** With positive thresholds: in CLOSED `failures < failureThreshold`, in
      HALF_OPEN `successes < successThreshold`, and `successes == 0` in every
      other state. */
  lemma InvBounds(c: Config, s: State)
    requires Inv(c, s) && c.failureThreshold > 0 && c.successThreshold > 0
    ensures s.mode == Closed ==> 0 <= s.failures < c.failureThreshold
    ensures s.mode == HalfOpen ==> 0 <= s.successes < c.successThreshold
    ensures s.mode != HalfOpen ==> s.successes == 0
  {
  }

  /** `exec` fails fast exactly when the breaker is OPEN and its waiting
      time is not over; then the operation is not invoked, the error is
      `CIRCUIT_OPEN` and no variable changes. Otherwise the operation is
      invoked once and its result or error is propagated unchanged. */
  lemma ExecRejectsOnlyWhileOpen<T>(c: Config, s: State, startedAt: int, settledAt: int, outcome: Result<T>)
    ensures var st := ExecStep(c, s, startedAt, settledAt, outcome);
      && (!st.invoked <==> s.mode == Open && startedAt < s.nextTryAt)
      && (!st.invoked ==> st.next == s && st.result == Failure(CircuitOpen))
      && (st.invoked ==> st.result == outcome)
  {
  }

  /** CLOSED and HALF_OPEN admit every call, however many; in particular
      HALF_OPEN does not limit the number of probes. */
  lemma AdmitsEveryCallUnlessOpen(s: State, now: int)
    requires s.mode != Open
    ensures Admit(s, now) == Admission(true, s)
  {
  }

  /** Once the waiting time is over, an OPEN breaker moves to HALF_OPEN with
      `successes == 0` before the operation runs, and the outcome of that
      call is then counted in HALF_OPEN. */
  lemma OpenAdmitsProbeWhenDue(c: Config, s: State, startedAt: int, settledAt: int, succeeded: bool)
    requires s.mode == Open && startedAt >= s.nextTryAt
    ensures Admit(s, startedAt) == Admission(true, s.(mode := HalfOpen, successes := 0))
    ensures Next(c, s, startedAt, settledAt, succeeded) ==
              if succeeded then AfterSuccess(c, s.(mode := HalfOpen, successes := 0))
              else AfterFailure(c, s.(mode := HalfOpen, successes := 0), settledAt)
  {
  }

  /** A success outside HALF_OPEN clears the consecutive-failure count and
      changes nothing else. */
  lemma SuccessResetsFailures(c: Config, s: State)
    requires s.mode != HalfOpen
    ensures AfterSuccess(c, s) == s.(failures := 0)
  {
  }

  /** One failure in HALF_OPEN reopens the breaker with both counters zero
      and a new waiting time counted from the failure. */
  lemma HalfOpenFailureReopens(c: Config, s: State, now: int)
    requires s.mode == HalfOpen
    ensures AfterFailure(c, s, now) == State(Open, 0, 0, now + c.openStateMs)
  {
  }

  // ---------------------------------------------------------------------
  // Sequences of calls

  /** One call of `exec`, as far as the breaker is concerned. */
  datatype Call = Call(startedAt: int, settledAt: int, succeeded: bool)

  /** The state after a sequence of `exec` calls, made one after another. */
  function Run(c: Config, s: State, calls: seq<Call>): State
    decreases |calls|
  {
    if calls == [] then s
    else Run(c, Next(c, s, calls[0].startedAt, calls[0].settledAt, calls[0].succeeded), calls[1..])
  }

  /** Consecutive failures in CLOSED: each one adds one to `failures`; the
      breaker stays CLOSED until the count reaches `failureThreshold`, and
      the call that reaches it opens the breaker until `openStateMs` after
      that call settled. */
  lemma {:induction false} FailuresOpenAtThreshold(c: Config, s: State, calls: seq<Call>)
    requires s.mode == Closed && s.failures >= 0
    requires calls != [] && s.failures + |calls| <= c.failureThreshold
    requires forall i :: 0 <= i < |calls| ==> !calls[i].succeeded
    ensures Run(c, s, calls) ==
              if s.failures + |calls| < c.failureThreshold then s.(failures := s.failures + |calls|)
              else s.(mode := Open, failures := c.failureThreshold,
                      nextTryAt := calls[|calls| - 1].settledAt + c.openStateMs)
    decreases |calls|
  {
    var s' := Next(c, s, calls[0].startedAt, calls[0].settledAt, false);
    if |calls| == 1 {
      assert calls[1..] == [];
    } else {
      assert s' == s.(failures := s.failures + 1);
      assert calls[1..][|calls| - 2] == calls[|calls| - 1];
      FailuresOpenAtThreshold(c, s', calls[1..]);
    }
  }

  /** Consecutive successes in HALF_OPEN: each one adds one to `successes`;
      the call that brings the count to `successThreshold` closes the
      breaker with both counters zero. */
  lemma {:induction false} SuccessesCloseAtThreshold(c: Config, s: State, calls: seq<Call>)
    requires s.mode == HalfOpen && s.successes >= 0
    requires calls != [] && s.successes + |calls| <= c.successThreshold
    requires forall i :: 0 <= i < |calls| ==> calls[i].succeeded
    ensures Run(c, s, calls) ==
              if s.successes + |calls| < c.successThreshold then s.(successes := s.successes + |calls|)
              else s.(mode := Closed, failures := 0, successes := 0)
    decreases |calls|
  {
    var s' := Next(c, s, calls[0].startedAt, calls[0].settledAt, true);
    if |calls| == 1 {
      assert calls[1..] == [];
    } else {
      assert s' == s.(successes := s.successes + 1);
      SuccessesCloseAtThreshold(c, s', calls[1..]);
    }
  }

  /** The page configuration: four failed calls open a fresh breaker, and a
      call made before 10000 ms have passed since the fourth failure settled
      is rejected without invoking the operation. */
  lemma DefaultBreakerScenario<T>(calls: seq<Call>, startedAt: int, settledAt: int, outcome: Result<T>)
    requires |calls| == 4 && forall i :: 0 <= i < 4 ==> !calls[i].succeeded
    requires startedAt < calls[3].settledAt + 10000
    ensures Run(Defaults, Initial, calls).mode == Open
    ensures ExecStep(Defaults, Run(Defaults, Initial, calls), startedAt, settledAt, outcome) ==
              Step(Run(Defaults, Initial, calls), Failure(CircuitOpen), false)
  {
    FailuresOpenAtThreshold(Defaults, Initial, calls);
  }

  // ---------------------------------------------------------------------
  // The breaker object

  /** The object `createCircuitBreaker` returns, with its closure variables
      as fields. */
  class CircuitBreaker {
    const failureThreshold: int
    const successThreshold: int
    const openStateMs: int
    var state: Mode
    var failures: int
    var successes: int
    var nextTryAt: int

    function Settings(): Config {
      Config(failureThreshold, successThreshold, openStateMs)
    }

    function Snapshot(): State
      reads this
    {
      State(state, failures, successes, nextTryAt)
    }

    ghost predicate Valid()
      reads this
    {
      Inv(Settings(), Snapshot())
    }

    /** `createCircuitBreaker(cfg)`. */
    constructor (failureThreshold: int, successThreshold: int, openStateMs: int)
      ensures Settings() == Config(failureThreshold, successThreshold, openStateMs)
      ensures Snapshot() == Initial
      ensures Valid()
    {
      this.failureThreshold := failureThreshold;
      this.successThreshold := successThreshold;
      this.openStateMs := openStateMs;
      state := Closed;
      failures := 0;
      successes := 0;
      nextTryAt := 0;
    }

    /** `getState`: reads the mode and changes nothing. */
    function GetState(): (m: Mode)
      reads this
      ensures m == Snapshot().mode
    {
      state
    }

    method CanRequest(now: int) returns (ok: bool)
      requires Valid()
      modifies this
      ensures Valid()
      ensures Admission(ok, Snapshot()) == Admit(old(Snapshot()), now)
    {
      if state == Open {
        if now >= nextTryAt {
          state := HalfOpen;
          successes := 0;
          return true;
        }
        return false;
      }
      return true;
    }

    method OnSuccess()
      requires Valid()
      modifies this
      ensures Valid()
      ensures Snapshot() == AfterSuccess(Settings(), old(Snapshot()))
    {
      if state == HalfOpen {
        successes := successes + 1;
        if successes >= successThreshold {
          state := Closed;
          failures := 0;
          successes := 0;
        }
      } else {
        failures := 0;
      }
    }

    method OnFailure(now: int)
      requires Valid()
      modifies this
      ensures Valid()
      ensures Snapshot() == AfterFailure(Settings(), old(Snapshot()), now)
    {
      if state == HalfOpen {
        state := Open;
        nextTryAt := now + openStateMs;
        failures := 0;
        successes := 0;
        return;
      }
      failures := failures + 1;
      if failures >= failureThreshold {
        state := Open;
        nextTryAt := now + openStateMs;
      }
    }

    /** `exec(fn)`: fails fast with `CIRCUIT_OPEN` when not admitted;
        otherwise calls `fn` once, records its success or failure, and hands
        back its value or its error. */
    method Exec<T>(startedAt: int, settledAt: int, fn: () -> Result<T>) returns (r: Result<T>, invoked: bool)
      requires Valid()
      modifies this
      ensures Valid()
      ensures Step(Snapshot(), r, invoked) == ExecStep(Settings(), old(Snapshot()), startedAt, settledAt, fn())
    {
      var ok := CanRequest(startedAt);
      if !ok {
        return Failure(CircuitOpen), false;
      }
      r := fn();
      invoked := true;
      if r.Success? {
        OnSuccess();
      } else {
        OnFailure(settledAt);
      }
    }
  }
}
