/** The circuit breaker in front of a provider. */
module CircuitBreaker {

  datatype CircuitState = Closed | Open | HalfOpen

  /** What has been recorded: results, with the time of each failure. */
  datatype Result = Succeeded | Failed(at: real)

  /** The failures since the last success. */
  function TrailingFailures(history: seq<Result>): nat {
    if history == [] || history[|history| - 1].Succeeded? then 0
    else 1 + TrailingFailures(history[..|history| - 1])
  }

  function LastFailure(history: seq<Result>): real {
    if history == [] then 0.0
    else if history[|history| - 1].Failed? then history[|history| - 1].at
    else LastFailure(history[..|history| - 1])
  }

  function Successes(history: seq<Result>): nat {
    if history == [] then 0
    else Successes(history[..|history| - 1]) + if history[|history| - 1].Succeeded? then 1 else 0
  }

  lemma Grows(history: seq<Result>, r: Result)
    ensures TrailingFailures(history + [r]) == if r.Succeeded? then 0 else 1 + TrailingFailures(history)
    ensures LastFailure(history + [r]) == if r.Failed? then r.at else LastFailure(history)
    ensures Successes(history + [r]) == Successes(history) + if r.Succeeded? then 1 else 0
  {
    assert (history + [r])[..|history|] == history;
  }

  class CircuitBreaker {
    const failureThreshold: int
    const recoveryTimeout: real
    var state: CircuitState
    var failureCount: int
    var lastFailureTime: real
    var totalRequests: int
    var successfulRequests: int
    ghost var history: seq<Result>

    /** Not closed exactly when the failures counted reach the threshold; while closed they are the trailing failures. */
    ghost predicate Valid()
      reads this
    {
      && failureThreshold >= 1 && failureCount >= 0
      && (!state.Closed? <==> failureCount >= failureThreshold)
      && (state.Closed? ==> failureCount == TrailingFailures(history))
      && TrailingFailures(history) <= failureCount
      && lastFailureTime == LastFailure(history)
      && totalRequests == |history| && successfulRequests == Successes(history)
    }

    constructor (threshold: int, timeout: real)
      requires threshold >= 1
      ensures Valid() && state.Closed? && history == [] && failureThreshold == threshold && recoveryTimeout == timeout
    {
      failureThreshold, recoveryTimeout := threshold, timeout;
      state, failureCount, lastFailureTime := Closed, 0, 0.0;
      totalRequests, successfulRequests, history := 0, 0, [];
    }

    /** An open breaker admits a request exactly when the timeout has passed since the last recorded failure, and then
        keeps admitting them: half-open does not limit itself to a single test. */
    method IsHealthy(now: real) returns (admits: bool)
      requires Valid()
      modifies `state
      ensures Valid()
      ensures admits <==> !old(state).Open? || now - LastFailure(history) >= recoveryTimeout
      ensures state == if old(state).Open? && admits then HalfOpen else old(state)
    {
      if state == Closed {
        return true;
      }
      if state == Open {
        if now - lastFailureTime >= recoveryTimeout {
          state := HalfOpen;
          return true;
        }
        return false;
      }
      return true;
    }

    method RecordSuccess()
      requires Valid()
      modifies this
      ensures Valid() && history == old(history) + [Succeeded]
      ensures state == if old(state).HalfOpen? then Closed else old(state)
      ensures failureCount == if old(state).Open? then old(failureCount) else 0
    {
      Grows(history, Succeeded);
      totalRequests := totalRequests + 1;
      successfulRequests := successfulRequests + 1;
      if state == HalfOpen {
        state := Closed;
        failureCount := 0;
      } else if state == Closed {
        failureCount := 0;
      }
      history := history + [Succeeded];
    }

    method RecordFailure(now: real)
      requires Valid()
      modifies this
      ensures Valid() && history == old(history) + [Failed(now)]
      ensures state == if old(state).Closed? && TrailingFailures(history) < failureThreshold then Closed else Open
      ensures failureCount == old(failureCount) + 1
    {
      Grows(history, Failed(now));
      totalRequests := totalRequests + 1;
      failureCount := failureCount + 1;
      lastFailureTime := now;
      if state == HalfOpen {
        state := Open;
      } else if state == Closed && failureCount >= failureThreshold {
        state := Open;
      }
      history := history + [Failed(now)];
    }
  }

  /** Once the timeout has passed, every request is admitted until a result is recorded, however many there are and
      whatever the clock says at each of them. */
  method HalfOpenAdmitsAll(breaker: CircuitBreaker, now: real, later: seq<real>) returns (admitted: seq<bool>)
    requires breaker.Valid() && breaker.state.Open? && now - LastFailure(breaker.history) >= breaker.recoveryTimeout
    modifies breaker
    ensures |admitted| == 1 + |later| && forall i | 0 <= i < |admitted| :: admitted[i]
    ensures breaker.Valid() && breaker.state.HalfOpen? && breaker.history == old(breaker.history)
  {
    var first := breaker.IsHealthy(now);
    admitted := [first];
    for i := 0 to |later|
      invariant |admitted| == 1 + i && forall j | 0 <= j < |admitted| :: admitted[j]
      invariant breaker.Valid() && breaker.state.HalfOpen? && breaker.history == old(breaker.history)
    {
      var next := breaker.IsHealthy(later[i]);
      admitted := admitted + [next];
    }
  }
}
