/**
 The `wrap_query_exceptions` decorator (procrastinate/psycopg3_connector.py):
 a query whose pooled connection turns out to have been closed by the server
 is tried again, up to the pool's maximum size plus one times.

 The query coroutine is modelled by `attempt`: `attempt(i)` is what its
 `i`-th call (counting from 0) returns or raises. Each call may borrow a
 different connection, so the outcomes are independent of each other.
 */
module Retry {
  import opened Values
  import opened Errors
  import opened Strings
  import Classifier

  /** The part of the driver's message that identifies a stale connection. */
  const StaleMarker := "server closed the connection unexpectedly"

  /** An `OperationalError` whose text contains the stale-connection marker:
      the only error the retrier swallows. */
  predicate IsStale(e: Error)
  {
    e.DriverOperational? && Contains(e.message, StaleMarker)
  }

  predicate StaleOutcome<T>(o: Outcome<T>)
  {
    o.Raised? && IsStale(o.error)
  }

  /** The exception an outcome carries, if it is one. */
  function ErrorOf<T>(o: Outcome<T>): (r: Option<Error>)
    ensures r.Some? <==> o.Raised?
    ensures o.Raised? ==> r.value == o.error
  {
    if o.Raised? then Some(o.error) else None
  }

  /** `max_tries`: the pool's `max_size` plus one, or 1 when reading
      `max_size` fails (there is no pool). */
  function MaxTries(poolMaxSize: Option<int>): (r: int)
    ensures poolMaxSize.None? ==> r == 1
    ensures poolMaxSize.Some? ==> r - 1 == poolMaxSize.value
  {
    match poolMaxSize
    case Some(m) => m + 1
    case None => 1
  }

  /** How many times `range(max_tries)` runs: never negative. */
  function Budget(poolMaxSize: Option<int>): (r: nat)
    ensures MaxTries(poolMaxSize) >= 0 ==> r == MaxTries(poolMaxSize)
    ensures MaxTries(poolMaxSize) < 0 ==> r == 0
  {
    var m := MaxTries(poolMaxSize);
    if m < 0 then 0 else m
  }

  const TriesPrefix := "Could not get a valid connection after "
  const TriesSuffix := " tries"

  function TriesMessage(maxTries: int): (r: string)
  {
    TriesPrefix + IntToDecimal(maxTries) + TriesSuffix
  }

  /** The exhaustion message names the number of tries unambiguously. */
  lemma TriesMessageInjective(a: int, b: int)
    requires TriesMessage(a) == TriesMessage(b)
    ensures a == b
  {
    var ta, tb := TriesMessage(a), TriesMessage(b);
    var da, db := IntToDecimal(a), IntToDecimal(b);
    assert |da| == |db|;
    assert da == ta[|TriesPrefix|..|TriesPrefix| + |da|];
    assert db == tb[|TriesPrefix|..|TriesPrefix| + |db|];
    IntToDecimalRoundTrip(a);
    IntToDecimalRoundTrip(b);
  }

  /** The exception raised once every try met a stale connection, chained to
      the last stale error (`None` when no try was made at all). */
  function Exhausted(maxTries: int, finalExc: Option<Error>): (e: Error)
    ensures e.ConnectorException? && e.cause == finalExc
    ensures e.detail.Some? && Contains(e.detail.value, IntToDecimal(maxTries))
  {
    ContainsInfix(TriesPrefix, IntToDecimal(maxTries), TriesSuffix);
    ConnectorException(Some(TriesMessage(maxTries)), finalExc)
  }

  /** A retried call: what it surfaced and how many times the query ran. */
  datatype Run<T> = Run(outcome: Outcome<T>, attempts: nat)

  /** Reference definition: the loop from try `i` on, `finalExc` being the
      last stale error seen so far. */
  function RetryFrom<T>(attempt: nat -> Outcome<T>, maxTries: int, i: nat, finalExc: Option<Error>): (r: Run<T>)
    // a stale connection is never what the caller sees
    ensures !StaleOutcome(r.outcome)
    // every try made after `i`, except the last, met a stale connection
    ensures i <= r.attempts
    ensures forall j :: i <= j < r.attempts - 1 ==> StaleOutcome(attempt(j))
    // a returned value is the value of the last try
    ensures r.outcome.Returned? ==> i < r.attempts && r.outcome == attempt(r.attempts - 1)
    decreases maxTries - i
  {
    if i >= maxTries then Run(Raised(Exhausted(maxTries, finalExc)), i)
    else
      var o := attempt(i);
      if StaleOutcome(o) then RetryFrom(attempt, maxTries, i + 1, Some(o.error))
      else Run(o, i + 1)
  }

  /** The whole loop: the reference for `WrapQueryExceptions`. */
  function Retried<T>(attempt: nat -> Outcome<T>, poolMaxSize: Option<int>): (r: Run<T>)
    ensures !StaleOutcome(r.outcome)
    ensures forall j :: 0 <= j < r.attempts - 1 ==> StaleOutcome(attempt(j))
    ensures r.outcome.Returned? ==> r.attempts >= 1 && r.outcome == attempt(r.attempts - 1)
  {
    RetryFrom(attempt, MaxTries(poolMaxSize), 0, None)
  }

  /** `wrap_query_exceptions` around the query coroutine `attempt`, for a
      connector whose pool has maximum size `poolMaxSize` (`None` when there
      is no pool). The loop follows the source's `for` loop; `attempts`
      counts the calls of the coroutine. */
  method WrapQueryExceptions<T>(attempt: nat -> Outcome<T>, poolMaxSize: Option<int>)
    returns (outcome: Outcome<T>, attempts: nat)
    ensures attempts <= Budget(poolMaxSize)
    ensures forall j :: 0 <= j < attempts - 1 ==> StaleOutcome(attempt(j))
    ensures attempts > 0 && !StaleOutcome(attempt(attempts - 1)) ==> outcome == attempt(attempts - 1)
    ensures attempts > 0 && StaleOutcome(attempt(attempts - 1)) ==>
              attempts == Budget(poolMaxSize)
              && outcome == Raised(Exhausted(MaxTries(poolMaxSize), Some(attempt(attempts - 1).error)))
    ensures attempts == 0 ==>
              Budget(poolMaxSize) == 0 && outcome == Raised(Exhausted(MaxTries(poolMaxSize), None))
    ensures Run(outcome, attempts) == Retried(attempt, poolMaxSize)
  {
    var maxTries := MaxTries(poolMaxSize);
    var finalExc: Option<Error> := None;
    var i: nat := 0;
    while i < maxTries
      invariant i <= Budget(poolMaxSize)
      invariant forall j :: 0 <= j < i ==> StaleOutcome(attempt(j))
      invariant finalExc == if i == 0 then None else Some(attempt(i - 1).error)
      invariant RetryFrom(attempt, maxTries, i, finalExc) == Retried(attempt, poolMaxSize)
      decreases maxTries - i
    {
      var o := attempt(i);
      if !StaleOutcome(o) {
        // a value is returned; any other error propagates from this try
        return o, i + 1;
      }
      finalExc := Some(o.error);
      i := i + 1;
    }
    return Raised(Exhausted(maxTries, finalExc)), i;
  }

  lemma {:induction false} RetryFromBound<T>(attempt: nat -> Outcome<T>, maxTries: int, i: nat, finalExc: Option<Error>)
    ensures RetryFrom(attempt, maxTries, i, finalExc).attempts <= if i >= maxTries then i else maxTries
    decreases maxTries - i
  {
    if i < maxTries && StaleOutcome(attempt(i)) {
      RetryFromBound(attempt, maxTries, i + 1, Some(attempt(i).error));
    }
  }

  /** The query never runs more often than the budget allows. */
  lemma RetryWithinBudget<T>(attempt: nat -> Outcome<T>, poolMaxSize: Option<int>)
    ensures Retried(attempt, poolMaxSize).attempts <= Budget(poolMaxSize)
  {
    RetryFromBound(attempt, MaxTries(poolMaxSize), 0, None);
  }

  lemma {:induction false} RetryFromFirstSettled<T>(attempt: nat -> Outcome<T>, maxTries: int, i: nat, finalExc: Option<Error>, k: nat)
    requires i <= k < maxTries
    requires forall j :: i <= j < k ==> StaleOutcome(attempt(j))
    requires !StaleOutcome(attempt(k))
    ensures RetryFrom(attempt, maxTries, i, finalExc) == Run(attempt(k), k + 1)
    decreases k - i
  {
    if i < k {
      RetryFromFirstSettled(attempt, maxTries, i + 1, Some(attempt(i).error), k);
    }
  }

  /** The first try that does not meet a stale connection, if it is within
      the budget, decides the call: its value or its error surfaces, after
      exactly that many tries. */
  lemma FirstSettledTryDecides<T>(attempt: nat -> Outcome<T>, poolMaxSize: Option<int>, k: nat)
    requires k < Budget(poolMaxSize)
    requires forall j :: 0 <= j < k ==> StaleOutcome(attempt(j))
    requires !StaleOutcome(attempt(k))
    ensures Retried(attempt, poolMaxSize) == Run(attempt(k), k + 1)
  {
    RetryFromFirstSettled(attempt, MaxTries(poolMaxSize), 0, None, k);
  }

  /** k stale connections, then a result: the result is returned after k+1 tries. */
  lemma ReturnsAfterStaleFailures<T>(attempt: nat -> Outcome<T>, poolMaxSize: Option<int>, k: nat, v: T)
    requires k < Budget(poolMaxSize)
    requires forall j :: 0 <= j < k ==> StaleOutcome(attempt(j))
    requires attempt(k) == Returned(v)
    ensures Retried(attempt, poolMaxSize) == Run(Returned(v), k + 1)
  {
    FirstSettledTryDecides(attempt, poolMaxSize, k);
  }

  /** An error other than a stale connection propagates from the try where it
      occurs; no further try is made. */
  lemma OtherErrorPropagates<T>(attempt: nat -> Outcome<T>, poolMaxSize: Option<int>, k: nat, e: Error)
    requires k < Budget(poolMaxSize)
    requires forall j :: 0 <= j < k ==> StaleOutcome(attempt(j))
    requires attempt(k) == Raised(e) && !IsStale(e)
    ensures Retried(attempt, poolMaxSize) == Run(Raised(e), k + 1)
  {
    FirstSettledTryDecides(attempt, poolMaxSize, k);
  }

  lemma {:induction false} RetryFromAllStale<T>(attempt: nat -> Outcome<T>, maxTries: int, i: nat, finalExc: Option<Error>)
    requires i < maxTries
    requires forall j :: i <= j < maxTries ==> StaleOutcome(attempt(j))
    ensures RetryFrom(attempt, maxTries, i, finalExc)
            == Run(Raised(Exhausted(maxTries, ErrorOf(attempt(maxTries - 1)))), maxTries)
    decreases maxTries - i
  {
    if i + 1 < maxTries {
      RetryFromAllStale(attempt, maxTries, i + 1, Some(attempt(i).error));
    }
  }

  /** Every try meets a stale connection: exactly `max_tries` tries are made,
      then a `ConnectorException` naming `max_tries` is raised from the last
      stale error. */
  lemma ExhaustedAfterAllStale<T>(attempt: nat -> Outcome<T>, poolMaxSize: Option<int>)
    requires Budget(poolMaxSize) >= 1
    requires forall j :: 0 <= j < Budget(poolMaxSize) ==> StaleOutcome(attempt(j))
    ensures Retried(attempt, poolMaxSize).attempts == MaxTries(poolMaxSize)
    ensures Retried(attempt, poolMaxSize).outcome
            == Raised(Exhausted(MaxTries(poolMaxSize), ErrorOf(attempt(MaxTries(poolMaxSize) - 1))))
  {
    RetryFromAllStale(attempt, MaxTries(poolMaxSize), 0, None);
  }

  /** A non-positive `max_tries` makes `range(max_tries)` empty: the query never
      runs and the exception has no cause. */
  lemma NoTriesWithoutBudget<T>(attempt: nat -> Outcome<T>, poolMaxSize: Option<int>)
    requires Budget(poolMaxSize) == 0
    ensures Retried(attempt, poolMaxSize) == Run(Raised(Exhausted(MaxTries(poolMaxSize), None)), 0)
  {
  }

  /** A query entry point: `wrap_exceptions` outermost, `wrap_query_exceptions`
      inside it (the decorator order of `execute_query_async` and its siblings). */
  function QueryPath<T>(attempt: nat -> Outcome<T>, poolMaxSize: Option<int>): (r: Outcome<T>)
    ensures r.Raised? ==> !IsDriverError(r.error)
    // a value returned by a try reaches the caller unchanged
    ensures r.Returned? <==> Retried(attempt, poolMaxSize).outcome.Returned?
    ensures r.Returned? ==> r == Retried(attempt, poolMaxSize).outcome
  {
    Classifier.NoDriverErrorEscapes(Retried(attempt, poolMaxSize).outcome);
    Classifier.WrapExceptions(Retried(attempt, poolMaxSize).outcome)
  }

  /** The retrier's own `ConnectorException` is not a driver error, so it reaches
      the caller unchanged, still chained to the last stale error. */
  lemma QueryPathExhausted<T>(attempt: nat -> Outcome<T>, poolMaxSize: Option<int>)
    requires Budget(poolMaxSize) >= 1
    requires forall j :: 0 <= j < Budget(poolMaxSize) ==> StaleOutcome(attempt(j))
    ensures QueryPath(attempt, poolMaxSize)
            == Raised(ConnectorException(Some(TriesMessage(MaxTries(poolMaxSize))),
                                         ErrorOf(attempt(MaxTries(poolMaxSize) - 1))))
  {
    ExhaustedAfterAllStale(attempt, poolMaxSize);
  }

  /** The error that stopped the retrier is classified before it reaches the caller. */
  lemma QueryPathClassifiesSettlingError<T>(attempt: nat -> Outcome<T>, poolMaxSize: Option<int>, k: nat, e: Error)
    requires k < Budget(poolMaxSize)
    requires forall j :: 0 <= j < k ==> StaleOutcome(attempt(j))
    requires attempt(k) == Raised(e) && !IsStale(e)
    ensures QueryPath(attempt, poolMaxSize) == Raised(Classifier.Classify(e))
  {
    OtherErrorPropagates(attempt, poolMaxSize, k, e);
  }

  /** No driver error leaves a query entry point, whatever the tries produce. */
  lemma QueryPathHidesDriverErrors<T>(attempt: nat -> Outcome<T>, poolMaxSize: Option<int>)
    ensures QueryPath(attempt, poolMaxSize).Raised? ==> !IsDriverError(QueryPath(attempt, poolMaxSize).error)
  {
    Classifier.NoDriverErrorEscapes(Retried(attempt, poolMaxSize).outcome);
  }
}
