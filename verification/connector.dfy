/**
 `Psycopg3Connector` (procrastinate/psycopg3_connector.py): its lifecycle
 (`__init__`, `open_async`, `close_async`), the `pool` accessor, the
 single-connection guard of `listen_notify`, and the three query entry points.

 The connector's state is its configuration plus `(pool, externallySet)`.
 Everything the driver does is a parameter: the outcome of constructing a
 pool, of `pool.open()`, of `pool.close()`, and of each try of a query.
 */
module Psycopg3Connector {
  import opened Values
  import opened Errors
  import Classifier
  import Params
  import PoolArgs
  import Retry

  /** An `AsyncConnectionPool` handle, identified by `id`. */
  datatype Pool = Pool(id: nat, maxSize: int)

  datatype Connector = Connector(
    jsonDumps: Option<Callable>,
    jsonLoads: Option<Callable>,
    poolArgs: map<string, Value>,
    pool: Option<Pool>,
    externallySet: bool
  )

  /** A transition: the connector afterwards and what the call returned or raised. */
  datatype Step = Step(next: Connector, result: Outcome<()>)

  /** Reachable states: a pool supplied by the caller is never forgotten. */
  predicate Valid(c: Connector)
  {
    c.externallySet ==> c.pool.Some?
  }

  /** `__init__`: no pool yet, pool arguments adapted from the keyword arguments. */
  function New(jsonDumps: Option<Callable>, jsonLoads: Option<Callable>, kwargs: map<string, Value>): (c: Connector)
    ensures c.pool.None? && !c.externallySet && Valid(c)
    ensures c.jsonDumps == jsonDumps && c.jsonLoads == jsonLoads
    ensures c.poolArgs == PoolArgs.AdaptPoolArgs(kwargs, jsonLoads)
  {
    Connector(jsonDumps, jsonLoads, PoolArgs.AdaptPoolArgs(kwargs, jsonLoads), None, false)
  }

  /** `open_async(pool=supplied)`. `creation` is what `_create_pool` (itself
      wrapped by `wrap_exceptions`) gets from the pool constructor, and `opening`
      what awaiting `pool.open()` yields; the latter is not classified, since
      `open_async` carries no `wrap_exceptions`. */
  function OpenAsync(c: Connector, supplied: Option<Pool>, creation: Outcome<Pool>, opening: Outcome<()>): (s: Step)
    // a connector that has a pool ignores the call
    ensures c.pool.Some? ==> s == Step(c, Returned(()))
    // a supplied pool is adopted and marked as the caller's
    ensures c.pool.None? && supplied.Some? ==>
              s.next.pool == supplied && s.next.externallySet && s.result == opening
    // otherwise a pool is built from the adapted arguments
    ensures c.pool.None? && supplied.None? && creation.Returned? ==>
              s.next.pool == Some(creation.value) && s.next.externallySet == c.externallySet && s.result == opening
    ensures c.pool.None? && supplied.None? && creation.Raised? ==>
              s.next == c && s.result == Raised(Classifier.Classify(creation.error))
    // the configuration never changes
    ensures s.next.(pool := c.pool, externallySet := c.externallySet) == c
  {
    if c.pool.Some? then Step(c, Returned(()))
    else if supplied.Some? then Step(c.(externallySet := true, pool := supplied), opening)
    else match Classifier.WrapExceptions(creation)
      case Raised(e) => Step(c, Raised(e))
      case Returned(p) => Step(c.(pool := Some(p)), opening)
  }

  /** `close_async`, wrapped by `wrap_exceptions`. `closing` is what awaiting
      `pool.close()` yields. */
  function CloseAsync(c: Connector, closing: Outcome<()>): (s: Step)
    // nothing to close, or the pool belongs to the caller
    ensures c.pool.None? || c.externallySet ==> s == Step(c, Returned(()))
    ensures c.pool.Some? && !c.externallySet && closing.Returned? ==>
              s.next == c.(pool := None) && s.result == Returned(())
    ensures c.pool.Some? && !c.externallySet && closing.Raised? ==>
              s.next == c && s.result == Raised(Classifier.Classify(closing.error))
  {
    if c.pool.None? || c.externallySet then Step(c, Returned(()))
    else match Classifier.WrapExceptions(closing)
      case Raised(e) => Step(c, Raised(e))
      case Returned(_) => Step(c.(pool := None), Returned(()))
  }

  /** The `pool` property. */
  function PoolOf(c: Connector): (r: Outcome<Pool>)
    ensures r.Raised? <==> c.pool.None?
    ensures r.Raised? ==> r.error == AppNotOpen
    ensures r.Returned? ==> c.pool == Some(r.value)
  {
    match c.pool
    case None => Raised(AppNotOpen)
    case Some(p) => Returned(p)
  }

  /** How `listen_notify` starts: it gives up at once on a single-connection
      pool, otherwise it acquires a dedicated connection and listens forever. */
  datatype ListenStart = Disabled | Subscribes

  /** The guard at the head of `listen_notify`, wrapped by `wrap_exceptions`. */
  function ListenNotify(c: Connector): (r: Outcome<ListenStart>)
    ensures c.pool.None? ==> r == Raised(AppNotOpen)
    ensures c.pool.Some? ==> r.Returned? && (r.value.Disabled? <==> c.pool.value.maxSize == 1)
  {
    Classifier.WrapExceptions(
      match PoolOf(c)
      case Raised(e) => Raised(e)
      case Returned(p) => Returned(if p.maxSize == 1 then Disabled else Subscribes))
  }

  /** A row as the default `dict_row` factory returns it. */
  type Row = map<string, Value>

  /** What `wrap_query_exceptions` reads as `self._pool.max_size`; `None`
      when the attribute access fails because there is no pool. */
  function PoolMaxSize(c: Connector): (m: Option<int>)
    ensures m.Some? <==> c.pool.Some?
    ensures c.pool.Some? ==> m.value == c.pool.value.maxSize
  {
    match c.pool
    case None => None
    case Some(p) => Some(p.maxSize)
  }

  /** Try `i` of a query body: `self.pool` (which raises `AppNotOpen` without a
      pool), then the driver work `run` on a connection of that pool with the
      adapted parameters. */
  function QueryTryAt<T>(c: Connector, arguments: map<string, Value>,
                         run: (Pool, map<string, Value>, nat) -> Outcome<T>, i: nat): (o: Outcome<T>)
    ensures c.pool.None? ==> o == Raised(AppNotOpen)
    ensures c.pool.Some? ==> o == run(c.pool.value, Params.WrapJson(arguments, c.jsonDumps), i)
  {
    match PoolOf(c)
    case Raised(e) => Raised(e)
    case Returned(p) => run(p, Params.WrapJson(arguments, c.jsonDumps), i)
  }

  /** The query body as the retrier sees it: one outcome per try. */
  function QueryTry<T>(c: Connector, arguments: map<string, Value>,
                       run: (Pool, map<string, Value>, nat) -> Outcome<T>): (attempt: nat -> Outcome<T>)
    ensures forall i: nat :: attempt(i) == QueryTryAt(c, arguments, run, i)
  {
    (i: nat) => QueryTryAt(c, arguments, run, i)
  }

  /** Try `k` is the first try of the query that does not meet a stale
      connection, and it lies within the retry budget of the connector's pool. */
  predicate SettlesAt<T>(c: Connector, arguments: map<string, Value>,
                         run: (Pool, map<string, Value>, nat) -> Outcome<T>, k: nat)
  {
    && c.pool.Some?
    && k < Retry.Budget(PoolMaxSize(c))
    && (forall j: nat :: j < k ==> Retry.StaleOutcome(run(c.pool.value, Params.WrapJson(arguments, c.jsonDumps), j)))
    && !Retry.StaleOutcome(run(c.pool.value, Params.WrapJson(arguments, c.jsonDumps), k))
  }

  /** After k stale tries, the try that settles decides the query: its value is
      returned, its error is classified. */
  lemma SettlingTryDecidesQuery<T>(c: Connector, arguments: map<string, Value>,
                                   run: (Pool, map<string, Value>, nat) -> Outcome<T>)
    ensures forall k: nat :: SettlesAt(c, arguments, run, k) ==>
              Retry.QueryPath(QueryTry(c, arguments, run), PoolMaxSize(c))
              == Classifier.WrapExceptions(run(c.pool.value, Params.WrapJson(arguments, c.jsonDumps), k))
  {
    forall k: nat | SettlesAt(c, arguments, run, k)
      ensures Retry.QueryPath(QueryTry(c, arguments, run), PoolMaxSize(c))
              == Classifier.WrapExceptions(run(c.pool.value, Params.WrapJson(arguments, c.jsonDumps), k))
    {
      Retry.FirstSettledTryDecides(QueryTry(c, arguments, run), PoolMaxSize(c), k);
    }
  }

  /** Every try within the retry budget of the connector's pool meets a stale
      connection. */
  predicate AllStale<T>(c: Connector, arguments: map<string, Value>,
                        run: (Pool, map<string, Value>, nat) -> Outcome<T>)
  {
    && c.pool.Some?
    && (forall j: nat :: j < Retry.Budget(PoolMaxSize(c)) ==>
          Retry.StaleOutcome(run(c.pool.value, Params.WrapJson(arguments, c.jsonDumps), j)))
  }

  /** The stale error of the last try the budget allows, if any try is allowed:
      what the exhaustion exception is raised from. */
  function LastStaleError<T>(c: Connector, arguments: map<string, Value>,
                             run: (Pool, map<string, Value>, nat) -> Outcome<T>): (e: Option<Error>)
    requires AllStale(c, arguments, run)
    ensures Retry.Budget(PoolMaxSize(c)) == 0 <==> e.None?
    ensures e.Some? ==> Retry.IsStale(e.value)
  {
    var n := Retry.Budget(PoolMaxSize(c));
    if n == 0 then None else Some(run(c.pool.value, Params.WrapJson(arguments, c.jsonDumps), n - 1).error)
  }

  /** When every try meets a stale connection, the query raises the retrier's
      exhaustion exception, chained to the last stale error (to none when the
      budget allows no try), and the outer classifier leaves it unchanged. */
  lemma ExhaustedQuery<T>(c: Connector, arguments: map<string, Value>,
                          run: (Pool, map<string, Value>, nat) -> Outcome<T>)
    ensures AllStale(c, arguments, run) ==>
              Retry.QueryPath(QueryTry(c, arguments, run), PoolMaxSize(c))
              == Raised(Retry.Exhausted(Retry.MaxTries(PoolMaxSize(c)), LastStaleError(c, arguments, run)))
  {
    if AllStale(c, arguments, run) {
      var attempt := QueryTry(c, arguments, run);
      if Retry.Budget(PoolMaxSize(c)) == 0 {
        Retry.NoTriesWithoutBudget(attempt, PoolMaxSize(c));
      } else {
        Retry.QueryPathExhausted(attempt, PoolMaxSize(c));
      }
    }
  }

  /** A query entry point: `wrap_exceptions` around `wrap_query_exceptions`
      around the query body. */
  function Query<T>(c: Connector, arguments: map<string, Value>,
                    run: (Pool, map<string, Value>, nat) -> Outcome<T>): (r: Outcome<T>)
    ensures r.Raised? ==> !IsDriverError(r.error)
    ensures c.pool.None? ==> r == Raised(AppNotOpen)
    ensures forall k: nat :: SettlesAt(c, arguments, run, k) ==>
              r == Classifier.WrapExceptions(run(c.pool.value, Params.WrapJson(arguments, c.jsonDumps), k))
    ensures AllStale(c, arguments, run) ==>
              r == Raised(Retry.Exhausted(Retry.MaxTries(PoolMaxSize(c)), LastStaleError(c, arguments, run)))
  {
    var attempt := QueryTry(c, arguments, run);
    Retry.QueryPathHidesDriverErrors(attempt, PoolMaxSize(c));
    QueryWithoutPool(c, arguments, run);
    SettlingTryDecidesQuery(c, arguments, run);
    ExhaustedQuery(c, arguments, run);
    Retry.QueryPath(attempt, PoolMaxSize(c))
  }

  /** `execute_query_async`: runs the query, returns nothing. */
  function ExecuteQueryAsync(c: Connector, arguments: map<string, Value>,
                             run: (Pool, map<string, Value>, nat) -> Outcome<()>): (r: Outcome<()>)
    ensures r.Raised? ==> !IsDriverError(r.error)
    ensures c.pool.None? ==> r == Raised(AppNotOpen)
    ensures forall k: nat :: SettlesAt(c, arguments, run, k) ==>
              r == Classifier.WrapExceptions(run(c.pool.value, Params.WrapJson(arguments, c.jsonDumps), k))
    // every try stale: the exhaustion exception
    ensures AllStale(c, arguments, run) ==>
              r == Raised(Retry.Exhausted(Retry.MaxTries(PoolMaxSize(c)), LastStaleError(c, arguments, run)))
  {
    Query(c, arguments, run)
  }

  /** `execute_query_one_async`: the first row, `None` when no row matches. */
  function ExecuteQueryOneAsync(c: Connector, arguments: map<string, Value>,
                                run: (Pool, map<string, Value>, nat) -> Outcome<Option<Row>>): (r: Outcome<Option<Row>>)
    ensures r.Raised? ==> !IsDriverError(r.error)
    ensures c.pool.None? ==> r == Raised(AppNotOpen)
    ensures forall k: nat :: SettlesAt(c, arguments, run, k) ==>
              r == Classifier.WrapExceptions(run(c.pool.value, Params.WrapJson(arguments, c.jsonDumps), k))
    // every try stale: the exhaustion exception
    ensures AllStale(c, arguments, run) ==>
              r == Raised(Retry.Exhausted(Retry.MaxTries(PoolMaxSize(c)), LastStaleError(c, arguments, run)))
    // no matching row is the absence marker, not an error
    ensures forall k: nat ::
              (SettlesAt(c, arguments, run, k)
               && run(c.pool.value, Params.WrapJson(arguments, c.jsonDumps), k) == Returned(None))
              ==> r == Returned(None)
  {
    Query(c, arguments, run)
  }

  /** `execute_query_all_async`: every row, `[]` when no row matches. */
  function ExecuteQueryAllAsync(c: Connector, arguments: map<string, Value>,
                                run: (Pool, map<string, Value>, nat) -> Outcome<seq<Row>>): (r: Outcome<seq<Row>>)
    ensures r.Raised? ==> !IsDriverError(r.error)
    ensures c.pool.None? ==> r == Raised(AppNotOpen)
    ensures forall k: nat :: SettlesAt(c, arguments, run, k) ==>
              r == Classifier.WrapExceptions(run(c.pool.value, Params.WrapJson(arguments, c.jsonDumps), k))
    // every try stale: the exhaustion exception
    ensures AllStale(c, arguments, run) ==>
              r == Raised(Retry.Exhausted(Retry.MaxTries(PoolMaxSize(c)), LastStaleError(c, arguments, run)))
    // no matching row gives the empty list, not an error
    ensures forall k: nat ::
              (SettlesAt(c, arguments, run, k)
               && run(c.pool.value, Params.WrapJson(arguments, c.jsonDumps), k) == Returned([]))
              ==> r == Returned([])
  {
    Query(c, arguments, run)
  }

  /** A query on a connector without a pool tries exactly once and surfaces
      `AppNotOpen`. */
  lemma QueryWithoutPool<T>(c: Connector, arguments: map<string, Value>,
                            run: (Pool, map<string, Value>, nat) -> Outcome<T>)
    ensures c.pool.None? ==>
              Retry.Retried(QueryTry(c, arguments, run), PoolMaxSize(c)) == Retry.Run(Raised(AppNotOpen), 1)
  {
    if c.pool.None? {
      Retry.OtherErrorPropagates(QueryTry(c, arguments, run), PoolMaxSize(c), 0, AppNotOpen);
    }
  }

  /** With a pool of maximum size n, a query runs at most n + 1 times. */
  lemma QueryTriesWithinPoolBudget<T>(c: Connector, arguments: map<string, Value>,
                                      run: (Pool, map<string, Value>, nat) -> Outcome<T>)
    requires c.pool.Some?
    ensures Retry.Retried(QueryTry(c, arguments, run), PoolMaxSize(c)).attempts <= c.pool.value.maxSize + 1
            || c.pool.value.maxSize < 0
  {
    Retry.RetryWithinBudget(QueryTry(c, arguments, run), PoolMaxSize(c));
  }

  /** Every transition keeps a supplied pool in place. */
  lemma TransitionsPreserveValid(c: Connector, supplied: Option<Pool>, creation: Outcome<Pool>,
                                 opening: Outcome<()>, closing: Outcome<()>)
    requires Valid(c)
    ensures Valid(OpenAsync(c, supplied, creation, opening).next)
    ensures Valid(CloseAsync(c, closing).next)
  {
  }

  /** Once a pool is set, opening again is a no-op that keeps the same pool. */
  lemma OpenIsIdempotent(c: Connector, supplied: Option<Pool>, creation: Outcome<Pool>, opening: Outcome<()>,
                         supplied': Option<Pool>, creation': Outcome<Pool>, opening': Outcome<()>)
    requires OpenAsync(c, supplied, creation, opening).next.pool.Some?
    ensures var s := OpenAsync(c, supplied, creation, opening);
            OpenAsync(s.next, supplied', creation', opening') == Step(s.next, Returned(()))
  {
  }

  /** Closing a supplied pool never awaits `pool.close()`: the outcome is the
      same whatever closing would have done, and the pool stays set. */
  lemma CloseLeavesSuppliedPool(c: Connector, closing: Outcome<()>, closing': Outcome<()>)
    requires c.externallySet
    ensures CloseAsync(c, closing) == CloseAsync(c, closing')
    ensures CloseAsync(c, closing).next.pool == c.pool
  {
  }

  /** Adopting a pool is for good: after `open_async(pool=p)`, `close_async`
      and another `open_async`, whatever they are given, `p` is still the pool. */
  lemma SuppliedPoolSticks(c: Connector, p: Pool, creation: Outcome<Pool>, opening: Outcome<()>,
                           closing: Outcome<()>, supplied': Option<Pool>, creation': Outcome<Pool>, opening': Outcome<()>)
    requires c.pool.None?
    ensures var s1 := OpenAsync(c, Some(p), creation, opening);
            var s2 := CloseAsync(s1.next, closing);
            var s3 := OpenAsync(s2.next, supplied', creation', opening');
            s2.result == Returned(()) && s3.next.pool == Some(p) && s3.next.externallySet
  {
  }

  /** A pool the connector built itself is released by a successful close, and
      the next open calls the pool constructor again and takes its result. */
  lemma CloseThenOpenRecreates(c: Connector, closing: Outcome<()>, q: Pool, opening: Outcome<()>)
    requires c.pool.Some? && !c.externallySet && closing.Returned?
    ensures var s1 := CloseAsync(c, closing);
            var s2 := OpenAsync(s1.next, None, Returned(q), opening);
            s1.next.pool.None? && s2.next.pool == Some(q) && !s2.next.externallySet
  {
  }

  /** The pool constructor takes `max_size` from the pool arguments when it is
      an int. This is psycopg_pool's behaviour; `OpenAsync` itself does not
      assume it. */
  predicate BuiltFrom(poolArgs: map<string, Value>, p: Pool)
  {
    "max_size" in poolArgs && poolArgs["max_size"].Int? ==> p.maxSize == poolArgs["max_size"].i
  }

  /** A connector opened onto a pool built from its own arguments: the pool's
      max_size is the caller's, or 10 by default, so a default connector tries
      a query up to 11 times and does not disable listen/notify. */
  lemma OpenedPoolFollowsArguments(jsonDumps: Option<Callable>, jsonLoads: Option<Callable>,
                                   kwargs: map<string, Value>, p: Pool, opening: Outcome<()>)
    requires BuiltFrom(New(jsonDumps, jsonLoads, kwargs).poolArgs, p)
    ensures var s := OpenAsync(New(jsonDumps, jsonLoads, kwargs), None, Returned(p), opening);
            && ("max_size" in kwargs && kwargs["max_size"].Int? ==> PoolMaxSize(s.next) == Some(kwargs["max_size"].i))
            && ("max_size" !in kwargs ==> PoolMaxSize(s.next) == Some(10)
                                          && Retry.Budget(PoolMaxSize(s.next)) == 11
                                          && ListenNotify(s.next) == Returned(Subscribes))
  {
  }
}
