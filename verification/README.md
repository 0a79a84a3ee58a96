# procrastinate's psycopg3 connector, modelled in Dafny

This project models the decision logic of procrastinate's asynchronous
PostgreSQL connector (`procrastinate/psycopg3_connector.py`). Procrastinate
is a job queue that uses PostgreSQL as its backend. The database driver
(psycopg 3) and its connection pool are abstract values here. Everything
they do appears as a parameter: constructing a pool, `pool.open()`,
`pool.close()`, and the outcome of each try of a query.

Modules, one per component of the file:

- `Errors` (errors.dfy): the exceptions that cross the connector, and
  `Outcome<T>`. An outcome is what awaiting a coroutine gives: a returned
  value or a raised exception.
- `Classifier` (classifier.dfy): the `wrap_exceptions` decorator. A driver
  `UniqueViolation` becomes procrastinate's `UniqueViolation` with the same
  constraint name. Any other `psycopg.Error` becomes a `ConnectorException`
  raised from it. Everything else passes through.
- `Retry` (retry.dfy): the `wrap_query_exceptions` decorator. It is modelled
  twice. `WrapQueryExceptions` is a method whose loop follows the source's
  `for` loop. `Retried` is a recursive reference function. The method's
  contract ties the two together. The lemmas state the retry policy in terms
  of the per-try outcomes `attempt(0)`, `attempt(1)`, and so on. `QueryPath`
  composes the classifier around the retrier, in the source's decorator
  order.
- `Params` (params.dfy): `_wrap_json`, which marks dict-valued query
  parameters for JSON encoding.
- `PoolArgs` (poolargs.dfy): `_adapt_pool_args`, procrastinate's defaults
  for the pool constructor.
- `Psycopg3Connector` (connector.dfy): the connector's state
  `(pool, externallySet)`, `open_async`, `close_async`, the `pool` property,
  the `max_size == 1` guard of `listen_notify`, and the three query entry
  points.
- `Strings` (strings.dfy) and `Values` (values.dfy): Python's substring test,
  `str()` of an `int`, and the Python values passed around.

A stale connection is recognised the way the source does it. The error must
be an `OperationalError`, and its text must contain
"server closed the connection unexpectedly". `Strings.Contains` implements
`in` on strings and is proved equal to substring occurrence.

Behaviour of the code that is easy to misread:

- `open_async` is not wrapped by `wrap_exceptions`. An error from
  `pool.open()` reaches the caller unclassified, possibly as a driver error.
  Of the lifecycle methods, only `_create_pool` and `close_async` are wrapped.
- Closing an adopted pool does nothing, and it never resets the
  "externally set" flag. The adopted pool therefore stays set forever, and
  every later `open_async` is a no-op (`SuppliedPoolSticks`).
- After k stale connections, a query that then succeeds runs exactly k+1
  times.
- `max_tries` is 1 when there is no pool. A non-positive `max_tries` makes
  no try at all. It raises a `ConnectorException` with no cause.
- A caller's `kwargs` pool argument replaces the whole default `kwargs`
  dict, including `row_factory=dict_row`. The two are not merged.
- The driver's constraint name (`exc.diag.constraint_name`) may be `None`.
  It is modelled as an `Option`.

## Model

| member | source | states |
|---|---|---|
| Classifier.Classify | procrastinate/psycopg3_connector.py:34-37 | a driver unique violation becomes procrastinate's UniqueViolation with the same constraint name, checked before the generic case; any other psycopg error becomes a ConnectorException caused by it; anything else is unchanged; the result is never a driver error |
| Classifier.WrapExceptions | procrastinate/psycopg3_connector.py:30-37 | a returned value passes through untouched; a raised exception is replaced by its classification |
| Classifier.NoDriverErrorEscapes | procrastinate/psycopg3_connector.py:23-37 | no psycopg error ever leaves a wrapped coroutine |
| Classifier.WrapExceptionsIdempotent | procrastinate/psycopg3_connector.py:30-37 | wrapping an already wrapped coroutine changes nothing |
| Classifier.ConnectorExceptionChainsDriverError | procrastinate/psycopg3_connector.py:36-37 | a generic ConnectorException arises exactly from non-unique-violation driver errors and is raised from the original error |
| Strings.Contains | procrastinate/psycopg3_connector.py:69 | the `in` test on the error text: it holds when the text is the marker itself, and never when the marker is longer than the text |
| Strings.ContainsIffOccurs | procrastinate/psycopg3_connector.py:69 | the `in` test used on the error text holds exactly when the marker occurs somewhere in the text |
| Strings.IntToDecimal | procrastinate/psycopg3_connector.py:74 | `str()` of an int as the f-string renders it: never empty, with a leading minus sign exactly for negative numbers |
| Strings.IntToDecimalRoundTrip | procrastinate/psycopg3_connector.py:74 | the number formatted into the exhaustion message can be read back as the same int |
| Retry.MaxTries | procrastinate/psycopg3_connector.py:61-64 | the try budget is the pool's max_size plus one, or 1 when max_size cannot be read |
| Retry.Budget | procrastinate/psycopg3_connector.py:65 | `range(max_tries)` runs max_tries times, or zero times when max_tries is not positive |
| Retry.Exhausted | procrastinate/psycopg3_connector.py:73-75 | the exhaustion error is a ConnectorException chained to the last stale error, whose message contains max_tries |
| Retry.TriesMessageInjective | procrastinate/psycopg3_connector.py:73-75 | different max_tries values give different exhaustion messages |
| Retry.RetryFrom | procrastinate/psycopg3_connector.py:65-75 | the loop from a given try on: a stale error never surfaces; every try but the last met a stale connection; a returned value is the last try's value |
| Retry.Retried | procrastinate/psycopg3_connector.py:59-75 | the whole retry loop: a stale error never reaches the caller; every try but the last met a stale connection; a returned value is the last try's value |
| Retry.WrapQueryExceptions | procrastinate/psycopg3_connector.py:59-75 | the loop makes at most budget tries; every try but the last met a stale connection; a non-stale last try's value or error is what surfaces; a stale last try means the budget was spent and the chained ConnectorException is raised; the result agrees with the reference `Retried` |
| Retry.RetryWithinBudget | procrastinate/psycopg3_connector.py:61-65 | the number of tries never exceeds max_size + 1, or 1 without a pool |
| Retry.FirstSettledTryDecides | procrastinate/psycopg3_connector.py:65-72 | if try k is the first within budget that is not stale, its outcome surfaces after exactly k+1 tries |
| Retry.ReturnsAfterStaleFailures | procrastinate/psycopg3_connector.py:65-71 | k stale failures followed by a value, with k < max_tries, return that value after k+1 tries |
| Retry.OtherErrorPropagates | procrastinate/psycopg3_connector.py:66-72 | an error that is not a stale connection propagates from the try where it occurs, and no further try is made |
| Retry.ExhaustedAfterAllStale | procrastinate/psycopg3_connector.py:65-75 | if every try is stale, exactly max_tries tries run, then a ConnectorException naming max_tries is raised from the last stale error |
| Retry.NoTriesWithoutBudget | procrastinate/psycopg3_connector.py:62-75 | with a non-positive max_tries the query never runs, and a ConnectorException without a cause is raised |
| Retry.QueryPath | procrastinate/psycopg3_connector.py:216-217 | `wrap_exceptions` over `wrap_query_exceptions`: no driver error escapes; the caller gets a value exactly when the retrier returns one, and it is that value |
| Retry.QueryPathExhausted | procrastinate/psycopg3_connector.py:216-241 | through the composed decorators, the retrier's exhaustion error reaches the caller unchanged, because it is not a psycopg error |
| Retry.QueryPathClassifiesSettlingError | procrastinate/psycopg3_connector.py:216-241 | the error that stops the retrier is classified before it reaches the caller |
| Retry.QueryPathHidesDriverErrors | procrastinate/psycopg3_connector.py:216-241 | a query entry point never raises a psycopg error |
| Params.WrapValue | procrastinate/psycopg3_connector.py:210-212 | a dict parameter, whatever its keys, becomes a Jsonb of itself with the configured dumps; any other value is sent as is; the result is never a bare dict |
| Params.WrapJson | procrastinate/psycopg3_connector.py:208-214 | the parameter names are kept; exactly the dict-valued parameters, whatever their keys, are wrapped as Jsonb with the configured dumps; all others are identical |
| Params.WrapJsonLeavesNoDict | procrastinate/psycopg3_connector.py:208-214 | no parameter reaches the driver as a bare dict |
| Params.WrapJsonIdempotent | procrastinate/psycopg3_connector.py:208-214 | adapting parameters twice is the same as adapting them once |
| Params.WrapJsonRoundTrip | procrastinate/psycopg3_connector.py:208-214 | unwrapping the Jsonb values recovers the original parameters, unless the caller pre-wrapped a dict |
| PoolArgs.Defaults | procrastinate/psycopg3_connector.py:148-156 | the default pool arguments are exactly conninfo, min_size, max_size, kwargs, configure and open |
| PoolArgs.ComposedConfigure | procrastinate/psycopg3_connector.py:139-146 | the composed `configure` hook installs the configured json_loads and still runs the caller's hook, popped from the pool arguments; without one it runs no hook |
| PoolArgs.AdaptPoolArgs | procrastinate/psycopg3_connector.py:139-158 | the caller's keys win over the defaults `conninfo=""`, `min_size=1`, `max_size=10`, `kwargs={row_factory: dict_row}` and `open=False`; `configure` is always the composed hook, which carries the caller's hook (popped) and json_loads |
| PoolArgs.AdaptPoolArgsSettled | procrastinate/psycopg3_connector.py:139-158 | adapting adapted arguments again only nests the configure hook |
| Psycopg3Connector.New | procrastinate/psycopg3_connector.py:126-130 | a new connector has no pool, is not externally set, keeps json_dumps and json_loads, and its pool arguments are exactly `_adapt_pool_args` of the keyword arguments, so the defaults reach the connector |
| Psycopg3Connector.OpenAsync | procrastinate/psycopg3_connector.py:160-180 | a no-op when a pool is set; a supplied pool is adopted and marked external; otherwise a pool is built, and a build error is classified and leaves no pool; a pool.open() error is unclassified and leaves the pool set; configuration never changes |
| Psycopg3Connector.CloseAsync | procrastinate/psycopg3_connector.py:189-198 | a no-op without a pool or with an external pool; otherwise a successful close clears the pool, and a failing close keeps it and raises the classified error |
| Psycopg3Connector.PoolOf | procrastinate/psycopg3_connector.py:200-206 | the accessor raises AppNotOpen exactly when no pool is set, and otherwise returns the set pool |
| Psycopg3Connector.ListenNotify | procrastinate/psycopg3_connector.py:243-255 | without a pool it raises AppNotOpen; with a pool it returns without acquiring a connection exactly when max_size == 1 |
| Psycopg3Connector.PoolMaxSize | procrastinate/psycopg3_connector.py:61-64 | max_size is readable exactly when a pool is set, and is that pool's max_size |
| Psycopg3Connector.QueryTryAt | procrastinate/psycopg3_connector.py:219-221 | without a pool a try raises AppNotOpen; with one, the driver work runs on that pool with the adapted parameters |
| Psycopg3Connector.Query | procrastinate/psycopg3_connector.py:216-241 | a query never raises a driver error; it raises AppNotOpen on a connector without a pool; after k stale tries within budget, the settling try decides: its value is returned, its error classified; when every try within the budget is stale, the exhaustion ConnectorException is raised, chained to the last stale error |
| Psycopg3Connector.SettlingTryDecidesQuery | procrastinate/psycopg3_connector.py:216-241 | for every k: if tries 0..k-1 on the pool are stale and try k is not, and k is within the budget, the query surfaces try k's outcome after classification |
| Psycopg3Connector.ExhaustedQuery | procrastinate/psycopg3_connector.py:65-75 | when every try within the budget meets a stale connection, the query raises the ConnectorException naming max_tries, raised from the last stale error (from none when no try is allowed), unchanged by the outer classifier |
| Psycopg3Connector.ExecuteQueryAsync | procrastinate/psycopg3_connector.py:216-221 | never raises a driver error; raises AppNotOpen without a pool; after k stale tries, the settling try's outcome surfaces, classified; when every try within the budget is stale, the exhaustion ConnectorException is raised, chained to the last stale error |
| Psycopg3Connector.ExecuteQueryOneAsync | procrastinate/psycopg3_connector.py:223-231 | never raises a driver error; raises AppNotOpen without a pool; after k stale tries, the settling try's outcome surfaces, classified; when every try within the budget is stale, the exhaustion ConnectorException is raised, chained to the last stale error; when the settling try finds no row, None is returned rather than an error |
| Psycopg3Connector.ExecuteQueryAllAsync | procrastinate/psycopg3_connector.py:233-241 | never raises a driver error; raises AppNotOpen without a pool; after k stale tries, the settling try's outcome surfaces, classified; when every try within the budget is stale, the exhaustion ConnectorException is raised, chained to the last stale error; when the settling try finds no row, the empty list is returned |
| Psycopg3Connector.QueryWithoutPool | procrastinate/psycopg3_connector.py:59-72 | whenever the connector has no pool, a query tries exactly once and surfaces AppNotOpen |
| Psycopg3Connector.QueryTriesWithinPoolBudget | procrastinate/psycopg3_connector.py:61-65 | with a pool of max_size n, a query runs at most n+1 times |
| Psycopg3Connector.TransitionsPreserveValid | procrastinate/psycopg3_connector.py:170-198 | opening and closing never leave the "externally set" flag on without a pool |
| Psycopg3Connector.OpenIsIdempotent | procrastinate/psycopg3_connector.py:170-171 | once an open has set a pool, a second open is a no-op and keeps the same pool |
| Psycopg3Connector.CloseLeavesSuppliedPool | procrastinate/psycopg3_connector.py:194-195 | closing an adopted pool never awaits pool.close() and leaves the pool set |
| Psycopg3Connector.SuppliedPoolSticks | procrastinate/psycopg3_connector.py:170-195 | after adopting pool p, then closing, then opening again with any arguments, p is still the pool |
| Psycopg3Connector.CloseThenOpenRecreates | procrastinate/psycopg3_connector.py:194-198 | closing a pool the connector built clears it, so the next open calls the pool constructor again and adopts its result as an owned pool |
| Psycopg3Connector.OpenedPoolFollowsArguments | procrastinate/psycopg3_connector.py:148-180 | a connector opened onto a pool built from its own arguments has the caller's max_size, or 10 by default; a default connector therefore tries a query up to 11 times and keeps listen/notify enabled |

## Left out

- The perpetual reconnect loop of `listen_notify` and `_loop_notify`
  (lines 257-288). Both are unbounded asynchronous loops over a notification
  stream and an `asyncio.Event`, so they are concurrency and I/O. Only the
  guard at the head of `listen_notify` is modelled. `Subscribes` stands for
  "acquires a dedicated connection and enters the loop".
- The psycopg and psycopg_pool calls themselves. This covers the pool
  constructor, `pool.open()` and `pool.close()`, connection acquisition,
  cursors, `execute`, `fetchone` and `fetchall`, `set_autocommit`,
  `set_json_loads`, Jsonb encoding and identifier quoting. They are foreign
  library behaviour. Their outcomes are parameters of the model.
- The SQL text passed to the query entry points. It reaches the driver
  unchanged, and only the driver interprets it.
- The body of the composed `configure` hook (lines 141-146). The model
  records only what the hook is built from: the caller's hook and
  `json_loads`.
- The implicit exception context. The source raises procrastinate's
  `UniqueViolation` inside an `except` block without `from`, so Python sets
  `__context__` but no cause. The model keeps neither.
- How procrastinate's own exception classes relate to each other.
  `procrastinate/exceptions.py` is not part of this model.
- Python truthiness of pool objects. `if self._pool` and `if pool` are
  modelled as "a pool is present". This holds because pool objects are
  always truthy.
- The link between the `max_size` pool argument and the built pool's
  `max_size`. Pool construction belongs to psycopg_pool, so `OpenAsync` accepts
  any pool the constructor returns. `BuiltFrom` states the link as an
  assumption, and `OpenedPoolFollowsArguments` shows its consequences.
- Concurrency between queries sharing the pool. Each try of a query is an
  independent outcome.
- Logging, `__del__`, and the unused `LISTEN_TIMEOUT` and `PERCENT_PATTERN`.
