/**
 `Psycopg3Connector._adapt_pool_args` (procrastinate/psycopg3_connector.py):
 the keyword arguments given to the connector become the arguments of
 `psycopg_pool.AsyncConnectionPool`, with procrastinate's defaults underneath
 and the caller's `configure` hook replaced by a composed one.
 */
module PoolArgs {
  import opened Values

  const DictRow := Callable("dict_row")

  /** The default connection arguments: rows fetched as dicts. */
  const RowsAsDicts := Dict(map[Str("row_factory") := Fn(DictRow)])

  const DefaultKeys: set<string> := {"conninfo", "min_size", "max_size", "kwargs", "configure", "open"}

  /** The defaults: an empty `conninfo`, `min_size` 1, `max_size` 10,
      rows as dicts, the given `configure` hook, and a pool that is not
      opened on construction. */
  function Defaults(configure: Value): (d: map<string, Value>)
    ensures d.Keys == DefaultKeys
  {
    map[
      "conninfo" := Str(""),
      "min_size" := Int(1),
      "max_size" := Int(10),
      "kwargs" := RowsAsDicts,
      "configure" := configure,
      "open" := Bool(false)
    ]
  }

  /** The composed hook: it runs the caller's hook (`pool_args.pop("configure", None)`)
      and then installs `json_loads` on each new connection. */
  function ComposedConfigure(poolArgs: map<string, Value>, jsonLoads: Option<Callable>): (r: Value)
    ensures r.ConfigureHook? && r.jsonLoads == jsonLoads
    // the caller's hook still runs; there is none when the caller gave none
    ensures "configure" in poolArgs ==> r.base == poolArgs["configure"]
    ensures "configure" !in poolArgs ==> r.base == NoneValue
  {
    ConfigureHook(if "configure" in poolArgs then poolArgs["configure"] else NoneValue, jsonLoads)
  }

  function AdaptPoolArgs(poolArgs: map<string, Value>, jsonLoads: Option<Callable>): (r: map<string, Value>)
    ensures r.Keys == poolArgs.Keys + DefaultKeys
    // the caller's arguments win, except `configure`
    ensures forall k :: k in poolArgs && k != "configure" ==> r[k] == poolArgs[k]
    // `configure` is always the composed hook, carrying the caller's hook if any
    ensures r["configure"].ConfigureHook? && r["configure"].jsonLoads == jsonLoads
    ensures "configure" in poolArgs ==> r["configure"].base == poolArgs["configure"]
    ensures "configure" !in poolArgs ==> r["configure"].base == NoneValue
    // defaults fill what the caller left out
    ensures "conninfo" !in poolArgs ==> r["conninfo"] == Str("")
    ensures "min_size" !in poolArgs ==> r["min_size"] == Int(1)
    ensures "max_size" !in poolArgs ==> r["max_size"] == Int(10)
    ensures "kwargs" !in poolArgs ==> r["kwargs"] == RowsAsDicts
    ensures "open" !in poolArgs ==> r["open"] == Bool(false)
  {
    Defaults(ComposedConfigure(poolArgs, jsonLoads)) + (poolArgs - {"configure"})
  }

  /** Adapting twice only nests the `configure` hook: every other argument is
      settled by the first adaptation. */
  lemma AdaptPoolArgsSettled(poolArgs: map<string, Value>, jsonLoads: Option<Callable>)
    ensures var once := AdaptPoolArgs(poolArgs, jsonLoads);
            var twice := AdaptPoolArgs(once, jsonLoads);
            twice.Keys == once.Keys
            && (forall k :: k in once && k != "configure" ==> twice[k] == once[k])
            && twice["configure"] == ConfigureHook(once["configure"], jsonLoads)
  {
  }
}
