/**
 The Python values that flow through the connector: query parameters,
 pool-constructor keyword arguments and the callables configured by the
 user. Callables and driver objects are opaque; only their identity matters.
 */
module Values {

  datatype Option<+T> = None | Some(value: T)

  /** An opaque Python callable (a user's `json_dumps`, `json_loads` or
      `configure`, or a library function such as `psycopg.rows.dict_row`),
      identified by name. */
  datatype Callable = Callable(name: string)

  datatype Value =
    | NoneValue
    | Bool(b: bool)
    | Int(i: int)
    | Str(s: string)
    /** A Python `dict` (or a subclass of it), whatever its keys. */
    | Dict(entries: map<Value, Value>)
    | Fn(callable: Callable)
    /** `psycopg.types.json.Jsonb(obj, dumps=...)`: a value marked for JSON encoding. */
    | Jsonb(obj: Value, dumps: Option<Callable>)
    /** The `configure` hook the connector composes from the user's hook
        (`NoneValue` when there was none) and the configured `json_loads`. */
    | ConfigureHook(base: Value, jsonLoads: Option<Callable>)
    /** Any other object (lists, tuples, driver objects, ...). */
    | Other(repr: string)
}
