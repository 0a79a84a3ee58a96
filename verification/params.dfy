/**
 `Psycopg3Connector._wrap_json` (procrastinate/psycopg3_connector.py): before
 a query is sent, every dict-valued parameter is marked for JSON encoding
 with the connector's `json_dumps`; every other parameter is sent as is.
 */
module Params {
  import opened Values

  /** The value sent for one parameter. */
  function WrapValue(v: Value, dumps: Option<Callable>): (r: Value)
    ensures !r.Dict?
    ensures v.Dict? ==> r.Jsonb? && r.obj == v && r.dumps == dumps
    ensures !v.Dict? ==> r == v
  {
    if v.Dict? then Jsonb(v, dumps) else v
  }

  function WrapJson(arguments: map<string, Value>, dumps: Option<Callable>): (r: map<string, Value>)
    ensures r.Keys == arguments.Keys
    ensures forall k :: k in arguments && arguments[k].Dict? ==> r[k] == Jsonb(arguments[k], dumps)
    ensures forall k :: k in arguments && !arguments[k].Dict? ==> r[k] == arguments[k]
  {
    map k | k in arguments :: WrapValue(arguments[k], dumps)
  }

  /** No parameter reaches the driver as a bare dict. */
  lemma WrapJsonLeavesNoDict(arguments: map<string, Value>, dumps: Option<Callable>)
    ensures forall k :: k in WrapJson(arguments, dumps) ==> !WrapJson(arguments, dumps)[k].Dict?
  {
  }

  /** Adapting already adapted parameters changes nothing. */
  lemma WrapJsonIdempotent(arguments: map<string, Value>, dumps: Option<Callable>)
    ensures WrapJson(WrapJson(arguments, dumps), dumps) == WrapJson(arguments, dumps)
  {
  }

  /** A parameter the caller already wrapped as JSON around a dict: adapting
      cannot tell it apart from a wrapped dict. */
  predicate PreWrappedDict(v: Value)
  {
    v.Jsonb? && v.obj.Dict?
  }

  /** The left inverse of `WrapJson` on parameters without a pre-wrapped dict:
      a `Jsonb` around a dict gives back the dict, anything else is kept. */
  function UnwrapJson(sent: map<string, Value>): (r: map<string, Value>)
    ensures r.Keys == sent.Keys
  {
    map k | k in sent :: if PreWrappedDict(sent[k]) then sent[k].obj else sent[k]
  }

  /** Adapting loses nothing: unless the caller pre-wrapped a dict itself, the
      original parameters are recovered from what is sent. */
  lemma WrapJsonRoundTrip(arguments: map<string, Value>, dumps: Option<Callable>)
    requires forall k :: k in arguments ==> !PreWrappedDict(arguments[k])
    ensures UnwrapJson(WrapJson(arguments, dumps)) == arguments
  {
    var sent := WrapJson(arguments, dumps);
    var back := UnwrapJson(sent);
    forall k | k in arguments
      ensures back[k] == arguments[k]
    {
      if arguments[k].Dict? {
        assert sent[k] == Jsonb(arguments[k], dumps);
      } else {
        assert sent[k] == arguments[k];
      }
    }
  }
}
