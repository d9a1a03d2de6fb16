/**
 * The correlation records and their context keys, and the request-scoped context
 * that carries a record from a start hook to the matching end hook.
 */
module TraceCtx {
  import opened Wrappers

  /** A point in time, in abstract clock ticks. */
  type Tick = nat

  /** The identity of a context key: Go compares pointer keys by address. */
  type Addr = nat

  /** The package path reported for the package's own record types. */
  const PackagePath: string := "github.com/pgx-contrib/pgxprom"

  /** A context key: the address of the key object and its `name` field. */
  datatype ContextKey = ContextKey(addr: Addr, name: string) {
    /** The text of the key. */
    function String(): (text: string)
      ensures text == name
    {
      name
    }
  }

  /** Two separately allocated key objects, both named after the package path. */
  const TraceQueryKey: ContextKey := ContextKey(1, PackagePath)
  const TraceBatchKey: ContextKey := ContextKey(2, PackagePath)

  /** The record a query start leaves for the query end (the untyped argument list is not kept). */
  datatype TraceQueryData = TraceQueryData(startedAt: Tick, sql: string)

  /** The record a batch start leaves for the batch hooks, with the SQL of its queued queries. */
  datatype TraceBatchData = TraceBatchData(startedAt: Tick, queuedQueries: seq<string>)

  /** A value stored in a context: one of the two record pointers, or a value of some other package. */
  datatype Any = QueryData(query: TraceQueryData) | BatchData(batch: TraceBatchData) | Foreign(tag: nat)

  /** An immutable request-scoped carrier: key address to value. */
  datatype Context = Context(values: map<Addr, Any>) {
    /** `ctx.Value(key)`: None stands for Go's nil. */
    function Value(key: ContextKey): Option<Any> {
      if key.addr in values then Some(values[key.addr]) else None
    }
  }

  /** The root context: nothing is stored in it. */
  const Background: Context := Context(map[])

  /** `context.WithValue`: a child context in which `key` maps to `v`. */
  function WithValue(parent: Context, key: ContextKey, v: Any): (child: Context)
    ensures child.Value(key) == Some(v)
    ensures forall k: ContextKey :: k.addr != key.addr ==> child.Value(k) == parent.Value(k)
  {
    Context(parent.values[key.addr := v])
  }

  /** The type assertion `v.(*TraceQueryData)`. */
  function AsQueryData(v: Option<Any>): (r: Option<TraceQueryData>)
    ensures r.Some? <==> v.Some? && v.value.QueryData?
    ensures r.Some? ==> v == Some(QueryData(r.value))
  {
    match v
    case Some(QueryData(d)) => Some(d)
    case _ => None
  }

  /** The type assertion `v.(*TraceBatchData)`. */
  function AsBatchData(v: Option<Any>): (r: Option<TraceBatchData>)
    ensures r.Some? <==> v.Some? && v.value.BatchData?
    ensures r.Some? ==> v == Some(BatchData(r.value))
  {
    match v
    case Some(BatchData(d)) => Some(d)
    case _ => None
  }

  /** The two keys print the same text yet are different keys. */
  lemma KeysShareTextOnly()
    ensures TraceQueryKey.String() == TraceBatchKey.String() == PackagePath
    ensures TraceQueryKey != TraceBatchKey && TraceQueryKey.addr != TraceBatchKey.addr
  {
  }

  /** A record stored under one key is never found under the other. */
  lemma KeysDoNotAlias(ctx: Context, v: Any)
    ensures WithValue(ctx, TraceBatchKey, v).Value(TraceQueryKey) == ctx.Value(TraceQueryKey)
    ensures WithValue(ctx, TraceQueryKey, v).Value(TraceBatchKey) == ctx.Value(TraceBatchKey)
  {
  }

  /** No batch record sits under the query key. */
  predicate NoBatchUnderQueryKey(ctx: Context) {
    AsBatchData(ctx.Value(TraceQueryKey)) == None
  }

  /** The root context holds no record under either key. */
  lemma BackgroundHoldsNoRecord()
    ensures Background.Value(TraceQueryKey) == None && Background.Value(TraceBatchKey) == None
    ensures NoBatchUnderQueryKey(Background)
  {
  }

  /**
   * Storing a query record under the query key, or a batch record under the batch key
   * (the only two stores this package makes), never puts a batch record under the query key.
   */
  lemma StoresKeepQueryKeyFreeOfBatches(ctx: Context, q: TraceQueryData, b: TraceBatchData)
    requires NoBatchUnderQueryKey(ctx)
    ensures NoBatchUnderQueryKey(WithValue(ctx, TraceQueryKey, QueryData(q)))
    ensures NoBatchUnderQueryKey(WithValue(ctx, TraceBatchKey, BatchData(b)))
  {
  }
}
