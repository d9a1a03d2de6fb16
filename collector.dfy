/**
 * The collector snapshot of the library: a pool collector that reports ten statistics
 * per registered connection pool, and a query collector whose trace hooks update three
 * label-keyed metric vectors. Query series are labelled by database, operation name,
 * the statement text itself and the phase.
 *
 * Pools are opaque handles compared by identity; what a pool reports (its statistics
 * and its database name) is a total function from handle to `PoolView`, read at
 * collection time. `err` stands for "the hook's Err is non-nil"; `now` is the clock
 * reading of the hook.
 */
module Collector {
  import opened Wrappers
  import opened TraceCtx
  import opened MetricVec
  import OperationName

  // ---------------------------------------------------------------------------
  // Pool collector
  // ---------------------------------------------------------------------------

  /** A registered pool, by identity. */
  type PoolId = nat

  /** The ten counters of a pool's statistics snapshot. */
  datatype Stat = Stat(
    acquiredConns: nat,
    canceledAcquireCount: nat,
    constructingConns: nat,
    emptyAcquireCount: nat,
    idleConns: nat,
    maxConns: nat,
    totalConns: nat,
    newConnsCount: nat,
    maxLifetimeDestroyCount: nat,
    maxIdleDestroyCount: nat)

  /** What the collector reads from one pool: its statistics and its database name. */
  datatype PoolView = PoolView(stat: Stat, database: string)

  /** The ten metric descriptors of the pool collector. */
  datatype Desc =
    | AcquireConns | CanceledAcquireCount | ConstructingConns | EmptyAcquireCount | IdleConns
    | MaxConns | TotalConns | NewConnsCount | MaxLifetimeDestroyCount | MaxIdleDestroyCount

  datatype ValueType = GaugeValue | CounterValue

  /** One constant data point: descriptor, kind, value and the `database` label. */
  datatype ConstMetric = ConstMetric(desc: Desc, valueType: ValueType, value: nat, database: string)

  /** The descriptor order shared by `Describe` and `Collect`. */
  const Descriptors: seq<Desc> := [
    AcquireConns, CanceledAcquireCount, ConstructingConns, EmptyAcquireCount, IdleConns,
    MaxConns, TotalConns, NewConnsCount, MaxLifetimeDestroyCount, MaxIdleDestroyCount]

  /** Current levels are gauges; running totals are counters. */
  function KindOf(d: Desc): ValueType {
    match d
    case AcquireConns | ConstructingConns | IdleConns | MaxConns | TotalConns => GaugeValue
    case CanceledAcquireCount | EmptyAcquireCount | NewConnsCount | MaxLifetimeDestroyCount | MaxIdleDestroyCount => CounterValue
  }

  /** The statistic each descriptor reports. */
  function Field(s: Stat, d: Desc): nat {
    match d
    case AcquireConns => s.acquiredConns
    case CanceledAcquireCount => s.canceledAcquireCount
    case ConstructingConns => s.constructingConns
    case EmptyAcquireCount => s.emptyAcquireCount
    case IdleConns => s.idleConns
    case MaxConns => s.maxConns
    case TotalConns => s.totalConns
    case NewConnsCount => s.newConnsCount
    case MaxLifetimeDestroyCount => s.maxLifetimeDestroyCount
    case MaxIdleDestroyCount => s.maxIdleDestroyCount
  }

  /**
   * The ten data points of one pool: one per descriptor in descriptor order, each of the
   * descriptor's kind, carrying the statistic it reports and the pool's database.
   */
  function PoolSamples(v: PoolView): (r: seq<ConstMetric>)
    ensures |r| == 10
  {
    var s, db := v.stat, v.database;
    [ ConstMetric(AcquireConns, GaugeValue, s.acquiredConns, db),
      ConstMetric(CanceledAcquireCount, CounterValue, s.canceledAcquireCount, db),
      ConstMetric(ConstructingConns, GaugeValue, s.constructingConns, db),
      ConstMetric(EmptyAcquireCount, CounterValue, s.emptyAcquireCount, db),
      ConstMetric(IdleConns, GaugeValue, s.idleConns, db),
      ConstMetric(MaxConns, GaugeValue, s.maxConns, db),
      ConstMetric(TotalConns, GaugeValue, s.totalConns, db),
      ConstMetric(NewConnsCount, CounterValue, s.newConnsCount, db),
      ConstMetric(MaxLifetimeDestroyCount, CounterValue, s.maxLifetimeDestroyCount, db),
      ConstMetric(MaxIdleDestroyCount, CounterValue, s.maxIdleDestroyCount, db) ]
  }

  /**
   * Point `j` of a pool reports descriptor `j`, with that descriptor's kind and statistic,
   * labelled with the pool's database.
   */
  lemma PoolSamplesLayout(v: PoolView, j: nat)
    requires j < 10
    ensures |Descriptors| == 10
    ensures PoolSamples(v)[j] == ConstMetric(Descriptors[j], KindOf(Descriptors[j]), Field(v.stat, Descriptors[j]), v.database)
  {
  }

  /** The data points of all pools, pool after pool in list order. */
  function CollectAll(pools: seq<PoolId>, view: PoolId -> PoolView): seq<ConstMetric>
    decreases |pools|
  {
    if pools == [] then [] else CollectAll(pools[..|pools| - 1], view) + PoolSamples(view(pools[|pools| - 1]))
  }

  /**
   * Collection emits ten points per registered pool: point `j` of the `i`-th pool sits at
   * position 10*i + j, so the points of a pool are contiguous and pools appear in list order.
   */
  lemma {:induction false} CollectAllLayout(pools: seq<PoolId>, view: PoolId -> PoolView)
    ensures |CollectAll(pools, view)| == 10 * |pools|
    ensures forall i, j :: 0 <= i < |pools| && 0 <= j < 10 ==>
      CollectAll(pools, view)[10 * i + j] == PoolSamples(view(pools[i]))[j]
    decreases |pools|
  {
    if pools != [] {
      var init := pools[..|pools| - 1];
      CollectAllLayout(init, view);
      var a, b := CollectAll(init, view), PoolSamples(view(pools[|pools| - 1]));
      assert CollectAll(pools, view) == a + b;
      forall i, j | 0 <= i < |pools| && 0 <= j < 10
        ensures (a + b)[10 * i + j] == PoolSamples(view(pools[i]))[j]
      {
        if i < |init| {
          assert pools[i] == init[i];
          assert (a + b)[10 * i + j] == a[10 * i + j];
        } else {
          assert i == |init| && |a| == 10 * |init|;
          assert (a + b)[|a| + j] == b[j];
        }
      }
    }
  }

  /**
   * Every collected point reports the statistic of its descriptor, with its descriptor's
   * kind, labelled with the database of the pool it came from.
   */
  lemma CollectAllPoint(pools: seq<PoolId>, view: PoolId -> PoolView, i: nat, j: nat)
    requires i < |pools| && j < 10
    ensures 10 * i + j < |CollectAll(pools, view)|
    ensures var d := Descriptors[j];
      CollectAll(pools, view)[10 * i + j] == ConstMetric(d, KindOf(d), Field(view(pools[i]).stat, d), view(pools[i]).database)
  {
    CollectAllLayout(pools, view);
    assert CollectAll(pools, view)[10 * i + j] == PoolSamples(view(pools[i]))[j];
    PoolSamplesLayout(view(pools[i]), j);
  }

  /** The pool list with every occurrence of `p` deleted. */
  function Without(pools: seq<PoolId>, p: PoolId): seq<PoolId>
    decreases |pools|
  {
    if pools == [] then []
    else
      var rest := Without(pools[..|pools| - 1], p);
      if pools[|pools| - 1] == p then rest else rest + [pools[|pools| - 1]]
  }

  /**
   * Deletion works element by element and keeps the order: it distributes over
   * concatenation, drops `p` itself and keeps every other pool.
   */
  lemma {:induction false} WithoutAppend(xs: seq<PoolId>, ys: seq<PoolId>, p: PoolId)
    ensures Without(xs + ys, p) == Without(xs, p) + Without(ys, p)
    decreases |ys|
  {
    if ys == [] {
      assert xs + ys == xs;
    } else {
      var init := ys[..|ys| - 1];
      WithoutAppend(xs, init, p);
      assert (xs + ys)[..|xs + ys| - 1] == xs + init;
    }
  }

  lemma WithoutSingle(q: PoolId, p: PoolId)
    ensures Without([q], p) == if q == p then [] else [q]
  {
  }

  /** After deletion `p` is gone, and every other pool keeps its multiplicity. */
  lemma {:induction false} WithoutCounts(pools: seq<PoolId>, p: PoolId, q: PoolId)
    ensures multiset(Without(pools, p))[p] == 0
    ensures q != p ==> multiset(Without(pools, p))[q] == multiset(pools)[q]
    ensures |Without(pools, p)| == |pools| - multiset(pools)[p]
    decreases |pools|
  {
    if pools != [] {
      var init := pools[..|pools| - 1];
      WithoutCounts(init, p, q);
      assert pools == init + [pools[|pools| - 1]];
    }
  }

  /** Deleting a pool that is not registered changes nothing. */
  lemma {:induction false} WithoutAbsent(pools: seq<PoolId>, p: PoolId)
    requires p !in pools
    ensures Without(pools, p) == pools
    decreases |pools|
  {
    if pools != [] {
      var init := pools[..|pools| - 1];
      assert p !in init by {
        forall k | 0 <= k < |init| ensures init[k] != p { assert init[k] == pools[k]; }
      }
      WithoutAbsent(init, p);
    }
  }

  /** Deleting twice is deleting once. */
  lemma WithoutIdempotent(pools: seq<PoolId>, p: PoolId)
    ensures Without(Without(pools, p), p) == Without(pools, p)
  {
  }

  /** Adding a pool and then removing it removes every registration of it. */
  lemma AddThenRemove(pools: seq<PoolId>, p: PoolId)
    ensures Without(pools + [p], p) == Without(pools, p)
  {
  }

  /** A removed pool contributes no data points: ten fewer per registration it had. */
  lemma RemovedPoolNotCollected(pools: seq<PoolId>, p: PoolId, view: PoolId -> PoolView)
    ensures |CollectAll(Without(pools, p), view)| == 10 * (|pools| - multiset(pools)[p])
    ensures forall i :: 0 <= i < |Without(pools, p)| ==> Without(pools, p)[i] != p
  {
    WithoutCounts(pools, p, p);
    CollectAllLayout(Without(pools, p), view);
  }

  class PoolCollector {
    /** The registered pools, in registration order, duplicates included. */
    var pools: seq<PoolId>

    constructor ()
      ensures pools == []
    {
      pools := [];
    }

    /** Registers `p` once more: duplicates are kept. */
    method Add(p: PoolId)
      modifies this
      ensures pools == old(pools) + [p]
      ensures multiset(pools)[p] == multiset(old(pools))[p] + 1
    {
      pools := pools + [p];
    }

    /** Deletes every registration of `p`, keeping the other pools in order. */
    method Remove(p: PoolId)
      modifies this
      ensures pools == Without(old(pools), p)
    {
      var kept: seq<PoolId> := [];
      for i := 0 to |pools|
        invariant kept == Without(pools[..i], p)
      {
        assert pools[..i + 1][..i] == pools[..i];
        if pools[i] != p {
          kept := kept + [pools[i]];
        }
      }
      assert pools[..|pools|] == pools;
      pools := kept;
    }

    /** The ten descriptors, in the order `Collect` uses, whatever pools are registered. */
    method Describe() returns (descs: seq<Desc>)
      ensures descs == Descriptors
      ensures forall i, j :: 0 <= i < j < |descs| ==> descs[i] != descs[j]
      ensures forall d: Desc :: d in descs
    {
      descs := [];
      descs := descs + [AcquireConns];
      descs := descs + [CanceledAcquireCount];
      descs := descs + [ConstructingConns];
      descs := descs + [EmptyAcquireCount];
      descs := descs + [IdleConns];
      descs := descs + [MaxConns];
      descs := descs + [TotalConns];
      descs := descs + [NewConnsCount];
      descs := descs + [MaxLifetimeDestroyCount];
      descs := descs + [MaxIdleDestroyCount];
      forall d: Desc ensures d in descs {
        match d
        case AcquireConns => assert descs[0] == d;
        case CanceledAcquireCount => assert descs[1] == d;
        case ConstructingConns => assert descs[2] == d;
        case EmptyAcquireCount => assert descs[3] == d;
        case IdleConns => assert descs[4] == d;
        case MaxConns => assert descs[5] == d;
        case TotalConns => assert descs[6] == d;
        case NewConnsCount => assert descs[7] == d;
        case MaxLifetimeDestroyCount => assert descs[8] == d;
        case MaxIdleDestroyCount => assert descs[9] == d;
      }
    }

    /** The data points of every registered pool, read through `view` at collection time. */
    method Collect(view: PoolId -> PoolView) returns (metrics: seq<ConstMetric>)
      ensures metrics == CollectAll(pools, view)
      ensures |metrics| == 10 * |pools|
      ensures forall i, j :: 0 <= i < |pools| && 0 <= j < 10 ==> metrics[10 * i + j] == PoolSamples(view(pools[i]))[j]
    {
      metrics := [];
      for i := 0 to |pools|
        invariant metrics == CollectAll(pools[..i], view)
      {
        var v := view(pools[i]);
        metrics := metrics + PoolSamples(v);
        assert pools[..i + 1][..i] == pools[..i];
      }
      assert pools[..|pools|] == pools;
      CollectAllLayout(pools, view);
    }
  }

  // ---------------------------------------------------------------------------
  // Query collector
  // ---------------------------------------------------------------------------

  /** The series labels: database, operation name, the statement text and the phase. */
  datatype Labels = Labels(dbName: string, dbOperation: string, dbStatement: string, dbPgxOperation: Phase)

  /** The label set of one statement in one phase. */
  function LabelsOf(db: string, sql: string, phase: Phase): (l: Labels)
    ensures l.dbName == db && l.dbStatement == sql && l.dbPgxOperation == phase
    ensures l.dbOperation == OperationName.Unknown || OperationName.Match(sql) == Some(l.dbOperation)
  {
    Labels(db, OperationName.Name(sql), sql, phase)
  }

  /** One label set per queued statement, in queue order. */
  function BatchLabels(db: string, queued: seq<string>, phase: Phase): (ls: seq<Labels>)
    ensures |ls| == |queued|
    decreases |queued|
  {
    if queued == [] then []
    else BatchLabels(db, queued[..|queued| - 1], phase) + [LabelsOf(db, queued[|queued| - 1], phase)]
  }

  /** Label set `i` is the label set of queued statement `i`. */
  lemma {:induction false} BatchLabelsAt(db: string, queued: seq<string>, phase: Phase)
    ensures forall i :: 0 <= i < |queued| ==> BatchLabels(db, queued, phase)[i] == LabelsOf(db, queued[i], phase)
    decreases |queued|
  {
    if queued != [] {
      BatchLabelsAt(db, queued[..|queued| - 1], phase);
    }
  }

  lemma BatchLabelsSnoc(db: string, queued: seq<string>, i: nat, phase: Phase)
    requires i < |queued|
    ensures BatchLabels(db, queued[..i + 1], phase) == BatchLabels(db, queued[..i], phase) + [LabelsOf(db, queued[i], phase)]
  {
    assert queued[..i + 1][..i] == queued[..i];
  }

  /** Series carry the statement text, so different statements never share a series. */
  lemma StatementsNeverShareSeries(db: string, s1: string, s2: string, phase: Phase)
    ensures LabelsOf(db, s1, phase) == LabelsOf(db, s2, phase) <==> s1 == s2
  {
  }

  /** The state of the three metric vectors. */
  type Metrics = Vectors<Labels>

  function QueryStarted(m: Metrics, db: string, sql: string): Metrics {
    m.(requestTotal := Inc(m.requestTotal, LabelsOf(db, sql, QueryStart)))
  }

  function QueryEnded(m: Metrics, ctx: Context, db: string, err: bool, now: Tick): Metrics {
    match AsQueryData(ctx.Value(TraceQueryKey))
    case None => m
    case Some(data) =>
      var l := LabelsOf(db, data.sql, QueryEnd);
      m.(errorsTotal := if err then Inc(m.errorsTotal, l) else m.errorsTotal,
         duration := Observe(m.duration, l, now - data.startedAt))
  }

  function BatchStarted(m: Metrics, db: string, queued: seq<string>): Metrics {
    m.(requestTotal := IncEach(m.requestTotal, BatchLabels(db, queued, BatchStart)))
  }

  /** The batch-query hook given the batch record its lookup found (None: no duration is observed). */
  function BatchQueriedWith(m: Metrics, found: Option<TraceBatchData>, db: string, sql: string, err: bool, now: Tick): Metrics {
    var l := LabelsOf(db, sql, BatchQuery);
    var errors := if err then Inc(m.errorsTotal, l) else m.errorsTotal;
    match found
    case None => m.(errorsTotal := errors)
    case Some(data) => m.(errorsTotal := errors, duration := Observe(m.duration, l, now - data.startedAt))
  }

  /** The batch-query hook as written: it looks the batch record up under the QUERY key. */
  function BatchQueried(m: Metrics, ctx: Context, db: string, sql: string, err: bool, now: Tick): Metrics {
    BatchQueriedWith(m, AsBatchData(ctx.Value(TraceQueryKey)), db, sql, err, now)
  }

  /** The batch-query hook with the lookup under the key the batch start stores under. */
  function BatchQueriedAtBatchKey(m: Metrics, ctx: Context, db: string, sql: string, err: bool, now: Tick): Metrics {
    BatchQueriedWith(m, AsBatchData(ctx.Value(TraceBatchKey)), db, sql, err, now)
  }

  /** The batch-end hook given the record its lookup found (None: nothing happens). */
  function BatchEndedWith(m: Metrics, found: Option<TraceBatchData>, db: string, err: bool, now: Tick): Metrics {
    match found
    case None => m
    case Some(data) => EndEach(m, BatchLabels(db, data.queuedQueries, BatchEnd), err, now - data.startedAt)
  }

  /** The batch-end hook as written: it looks the batch record up under the QUERY key. */
  function BatchEnded(m: Metrics, ctx: Context, db: string, err: bool, now: Tick): Metrics {
    BatchEndedWith(m, AsBatchData(ctx.Value(TraceQueryKey)), db, err, now)
  }

  /** The batch-end hook with the lookup under the key the batch start stores under. */
  function BatchEndedAtBatchKey(m: Metrics, ctx: Context, db: string, err: bool, now: Tick): Metrics {
    BatchEndedWith(m, AsBatchData(ctx.Value(TraceBatchKey)), db, err, now)
  }

  class QueryCollector {
    var requestTotal: map<Labels, nat>
    var errorsTotal: map<Labels, nat>
    var duration: map<Labels, seq<int>>

    function Snapshot(): Metrics
      reads this
    {
      Vectors(requestTotal, errorsTotal, duration)
    }

    constructor ()
      ensures Snapshot() == Vectors(map[], map[], map[])
    {
      requestTotal, errorsTotal, duration := map[], map[], map[];
    }

    method TraceQueryStart(ctx: Context, db: string, sql: string, now: Tick) returns (child: Context)
      modifies this
      ensures Snapshot() == QueryStarted(old(Snapshot()), db, sql)
      ensures child == WithValue(ctx, TraceQueryKey, QueryData(TraceQueryData(now, sql)))
    {
      var labels := LabelsOf(db, sql, QueryStart);
      requestTotal := Inc(requestTotal, labels);
      var data := TraceQueryData(now, sql);
      child := WithValue(ctx, TraceQueryKey, QueryData(data));
    }

    method TraceQueryEnd(ctx: Context, db: string, err: bool, now: Tick)
      modifies this
      ensures Snapshot() == QueryEnded(old(Snapshot()), ctx, db, err, now)
    {
      var found := AsQueryData(ctx.Value(TraceQueryKey));
      if found.Some? {
        var data := found.value;
        var labels := LabelsOf(db, data.sql, QueryEnd);
        if err {
          errorsTotal := Inc(errorsTotal, labels);
        }
        duration := Observe(duration, labels, now - data.startedAt);
      }
    }

    method TraceBatchStart(ctx: Context, db: string, queued: seq<string>, now: Tick) returns (child: Context)
      modifies this
      ensures Snapshot() == BatchStarted(old(Snapshot()), db, queued)
      ensures child == WithValue(ctx, TraceBatchKey, BatchData(TraceBatchData(now, queued)))
    {
      var data := TraceBatchData(now, queued);
      for i := 0 to |queued|
        invariant requestTotal == IncEach(old(requestTotal), BatchLabels(db, queued[..i], BatchStart))
        invariant errorsTotal == old(errorsTotal) && duration == old(duration)
      {
        var labels := LabelsOf(db, queued[i], BatchStart);
        requestTotal := Inc(requestTotal, labels);
        BatchLabelsSnoc(db, queued, i, BatchStart);
        IncEachSnoc(old(requestTotal), BatchLabels(db, queued[..i], BatchStart), labels);
      }
      assert queued[..|queued|] == queued;
      child := WithValue(ctx, TraceBatchKey, BatchData(data));
    }

    method TraceBatchQuery(ctx: Context, db: string, sql: string, err: bool, now: Tick)
      modifies this
      ensures Snapshot() == BatchQueried(old(Snapshot()), ctx, db, sql, err, now)
    {
      var labels := LabelsOf(db, sql, BatchQuery);
      if err {
        errorsTotal := Inc(errorsTotal, labels);
      }
      var found := AsBatchData(ctx.Value(TraceQueryKey));
      if found.Some? {
        duration := Observe(duration, labels, now - found.value.startedAt);
      }
    }

    method TraceBatchEnd(ctx: Context, db: string, err: bool, now: Tick)
      modifies this
      ensures Snapshot() == BatchEnded(old(Snapshot()), ctx, db, err, now)
    {
      var found := AsBatchData(ctx.Value(TraceQueryKey));
      if found.Some? {
        var data := found.value;
        var queued := data.queuedQueries;
        var errors, durations := errorsTotal, duration;
        for i := 0 to |queued|
          modifies {}
          invariant Vectors(requestTotal, errors, durations)
                 == EndEach(Snapshot(), BatchLabels(db, queued[..i], BatchEnd), err, now - data.startedAt)
        {
          var labels := LabelsOf(db, queued[i], BatchEnd);
          if err {
            errors := Inc(errors, labels);
          }
          durations := Observe(durations, labels, now - data.startedAt);
          BatchLabelsSnoc(db, queued, i, BatchEnd);
          EndEachSnoc(Snapshot(), BatchLabels(db, queued[..i], BatchEnd), err, now - data.startedAt, labels);
        }
        assert queued[..|queued|] == queued;
        errorsTotal, duration := errors, durations;
      }
    }
  }

  /** A query start counts exactly one request, at its own labels, and touches nothing else. */
  lemma QueryStartCountsOneRequest(m: Metrics, db: string, sql: string, l: Labels)
    ensures var r := QueryStarted(m, db, sql);
      && Count(r.requestTotal, l) == Count(m.requestTotal, l) + (if l == LabelsOf(db, sql, QueryStart) then 1 else 0)
      && Total(r.requestTotal) == Total(m.requestTotal) + 1
      && r.errorsTotal == m.errorsTotal && r.duration == m.duration
  {
    IncTotal(m.requestTotal, LabelsOf(db, sql, QueryStart));
  }

  /** Without a query record under the query key, a query end changes nothing. */
  lemma QueryEndWithoutRecordChangesNothing(m: Metrics, ctx: Context, db: string, err: bool, now: Tick)
    requires AsQueryData(ctx.Value(TraceQueryKey)) == None
    ensures QueryEnded(m, ctx, db, err, now) == m
  {
  }

  /**
   * With a query record, a query end counts one error iff `err` and observes exactly one
   * duration, both at the end labels of the record's SQL; requests are untouched.
   */
  lemma QueryEndWithRecord(m: Metrics, ctx: Context, db: string, err: bool, now: Tick, data: TraceQueryData, l: Labels)
    requires AsQueryData(ctx.Value(TraceQueryKey)) == Some(data)
    ensures var r := QueryEnded(m, ctx, db, err, now);
      var e := LabelsOf(db, data.sql, QueryEnd);
      && r.requestTotal == m.requestTotal
      && Count(r.errorsTotal, l) == Count(m.errorsTotal, l) + (if err && l == e then 1 else 0)
      && Total(r.errorsTotal) == Total(m.errorsTotal) + (if err then 1 else 0)
      && Observations(r.duration, l) == Observations(m.duration, l) + (if l == e then [now - data.startedAt] else [])
  {
    if err {
      IncTotal(m.errorsTotal, LabelsOf(db, data.sql, QueryEnd));
    }
  }

  /** A batch start counts one request per queued query, each at its own labels. */
  lemma BatchStartCountsEachQuery(m: Metrics, db: string, queued: seq<string>, l: Labels)
    ensures var r := BatchStarted(m, db, queued);
      && Count(r.requestTotal, l) == Count(m.requestTotal, l) + multiset(BatchLabels(db, queued, BatchStart))[l]
      && Total(r.requestTotal) == Total(m.requestTotal) + |queued|
      && r.errorsTotal == m.errorsTotal && r.duration == m.duration
  {
    IncEachCount(m.requestTotal, BatchLabels(db, queued, BatchStart), l);
    IncEachTotal(m.requestTotal, BatchLabels(db, queued, BatchStart));
  }

  /**
   * A batch query counts one error iff `err`, and observes a duration only when the
   * query key holds a batch record.
   */
  lemma BatchQueryEffect(m: Metrics, ctx: Context, db: string, sql: string, err: bool, now: Tick, l: Labels)
    ensures var r := BatchQueried(m, ctx, db, sql, err, now);
      var q := LabelsOf(db, sql, BatchQuery);
      var found := AsBatchData(ctx.Value(TraceQueryKey));
      && r.requestTotal == m.requestTotal
      && Count(r.errorsTotal, l) == Count(m.errorsTotal, l) + (if err && l == q then 1 else 0)
      && Total(r.errorsTotal) == Total(m.errorsTotal) + (if err then 1 else 0)
      && Observations(r.duration, l) == Observations(m.duration, l) + (if l == q && found.Some? then [now - found.value.startedAt] else [])
  {
    if err {
      IncTotal(m.errorsTotal, LabelsOf(db, sql, BatchQuery));
    }
  }

  /** In a context built by this package's own start hooks, a batch query never observes a duration. */
  lemma BatchQueryNeverObserves(m: Metrics, ctx: Context, db: string, sql: string, err: bool, now: Tick)
    requires NoBatchUnderQueryKey(ctx)
    ensures BatchQueried(m, ctx, db, sql, err, now).duration == m.duration
  {
  }

  /**
   * With the lookup under the batch key, a batch query after a batch start observes one
   * non-negative duration, the time since the batch started, at its own labels.
   */
  lemma BatchQueryAtBatchKeyObserves(m: Metrics, ctx: Context, db: string, queued: seq<string>, t0: Tick, sql: string, err: bool, t1: Tick, l: Labels)
    requires t0 <= t1
    ensures var child := WithValue(ctx, TraceBatchKey, BatchData(TraceBatchData(t0, queued)));
      var r := BatchQueriedAtBatchKey(m, child, db, sql, err, t1);
      var q := LabelsOf(db, sql, BatchQuery);
      && r.requestTotal == m.requestTotal
      && Count(r.errorsTotal, l) == Count(m.errorsTotal, l) + (if err && l == q then 1 else 0)
      && Observations(r.duration, l) == Observations(m.duration, l) + (if l == q then [t1 - t0] else [])
      && t1 - t0 >= 0
  {
  }

  /**
   * As written: the batch end looks under the query key, so after a batch start (which
   * stores under the batch key) it counts no error and observes no duration.
   */
  lemma BatchEndAfterBatchStartChangesNothing(m: Metrics, ctx: Context, db: string, queued: seq<string>, t0: Tick, err: bool, t1: Tick)
    requires NoBatchUnderQueryKey(ctx)
    ensures BatchEnded(m, WithValue(ctx, TraceBatchKey, BatchData(TraceBatchData(t0, queued))), db, err, t1) == m
  {
  }

  /**
   * With the lookup under the batch key, a batch end after a batch start of N queries
   * counts N errors iff `err` and observes the same non-negative elapsed time N times.
   */
  lemma BatchEndAtBatchKeyCountsEachQuery(m: Metrics, ctx: Context, db: string, queued: seq<string>, t0: Tick, err: bool, t1: Tick, l: Labels)
    requires t0 <= t1
    ensures var child := WithValue(ctx, TraceBatchKey, BatchData(TraceBatchData(t0, queued)));
      var r := BatchEndedAtBatchKey(m, child, db, err, t1);
      var ls := BatchLabels(db, queued, BatchEnd);
      && r.requestTotal == m.requestTotal
      && Count(r.errorsTotal, l) == Count(m.errorsTotal, l) + (if err then multiset(ls)[l] else 0)
      && Total(r.errorsTotal) == Total(m.errorsTotal) + (if err then |queued| else 0)
      && Observations(r.duration, l) == Observations(m.duration, l) + Repeat(t1 - t0, multiset(ls)[l])
      && t1 - t0 >= 0
  {
    var child := WithValue(ctx, TraceBatchKey, BatchData(TraceBatchData(t0, queued)));
    assert AsBatchData(child.Value(TraceBatchKey)) == Some(TraceBatchData(t0, queued));
    EndEachEffect(m, BatchLabels(db, queued, BatchEnd), err, t1 - t0, l);
  }
}
