/**
 * The query and batch tracer: three label-keyed metric vectors (requests, request
 * errors, request durations) updated by the driver's trace hooks. Series are labelled
 * by database, operation name and phase.
 *
 * Each hook is a method on the `Tracer` class; what it does to the three vectors is the
 * matching hook function on `Metrics` values, and the lemmas state what those promise.
 * `err` stands for "the hook's Err is non-nil"; `now` is the clock reading of the hook.
 */
module Tracer {
  import opened Wrappers
  import opened TraceCtx
  import opened MetricVec
  import OperationName

  datatype Labels = Labels(dbName: string, dbOperation: string, dbOperationPhase: Phase)

  /** The label set of one statement in one phase. */
  function LabelsOf(db: string, sql: string, phase: Phase): (l: Labels)
    ensures l.dbName == db && l.dbOperationPhase == phase
    ensures l.dbOperation == OperationName.Unknown || OperationName.Match(sql) == Some(l.dbOperation)
  {
    Labels(db, OperationName.Name(sql), phase)
  }

  /** One label set per queued statement, in queue order. */
  function BatchLabels(db: string, queued: seq<string>, phase: Phase): (ls: seq<Labels>)
    ensures |ls| == |queued|
    decreases |queued|
  {
    if queued == [] then []
    else BatchLabels(db, queued[..|queued| - 1], phase) + [LabelsOf(db, queued[|queued| - 1], phase)]
  }

  /** Label set `i` is the label set of queued statement `i`. */
  lemma {:induction false} BatchLabelsAt(db: string, queued: seq<string>, phase: Phase)
    ensures forall i :: 0 <= i < |queued| ==> BatchLabels(db, queued, phase)[i] == LabelsOf(db, queued[i], phase)
    decreases |queued|
  {
    if queued != [] {
      BatchLabelsAt(db, queued[..|queued| - 1], phase);
    }
  }

  lemma BatchLabelsSnoc(db: string, queued: seq<string>, i: nat, phase: Phase)
    requires i < |queued|
    ensures BatchLabels(db, queued[..i + 1], phase) == BatchLabels(db, queued[..i], phase) + [LabelsOf(db, queued[i], phase)]
  {
    assert queued[..i + 1][..i] == queued[..i];
  }

  /** The state of the three metric vectors. */
  type Metrics = Vectors<Labels>

  datatype Vec = RequestTotal | ErrorsTotal | Duration

  function QueryStarted(m: Metrics, db: string, sql: string): Metrics {
    m.(requestTotal := Inc(m.requestTotal, LabelsOf(db, sql, QueryStart)))
  }

  function QueryEnded(m: Metrics, ctx: Context, db: string, err: bool, now: Tick): Metrics {
    match AsQueryData(ctx.Value(TraceQueryKey))
    case None => m
    case Some(data) =>
      var l := LabelsOf(db, data.sql, QueryEnd);
      m.(errorsTotal := if err then Inc(m.errorsTotal, l) else m.errorsTotal,
         duration := Observe(m.duration, l, now - data.startedAt))
  }

  function BatchStarted(m: Metrics, db: string, queued: seq<string>): Metrics {
    m.(requestTotal := IncEach(m.requestTotal, BatchLabels(db, queued, BatchStart)))
  }

  /** The batch-query hook given the batch record its lookup found (None: no duration is observed). */
  function BatchQueriedWith(m: Metrics, found: Option<TraceBatchData>, db: string, sql: string, err: bool, now: Tick): Metrics {
    var l := LabelsOf(db, sql, BatchQuery);
    var errors := if err then Inc(m.errorsTotal, l) else m.errorsTotal;
    match found
    case None => m.(errorsTotal := errors)
    case Some(data) => m.(errorsTotal := errors, duration := Observe(m.duration, l, now - data.startedAt))
  }

  /** The batch-query hook as written: it looks the batch record up under the QUERY key. */
  function BatchQueried(m: Metrics, ctx: Context, db: string, sql: string, err: bool, now: Tick): Metrics {
    BatchQueriedWith(m, AsBatchData(ctx.Value(TraceQueryKey)), db, sql, err, now)
  }

  /** The batch-query hook with the lookup under the key the batch start stores under. */
  function BatchQueriedAtBatchKey(m: Metrics, ctx: Context, db: string, sql: string, err: bool, now: Tick): Metrics {
    BatchQueriedWith(m, AsBatchData(ctx.Value(TraceBatchKey)), db, sql, err, now)
  }

  /** The batch-end hook given the record its lookup found (None: nothing happens). */
  function BatchEndedWith(m: Metrics, found: Option<TraceBatchData>, db: string, err: bool, now: Tick): Metrics {
    match found
    case None => m
    case Some(data) => EndEach(m, BatchLabels(db, data.queuedQueries, BatchEnd), err, now - data.startedAt)
  }

  /** The batch-end hook as written: it looks the batch record up under the QUERY key. */
  function BatchEnded(m: Metrics, ctx: Context, db: string, err: bool, now: Tick): Metrics {
    BatchEndedWith(m, AsBatchData(ctx.Value(TraceQueryKey)), db, err, now)
  }

  /** The batch-end hook with the lookup under the key the batch start stores under. */
  function BatchEndedAtBatchKey(m: Metrics, ctx: Context, db: string, err: bool, now: Tick): Metrics {
    BatchEndedWith(m, AsBatchData(ctx.Value(TraceBatchKey)), db, err, now)
  }

  class Tracer {
    var requestTotal: map<Labels, nat>
    var errorsTotal: map<Labels, nat>
    var duration: map<Labels, seq<int>>

    function Snapshot(): Metrics
      reads this
    {
      Vectors(requestTotal, errorsTotal, duration)
    }

    constructor ()
      ensures Snapshot() == Vectors(map[], map[], map[])
    {
      requestTotal, errorsTotal, duration := map[], map[], map[];
    }

    /** The three vectors, in registration order. */
    function Collectors(): (vs: seq<Vec>)
      ensures |vs| == 3
      ensures RequestTotal in vs && ErrorsTotal in vs && Duration in vs
      ensures forall i, j :: 0 <= i < j < |vs| ==> vs[i] != vs[j]
    {
      [RequestTotal, ErrorsTotal, Duration]
    }

    method TraceQueryStart(ctx: Context, db: string, sql: string, now: Tick) returns (child: Context)
      modifies this
      ensures Snapshot() == QueryStarted(old(Snapshot()), db, sql)
      ensures child == WithValue(ctx, TraceQueryKey, QueryData(TraceQueryData(now, sql)))
    {
      var labels := LabelsOf(db, sql, QueryStart);
      requestTotal := Inc(requestTotal, labels);
      var data := TraceQueryData(now, sql);
      child := WithValue(ctx, TraceQueryKey, QueryData(data));
    }

    method TraceQueryEnd(ctx: Context, db: string, err: bool, now: Tick)
      modifies this
      ensures Snapshot() == QueryEnded(old(Snapshot()), ctx, db, err, now)
    {
      var found := AsQueryData(ctx.Value(TraceQueryKey));
      if found.Some? {
        var data := found.value;
        var labels := LabelsOf(db, data.sql, QueryEnd);
        if err {
          errorsTotal := Inc(errorsTotal, labels);
        }
        duration := Observe(duration, labels, now - data.startedAt);
      }
    }

    method TraceBatchStart(ctx: Context, db: string, queued: seq<string>, now: Tick) returns (child: Context)
      modifies this
      ensures Snapshot() == BatchStarted(old(Snapshot()), db, queued)
      ensures child == WithValue(ctx, TraceBatchKey, BatchData(TraceBatchData(now, queued)))
    {
      var data := TraceBatchData(now, queued);
      for i := 0 to |queued|
        invariant requestTotal == IncEach(old(requestTotal), BatchLabels(db, queued[..i], BatchStart))
        invariant errorsTotal == old(errorsTotal) && duration == old(duration)
      {
        var labels := LabelsOf(db, queued[i], BatchStart);
        requestTotal := Inc(requestTotal, labels);
        BatchLabelsSnoc(db, queued, i, BatchStart);
        IncEachSnoc(old(requestTotal), BatchLabels(db, queued[..i], BatchStart), labels);
      }
      assert queued[..|queued|] == queued;
      child := WithValue(ctx, TraceBatchKey, BatchData(data));
    }

    method TraceBatchQuery(ctx: Context, db: string, sql: string, err: bool, now: Tick)
      modifies this
      ensures Snapshot() == BatchQueried(old(Snapshot()), ctx, db, sql, err, now)
    {
      var labels := LabelsOf(db, sql, BatchQuery);
      if err {
        errorsTotal := Inc(errorsTotal, labels);
      }
      var found := AsBatchData(ctx.Value(TraceQueryKey));
      if found.Some? {
        duration := Observe(duration, labels, now - found.value.startedAt);
      }
    }

    method TraceBatchEnd(ctx: Context, db: string, err: bool, now: Tick)
      modifies this
      ensures Snapshot() == BatchEnded(old(Snapshot()), ctx, db, err, now)
    {
      var found := AsBatchData(ctx.Value(TraceQueryKey));
      if found.Some? {
        var data := found.value;
        var queued := data.queuedQueries;
        var errors, durations := errorsTotal, duration;
        for i := 0 to |queued|
          modifies {}
          invariant Vectors(requestTotal, errors, durations)
                 == EndEach(Snapshot(), BatchLabels(db, queued[..i], BatchEnd), err, now - data.startedAt)
        {
          var labels := LabelsOf(db, queued[i], BatchEnd);
          if err {
            errors := Inc(errors, labels);
          }
          durations := Observe(durations, labels, now - data.startedAt);
          BatchLabelsSnoc(db, queued, i, BatchEnd);
          EndEachSnoc(Snapshot(), BatchLabels(db, queued[..i], BatchEnd), err, now - data.startedAt, labels);
        }
        assert queued[..|queued|] == queued;
        errorsTotal, duration := errors, durations;
      }
    }
  }

  /** A query start counts exactly one request, at its own labels, and touches nothing else. */
  lemma QueryStartCountsOneRequest(m: Metrics, db: string, sql: string, l: Labels)
    ensures var r := QueryStarted(m, db, sql);
      && Count(r.requestTotal, l) == Count(m.requestTotal, l) + (if l == LabelsOf(db, sql, QueryStart) then 1 else 0)
      && Total(r.requestTotal) == Total(m.requestTotal) + 1
      && r.errorsTotal == m.errorsTotal && r.duration == m.duration
  {
    IncTotal(m.requestTotal, LabelsOf(db, sql, QueryStart));
  }

  /** Without a query record under the query key, a query end changes nothing. */
  lemma QueryEndWithoutRecordChangesNothing(m: Metrics, ctx: Context, db: string, err: bool, now: Tick)
    requires AsQueryData(ctx.Value(TraceQueryKey)) == None
    ensures QueryEnded(m, ctx, db, err, now) == m
  {
  }

  /**
   * With a query record, a query end counts one error iff `err` and observes exactly one
   * duration, both at the end labels of the record's SQL; requests are untouched.
   */
  lemma QueryEndWithRecord(m: Metrics, ctx: Context, db: string, err: bool, now: Tick, data: TraceQueryData, l: Labels)
    requires AsQueryData(ctx.Value(TraceQueryKey)) == Some(data)
    ensures var r := QueryEnded(m, ctx, db, err, now);
      var e := LabelsOf(db, data.sql, QueryEnd);
      && r.requestTotal == m.requestTotal
      && Count(r.errorsTotal, l) == Count(m.errorsTotal, l) + (if err && l == e then 1 else 0)
      && Total(r.errorsTotal) == Total(m.errorsTotal) + (if err then 1 else 0)
      && Observations(r.duration, l) == Observations(m.duration, l) + (if l == e then [now - data.startedAt] else [])
  {
    if err {
      IncTotal(m.errorsTotal, LabelsOf(db, data.sql, QueryEnd));
    }
  }

  /**
   * A query start followed by its query end: one request, one error iff `err`, and one
   * non-negative duration, the time between the two hooks.
   */
  lemma QueryRoundTrip(m: Metrics, ctx: Context, db: string, sql: string, t0: Tick, err: bool, t1: Tick)
    requires t0 <= t1
    ensures var child := WithValue(ctx, TraceQueryKey, QueryData(TraceQueryData(t0, sql)));
      var r := QueryEnded(QueryStarted(m, db, sql), child, db, err, t1);
      var s := LabelsOf(db, sql, QueryStart);
      var e := LabelsOf(db, sql, QueryEnd);
      && Count(r.requestTotal, s) == Count(m.requestTotal, s) + 1
      && Total(r.requestTotal) == Total(m.requestTotal) + 1
      && Count(r.errorsTotal, e) == Count(m.errorsTotal, e) + (if err then 1 else 0)
      && Total(r.errorsTotal) == Total(m.errorsTotal) + (if err then 1 else 0)
      && Observations(r.duration, e) == Observations(m.duration, e) + [t1 - t0]
      && t1 - t0 >= 0
  {
    var child := WithValue(ctx, TraceQueryKey, QueryData(TraceQueryData(t0, sql)));
    var m1 := QueryStarted(m, db, sql);
    QueryStartCountsOneRequest(m, db, sql, LabelsOf(db, sql, QueryStart));
    QueryEndWithRecord(m1, child, db, err, t1, TraceQueryData(t0, sql), LabelsOf(db, sql, QueryEnd));
  }

  /** A batch start counts one request per queued query, each at its own labels. */
  lemma BatchStartCountsEachQuery(m: Metrics, db: string, queued: seq<string>, l: Labels)
    ensures var r := BatchStarted(m, db, queued);
      && Count(r.requestTotal, l) == Count(m.requestTotal, l) + multiset(BatchLabels(db, queued, BatchStart))[l]
      && Total(r.requestTotal) == Total(m.requestTotal) + |queued|
      && r.errorsTotal == m.errorsTotal && r.duration == m.duration
  {
    IncEachCount(m.requestTotal, BatchLabels(db, queued, BatchStart), l);
    IncEachTotal(m.requestTotal, BatchLabels(db, queued, BatchStart));
  }

  /**
   * A batch query counts one error iff `err`, and observes a duration only when the
   * query key holds a batch record.
   */
  lemma BatchQueryEffect(m: Metrics, ctx: Context, db: string, sql: string, err: bool, now: Tick, l: Labels)
    ensures var r := BatchQueried(m, ctx, db, sql, err, now);
      var q := LabelsOf(db, sql, BatchQuery);
      var found := AsBatchData(ctx.Value(TraceQueryKey));
      && r.requestTotal == m.requestTotal
      && Count(r.errorsTotal, l) == Count(m.errorsTotal, l) + (if err && l == q then 1 else 0)
      && Total(r.errorsTotal) == Total(m.errorsTotal) + (if err then 1 else 0)
      && Observations(r.duration, l) == Observations(m.duration, l) + (if l == q && found.Some? then [now - found.value.startedAt] else [])
  {
    if err {
      IncTotal(m.errorsTotal, LabelsOf(db, sql, BatchQuery));
    }
  }

  /** In a context built by this package's own start hooks, a batch query never observes a duration. */
  lemma BatchQueryNeverObserves(m: Metrics, ctx: Context, db: string, sql: string, err: bool, now: Tick)
    requires NoBatchUnderQueryKey(ctx)
    ensures BatchQueried(m, ctx, db, sql, err, now).duration == m.duration
  {
  }

  /**
   * With the lookup under the batch key, a batch query after a batch start observes one
   * non-negative duration, the time since the batch started, at its own labels.
   */
  lemma BatchQueryAtBatchKeyObserves(m: Metrics, ctx: Context, db: string, queued: seq<string>, t0: Tick, sql: string, err: bool, t1: Tick, l: Labels)
    requires t0 <= t1
    ensures var child := WithValue(ctx, TraceBatchKey, BatchData(TraceBatchData(t0, queued)));
      var r := BatchQueriedAtBatchKey(m, child, db, sql, err, t1);
      var q := LabelsOf(db, sql, BatchQuery);
      && r.requestTotal == m.requestTotal
      && Count(r.errorsTotal, l) == Count(m.errorsTotal, l) + (if err && l == q then 1 else 0)
      && Observations(r.duration, l) == Observations(m.duration, l) + (if l == q then [t1 - t0] else [])
      && t1 - t0 >= 0
  {
  }

  /**
   * As written: the batch end looks under the query key, so after a batch start (which
   * stores under the batch key) it counts no error and observes no duration.
   */
  lemma BatchEndAfterBatchStartChangesNothing(m: Metrics, ctx: Context, db: string, queued: seq<string>, t0: Tick, err: bool, t1: Tick)
    requires NoBatchUnderQueryKey(ctx)
    ensures BatchEnded(m, WithValue(ctx, TraceBatchKey, BatchData(TraceBatchData(t0, queued))), db, err, t1) == m
  {
  }

  /**
   * With the lookup under the batch key, a batch end after a batch start of N queries
   * counts N errors iff `err` and observes the same non-negative elapsed time N times.
   */
  lemma BatchEndAtBatchKeyCountsEachQuery(m: Metrics, ctx: Context, db: string, queued: seq<string>, t0: Tick, err: bool, t1: Tick, l: Labels)
    requires t0 <= t1
    ensures var child := WithValue(ctx, TraceBatchKey, BatchData(TraceBatchData(t0, queued)));
      var r := BatchEndedAtBatchKey(m, child, db, err, t1);
      var ls := BatchLabels(db, queued, BatchEnd);
      && r.requestTotal == m.requestTotal
      && Count(r.errorsTotal, l) == Count(m.errorsTotal, l) + (if err then multiset(ls)[l] else 0)
      && Total(r.errorsTotal) == Total(m.errorsTotal) + (if err then |queued| else 0)
      && Observations(r.duration, l) == Observations(m.duration, l) + Repeat(t1 - t0, multiset(ls)[l])
      && t1 - t0 >= 0
  {
    var child := WithValue(ctx, TraceBatchKey, BatchData(TraceBatchData(t0, queued)));
    assert AsBatchData(child.Value(TraceBatchKey)) == Some(TraceBatchData(t0, queued));
    EndEachEffect(m, BatchLabels(db, queued, BatchEnd), err, t1 - t0, l);
  }
}
