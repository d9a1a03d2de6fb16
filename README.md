# pgxprom, modelled in Dafny

pgxprom bridges the pgx PostgreSQL driver to Prometheus. This project models its core.

- **The operation-name parser.** `name` applies the anchored pattern `^--\s+name:\s+(\w+)` to a statement. It returns the captured identifier, or `"unknown"`. Here it is a hand-written scanner over that one pattern (`OperationName`). `\s` is `[\t\n\f\r ]` and `\w` is ASCII `[0-9A-Za-z_]`, as in RE2.
- **The correlation records and their context keys.** `TraceCtx` holds:
  - the two pointer keys, with Go's pointer identity as an address;
  - the query and batch records;
  - the immutable request-scoped context that carries a record from a start hook to its end hook;
  - the "comma ok" type assertions.
- **Label-keyed metric vectors.** In `MetricVec`, a counter vector is a map from label set to count. A histogram vector is a map from label set to the sequence of values observed.
- **The tracer** (`tracer.go`, module `Tracer`). The five trace hooks update three vectors labelled by database, operation name and phase. The module also has the list of collectors it registers.
- **The collectors** (`collector.go`, module `Collector`).
  - The pool collector keeps an ordered list of pools, with Add and Remove. It reports ten data points per pool, in a fixed order and of fixed kinds.
  - The query collector has the same hooks as the tracer. Its labels also carry the statement text.

## How each piece is modelled

- **Hooks.** Each hook is a method on a class whose fields are the three vectors.
  - Its `ensures` ties the new state to a hook function on `Metrics` values. `Metrics` is `MetricVec.Vectors` at the module's own label type, and the batch-end update `EndEach` is written once, in `MetricVec`.
  - Lemmas about those functions state what the hooks promise: exact counts, totals and observations per label set, and what stays unchanged.
  - The batch hooks loop over the queued queries, as the source does.
- **Error and clock inputs.** A hook's error is the flag `err`. The clock is the parameter `now`, in abstract ticks. A duration is `now - startedAt`.
- **Pools.** A pool is an opaque handle. What it reports (its statistics and its database) is a total function from handle to `PoolView`, read when `Collect` runs.

The two source files each declare the same `name` function (`collector.go:277-285`, `tracer.go:169-177`). It is modelled once, in `OperationName`, and used by both modules.

`TraceBatchData` in `tracer_ctx.go:36-38` has only `StartedAt`. Yet both batch-start hooks set a `Batch` field on it (`tracer.go:117`, `collector.go:222`), and both batch-end hooks read `data.Batch.QueuedQueries` from it (`tracer.go:153`, `collector.go:260`). So the model's batch record carries the SQL text of its queued queries, `queuedQueries`.

The intended design is that a batch end finds its batch record and, for each queued statement, counts an error when `err` holds and observes a duration. The code does not do this: see Findings. The hook methods model the code as written. Corrected lookup functions are modelled beside them, with the intended properties proved.

## Model

| member | source | states |
|---|---|---|
| OperationName.Match | tracer.go:169 | the pattern is anchored: it matches only a statement that starts with `--` |
| OperationName.Name | tracer.go:171-177 | the label is `"unknown"` or the group the pattern captured, and is always a non-empty run of word characters |
| OperationName.MatchIsWordRun | tracer.go:169 | a capture of `(\w+)` is a non-empty run of ASCII word characters |
| OperationName.MatchByRuns | tracer.go:169 | the scanner agrees with the greedy reading of the pattern: two dashes, a maximal non-empty whitespace run, `name:`, a maximal non-empty whitespace run, then the maximal word run |
| OperationName.MatchComplete | tracer.go:169-177 | for `s` = `--` + ws⁺ + `name:` + ws⁺ + `w` + rest, with `w` a maximal word run, the name is `w` |
| OperationName.MatchSound | tracer.go:169-177 | every capture comes from such a decomposition of `s` |
| OperationName.MatchNoneIff | tracer.go:171-176 | the pattern fails (so the name is `"unknown"`) exactly when no such decomposition exists |
| OperationName.NoLeadingDashesIsUnknown | tracer.go:169 | a statement that does not start with `--` is `"unknown"`; the anchor admits no leading whitespace |
| OperationName.NoSpaceBeforeKeywordIsUnknown | tracer.go:169 | `--` directly followed by a non-space is `"unknown"` |
| OperationName.OtherKeywordIsUnknown | tracer.go:169 | any other five-character keyword, e.g. `Name:`, is `"unknown"`: the match is case-sensitive |
| OperationName.NoSpaceAfterColonIsUnknown | tracer.go:169 | `name:` directly followed by a non-space is `"unknown"` |
| OperationName.SqlcAnnotationExample | collector.go:277-285 | `-- name: GetAuthor :one` is labelled `GetAuthor` |
| TraceCtx.ContextKey.String | tracer_ctx.go:14-16 | a key's text is its `name` field, whatever the key's identity |
| TraceCtx.KeysShareTextOnly | tracer_ctx.go:14-33 | both keys print the package path, yet they are different keys |
| TraceCtx.KeysDoNotAlias | tracer_ctx.go:19-33 | a value stored under one key is never found under the other |
| TraceCtx.WithValue | tracer.go:93 | the child finds the stored value under its key, and the parent's value under every other key |
| TraceCtx.AsQueryData | tracer.go:98 | the assertion succeeds exactly when a query record is stored, and then yields that stored record |
| TraceCtx.AsBatchData | tracer.go:145 | the assertion succeeds exactly when a batch record is stored, and then yields that stored record |
| TraceCtx.BackgroundHoldsNoRecord | tracer_ctx.go:18-33 | the root context holds nothing under either key, so it has no batch record under the query key |
| TraceCtx.StoresKeepQueryKeyFreeOfBatches | tracer.go:93-130 | the package's two stores never put a batch record under the query key |
| MetricVec.PhaseTextInjective | tracer.go:79-83 | two phases have the same label value only if they are the same phase |
| MetricVec.IncEachCount | tracer.go:120-128 | one `Inc` per label set raises each series by the number of times its labels occur |
| MetricVec.IncTotal | tracer.go:85 | one `Inc` raises the sum over all series by exactly one |
| MetricVec.IncEachTotal | tracer.go:120-128 | N `Inc`s raise the sum over all series by N |
| MetricVec.ObserveEachObservations | tracer.go:153-165 | observing `d` once per label set appends `d` to each series once per occurrence of its labels, and nothing else |
| MetricVec.EndEachEffect | tracer.go:153-165 | a batch end with a record of N queries adds N errors iff `err` and one elapsed-time observation per query, at each query's labels; requests are unchanged |
| Tracer.LabelsOf | tracer.go:79-83 | a statement's labels carry the database, the phase, and as operation the pattern's capture or `"unknown"` |
| Tracer.BatchLabelsAt | tracer.go:120-125 | the `i`-th label set of a batch is the label set of its `i`-th queued statement |
| Tracer.Tracer.constructor | tracer.go:28-61 | a new tracer has empty vectors |
| Tracer.Tracer.Collectors | tracer.go:179-185 | the three vectors, each once |
| Tracer.Tracer.TraceQueryStart | tracer.go:78-94 | the new state is the query-start update; the returned context holds `{now, sql}` under the query key |
| Tracer.Tracer.TraceQueryEnd | tracer.go:97-111 | the new state is the query-end update of the record found under the query key |
| Tracer.Tracer.TraceBatchStart | tracer.go:114-131 | the loop raises the request counter once per queued query; the returned context holds the batch record under the batch key |
| Tracer.Tracer.TraceBatchQuery | tracer.go:134-148 | the new state is the batch-query update, with its lookup under the query key |
| Tracer.Tracer.TraceBatchEnd | tracer.go:151-167 | the loop applies the batch-end update for each queued query of the record found under the query key |
| Tracer.QueryStartCountsOneRequest | tracer.go:78-94 | a query start adds exactly one request, at (db, name(sql), query_start); errors and durations are unchanged |
| Tracer.QueryEndWithoutRecordChangesNothing | tracer.go:97-98 | with no query record under the query key, a query end changes nothing |
| Tracer.QueryEndWithRecord | tracer.go:97-111 | with a record, a query end adds one error iff `err` and exactly one duration, at (db, name(record.sql), query_end); requests are unchanged |
| Tracer.QueryRoundTrip | tracer.go:78-111 | start then end: one request, one error iff `err`, and one duration equal to the non-negative time between the hooks |
| Tracer.BatchStartCountsEachQuery | tracer.go:114-131 | a batch of N queries adds N requests, one at each query's own labels; errors and durations are unchanged |
| Tracer.BatchQueryEffect | tracer.go:134-148 | a batch query adds one error iff `err`; it observes a duration only when a batch record sits under the query key |
| Tracer.BatchQueryNeverObserves | tracer.go:145-147 | in any context the package's hooks build, a batch query observes no duration |
| Tracer.BatchQueryAtBatchKeyObserves | tracer.go:145-147 | with the lookup under the batch key, a batch query after a batch start observes the time since the start |
| Tracer.BatchEndAfterBatchStartChangesNothing | tracer.go:130-152 | as written, a batch end after a batch start changes nothing |
| Tracer.BatchEndAtBatchKeyCountsEachQuery | tracer.go:151-167 | with the lookup under the batch key, a batch end after a start of N queries adds N errors iff `err` and N observations of the same non-negative elapsed time |
| Collector.PoolSamplesLayout | collector.go:101-110 | point `j` of a pool reports descriptor `j` with its fixed kind and statistic, labelled with the pool's database. Gauges: acquired, constructing, idle, max, total. Counters: canceled-acquire, empty-acquire, new-connections, lifetime-destroy, idle-destroy |
| Collector.CollectAllLayout | collector.go:91-112 | collection emits 10 points per registered pool; point `j` of the `i`-th pool is at position 10·i + j |
| Collector.CollectAllPoint | collector.go:92-110 | each collected point has its descriptor's kind and statistic, and the database of the pool it came from |
| Collector.WithoutAppend | collector.go:70-74 | deletion distributes over concatenation, so the kept pools stay in order |
| Collector.WithoutSingle | collector.go:71-73 | deletion drops a pool iff it is the removed one |
| Collector.WithoutCounts | collector.go:70-74 | after deletion the pool is gone, every other pool keeps its multiplicity, and the list shrinks by the removed one's multiplicity |
| Collector.WithoutAbsent | collector.go:70-74 | removing a pool that is not registered changes nothing |
| Collector.WithoutIdempotent | collector.go:70-74 | removing twice equals removing once |
| Collector.AddThenRemove | collector.go:65-74 | adding then removing a pool equals just removing it |
| Collector.RemovedPoolNotCollected | collector.go:70-112 | after removal, collection emits 10 points per remaining registration and none from the removed pool |
| Collector.PoolCollector.constructor | collector.go:32-62 | a new pool collector has no pools |
| Collector.PoolCollector.Add | collector.go:65-67 | the list is the old list with the pool appended, so a duplicate adds a second registration |
| Collector.PoolCollector.Remove | collector.go:70-74 | the loop deletes every registration of the pool, keeping the others in order |
| Collector.PoolCollector.Describe | collector.go:77-88 | exactly the ten descriptors, each once, in the order `Collect` uses, whatever pools are registered |
| Collector.PoolCollector.Collect | collector.go:91-112 | the loop emits each registered pool's ten points, pool after pool; 10 per pool in total |
| Collector.LabelsOf | collector.go:182-187 | a statement's labels carry the database, the statement text, the phase, and as operation the pattern's capture or `"unknown"` |
| Collector.BatchLabelsAt | collector.go:225-231 | the `i`-th label set of a batch is the label set of its `i`-th queued statement |
| Collector.StatementsNeverShareSeries | collector.go:182-187 | two statements share a series only if their text is equal |
| Collector.QueryCollector.constructor | collector.go:131-164 | a new query collector has empty vectors |
| Collector.QueryCollector.TraceQueryStart | collector.go:181-198 | the new state is the query-start update; the returned context holds `{now, sql}` under the query key |
| Collector.QueryCollector.TraceQueryEnd | collector.go:201-216 | the new state is the query-end update of the record found under the query key |
| Collector.QueryCollector.TraceBatchStart | collector.go:219-237 | the loop raises the request counter once per queued query; the returned context holds the batch record under the batch key |
| Collector.QueryCollector.TraceBatchQuery | collector.go:240-255 | the new state is the batch-query update, with its lookup under the query key |
| Collector.QueryCollector.TraceBatchEnd | collector.go:258-275 | the loop applies the batch-end update for each queued query of the record found under the query key |
| Collector.QueryStartCountsOneRequest | collector.go:181-198 | a query start adds exactly one request, at (db, name(sql), sql, query_start); errors and durations are unchanged |
| Collector.QueryEndWithoutRecordChangesNothing | collector.go:201-202 | with no query record, a query end changes nothing |
| Collector.QueryEndWithRecord | collector.go:201-216 | with a record, a query end adds one error iff `err` and exactly one duration, at (db, name(record.sql), record.sql, query_end) |
| Collector.BatchStartCountsEachQuery | collector.go:219-237 | a batch of N queries adds N requests, one at each query's own labels; errors and durations are unchanged |
| Collector.BatchQueryEffect | collector.go:240-255 | a batch query adds one error iff `err`; it observes a duration only when a batch record sits under the query key |
| Collector.BatchQueryNeverObserves | collector.go:252-254 | in any context the package's hooks build, a batch query observes no duration |
| Collector.BatchQueryAtBatchKeyObserves | collector.go:252-254 | with the lookup under the batch key, a batch query after a batch start observes the time since the start |
| Collector.BatchEndAfterBatchStartChangesNothing | collector.go:236-259 | as written, a batch end after a batch start changes nothing |
| Collector.BatchEndAtBatchKeyCountsEachQuery | collector.go:258-275 | with the lookup under the batch key, a batch end after a start of N queries adds N errors iff `err` and N observations of the same non-negative elapsed time |

## Left out

- Prometheus itself is not modelled: descriptors, `CounterVec`/`HistogramVec`, `MustNewConstMetric`, registration, and metric names and help text. A vector is a map and a descriptor is an enumeration value.
- `Tracer.Register` and `Tracer.Unregister` (`tracer.go:64-75`) only hand the collectors to a Prometheus registerer. The list they iterate is modelled (`Collectors`); the registry is not.
- `QueryCollector.Collect` and `QueryCollector.Describe` (`collector.go:167-178`) only delegate to the Prometheus vectors, so they are not modelled.
- Channels in `Describe`/`Collect` are modelled as returned sequences, in send order.
- Driver calls are inputs. `conn.Config().Database` is the parameter `db`. `pool.Stat()` and `pool.Config().ConnConfig.Database` are read through `view`.
- Wall-clock time and floating point are not modelled. `time.Now` is the integer parameter `now`, and `time.Since(...).Seconds()` is the integer `now - startedAt`.
- Collector.QueryCollector.TraceBatchEnd reads the clock once per hook. The source reads it once per queued query (`collector.go:272`), so its observations within one batch end may differ slightly.
- Tracer.Tracer.TraceBatchEnd reads the clock once per hook. The source reads it once per queued query (`tracer.go:164`), so its observations within one batch end may differ slightly.
- The batch record keeps a pointer to the driver's batch (`tracer.go:117`, `collector.go:222`), so a batch end iterates the batch as it stands at end time. The model copies the queued SQL text at batch start; a batch changed between start and end is not modelled.
- Prometheus rejects a label value that is not valid UTF-8, and `With` and `MustNewConstMetric` then panic. This can happen with the statement text label (`collector.go:184`) or a database name. Dafny strings are sequences of characters and cannot hold invalid UTF-8, so that panic is not modelled.
- The `Args` field of the query record (`tracer_ctx.go:27`) is never read and is not modelled.
- Concurrency is not modelled: neither concurrent hook calls nor the unguarded `pools` slice.
- Strings are sequences of characters. A non-ASCII character is never a word or space character, as in RE2 without Unicode classes.
- The example tests (`collector_test.go`, `tracer_test.go`) need a live database and are not part of this model.

## Findings

| source | as written | input that shows it | evidently intended | confidence | as-written member | corrected member |
|---|---|---|---|---|---|---|
| tracer.go:130,152 | `TraceBatchEnd` looks the batch record up under `TraceQueryKey`, but `TraceBatchStart` stores it under `TraceBatchKey` | a batch start of one query, then a batch end with a non-nil error: no error is counted and no duration is observed | one error per queued query when the batch failed, and one duration per queued query | high (by proof; not executed) | Tracer.BatchEndAfterBatchStartChangesNothing | Tracer.BatchEndAtBatchKeyCountsEachQuery |
| tracer.go:130,145 | `TraceBatchQuery` asserts a batch record under `TraceQueryKey`, where only query records are ever stored | a batch start, then a batch query: no duration is observed | observe the time since the batch started | high (by proof; not executed) | Tracer.BatchQueryNeverObserves | Tracer.BatchQueryAtBatchKeyObserves |
| collector.go:236,259 | the same key mismatch in `QueryCollector.TraceBatchEnd` | a batch start of one query, then a batch end with a non-nil error: nothing is recorded | one error and one duration per queued query | high (by proof; not executed) | Collector.BatchEndAfterBatchStartChangesNothing | Collector.BatchEndAtBatchKeyCountsEachQuery |
| collector.go:236,252 | the same key mismatch in `QueryCollector.TraceBatchQuery` | a batch start, then a batch query: no duration is observed | observe the time since the batch started | high (by proof; not executed) | Collector.BatchQueryNeverObserves | Collector.BatchQueryAtBatchKeyObserves |
