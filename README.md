# executeQuery lifecycle model

A Dafny model of the control logic in ByConity's `src/Interpreters/executeQuery.cpp`. It follows one query
through `executeQueryImpl`:

- parsing and the warehouse's customised settings;
- the implicit commit of an interactive session before DDL;
- the routing short-circuit to another server, and the SETTINGS clause;
- the settings replacements;
- transaction attachment (`prepareCnchTransaction`) and admission into the query queue (`tryQueueQuery`);
- the second guarded block: AST limits, the process list, quota, the interpreter and its retry, the query-cache
  read, the pre-start kill check, and the query-cache writer;
- the two callbacks attached to a started query (`finish_callback` and `exception_callback`);
- the two `catch (...)` blocks that handle a failure before the start.

The classifiers the lifecycle consults are modelled as pure functions: `isDDLQuery`,
`isQueryInInteractiveSession`, `isAsyncMode`, the retry policy, query-cache eligibility and the resolution of
an ambiguous distributed error.

The model has a functional core and an imperative shell.

- `LifecycleSpec` defines every step as a function from the query context's state (`Ctx`) and the collaborators'
  answers (`Environment`) to the new state and the side effects performed on collaborators (`Event`s, oldest
  first).
- `QueryLifecycle.QueryContext` is the context as a class. Its fields are the server role, settings, current
  transaction, session, process-list entry, worker group, served-from-cache flag and the trace of effects. Its
  methods update those fields step by step, as `executeQueryImpl` does. Each method is proved to leave exactly
  the state and trace its spec function describes.
- `LifecycleProperties`, `RoutingProperties`, `StepProperties` and `RunProperties` prove what the source promises
  about those functions. Main results:
  - every failure inside the guarded blocks finishes the transaction exactly once;
  - a started query is finished exactly once by whichever callback ends it;
  - a forwarded query does nothing locally;
  - the implicit commit comes first;
  - the admission, retry and query-cache decisions are exact;
  - each quota charge checks its own limit, so charging stops at the first limit reached;
  - an internal query or an EXPLAIN never touches the query cache, and a non-DML statement is never queued.

Collaborators are oracle parameters in `Environment`. They include the parser's result, the router's target,
the proxy, the transaction coordinator's next id, the target table's engine, the warehouse assignment, the
queue's verdict, the preparation stage that throws (if any), the interpreter and retry outcomes, the cache hit,
the run count, the kill flag, whether a quota exists and which of its limits this query reaches.
The MPP coordinator's summarized error code is a parameter of the exception callback, and so is
`isAmbiguosError`.

### Which exit path each failure takes

- **Queue rejection leaves the transaction open.** `prepareCnchTransaction` and `tryQueueQuery` are called
  between the two guarded blocks (lines 765-774). A queue rejection (`CNCH_QUEUE_QUERY_FAILURE`) therefore leaves
  `executeQueryImpl` without `finish_current_transaction`, without `onExceptionBeforeStart` and without the
  ERRORS quota unit. The bound transaction stays open. Every other exit the model covers finishes the
  transaction. The throws between the blocks that are listed under "## Left out" would leave like a queue
  rejection. The model follows the code here. `LifecycleProperties.LifecycleFinalization` states this case
  separately.
- **Failures before the callbacks take the before-start path.** These are a failure of query-parameter
  substitution or the AST visitors (785-811), the AST limits, a process-list rejection, loading external tables
  (831), preparing the input storage or building the interpreter (836-862), an exceeded quota, an interpreter
  failure (also a failed retry) and the pre-start kill check (985-991).
  They are thrown inside the second guarded block, before the callbacks are attached, so they take that block's
  `catch (...)` (1582-1595), not `exception_callback`.

### Assumptions about code outside this file

- `InterpreterCommitQuery` ends the session's transaction, so the session is no longer interactive afterwards.
- `turnOffOptimizer` clears `enable_optimizer`.
- The perfect-shard fallback clears `distributed_perfect_shard`.
- `TxnTimestamp::minTS()` is non-zero (taken as 1).
- `overwriteDefaultSettings` (line 688) assigns the warehouse's customised settings to the context in order, as a SETTINGS clause would. The oracle `vwOverride` holds those assignments, and is empty when there are no customised settings or the warehouse name is empty.

## Model

| member | source | states |
|---|---|---|
| QueryClassify.IsDDLQuery | src/Interpreters/executeQuery.cpp:1894-1922 | CREATE and RENAME are DDL. A DROP is DDL iff it is not TRUNCATE. A single-command ALTER is DDL iff the command is neither an attach (from detached, or parts) nor a non-detaching DROP PARTITION [WHERE]. Any other ALTER is DDL, and nothing else is. |
| QueryClassify.Freshness | src/Interpreters/executeQuery.cpp:945-948 | Without transactional caching the source update time is never zero. With it, the update time is the tables' last update time. |
| QueryClassify.RetryPolicy | src/Interpreters/executeQuery.cpp:895-933 | The optimizer fallback is chosen iff the optimizer interpreter failed with enable_optimizer_fallback. The perfect-shard fallback is chosen iff another interpreter failed with the optimizer off and both perfect-shard settings on. An optimizer interpreter never takes the perfect-shard fallback. |
| QueryClassify.ResolveRootCause | src/Interpreters/executeQuery.cpp:1494-1567 | With a coordinator and an ambiguous code, the code is the coordinator's summarized one; otherwise it is the local code. It is rethrown iff it differs from the local code. |
| QuerySettings.WithFlag | src/Interpreters/executeQuery.cpp:574-605 | Assigning a boolean setting gives it the new value and keeps the non-boolean settings. |
| QuerySettings.WithFlagKeepsOthers | src/Interpreters/executeQuery.cpp:574-605 | Assigning one boolean setting leaves every other boolean setting unchanged. |
| QuerySettings.ApplyKeepsOthers | src/Interpreters/executeQuery.cpp:574-605 | One SETTINGS assignment changes no other setting. |
| QuerySettings.ApplyAllConcat | src/Interpreters/executeQuery.cpp:574-605 | Applying a clause in two parts equals applying it whole, in order. |
| QuerySettings.ApplyAllKeepsUnassigned | src/Interpreters/executeQuery.cpp:574-605 | A setting the clause does not assign keeps its value. |
| QuerySettings.LastAssignmentWins | src/Interpreters/executeQuery.cpp:574-605 | A setting takes the value of its last assignment in the clause. |
| StepProperties.TxnOnlyForCnchRoles | src/Interpreters/executeQuery.cpp:503-512 | Roles other than server and worker get no transaction and no effect. An already-bound transaction is returned unchanged. A returned transaction is the one bound to the context. |
| StepProperties.ServerTxnCreation | src/Interpreters/executeQuery.cpp:514-533 | A server creates a transaction with the statement's read-only flag and the explicit session transaction's id as parent (0 without one), and binds it. The statement is appended to the session transaction iff one exists and the statement is not read-only; otherwise the session is untouched. |
| StepProperties.WorkerTxnCreation | src/Interpreters/executeQuery.cpp:534-569 | A worker creates a transaction iff the query is initial, names a table (INSERT or SYSTEM DEDUP) and the table is Cnch/Cloud MergeTree. The transaction targets the current database when none is named; otherwise nothing happens. |
| StepProperties.AdmissionDecision | src/Interpreters/executeQuery.cpp:165-204 | Enqueues iff a transaction is attached on a server, the query is neither internal nor SHOW PROCESSLIST, enable_query_queue is on, the statement is DML and a worker group is bound. A rejection raises CNCH_QUEUE_QUERY_FAILURE with the queue's status. A success rebinds the worker group from the current warehouse. Without a transaction nothing happens. |
| StepProperties.RetryAtMostOnce | src/Interpreters/executeQuery.cpp:895-933 | At most one retry. A first success has no retry. A failure is rethrown unchanged iff the policy says rethrow; otherwise the retry's outcome stands, even a failure, and is not caught again. |
| StepProperties.OptimizerFallback | src/Interpreters/executeQuery.cpp:900-917 | The optimizer fallback retries with the optimizer off. Only a successful retry sets the profile receive timeout. |
| StepProperties.PerfectShardFallback | src/Interpreters/executeQuery.cpp:919-930 | The perfect-shard fallback retries with perfect-shard mode off and the optimizer still off, and takes the retry's outcome. |
| StepProperties.CacheReadDecision | src/Interpreters/executeQuery.cpp:937-966 | The cache is read iff every condition holds: can_use, reads enabled, streams, known non-empty storages, non-zero freshness and a hit. Served-from-cache records exactly that, and nothing else changes. |
| StepProperties.NonTransactionalReadNeedsOnlyAHit | src/Interpreters/executeQuery.cpp:945-948 | Outside transactional mode the freshness gate never blocks a read. |
| StepProperties.TransactionalReadNeedsUpdateTime | src/Interpreters/executeQuery.cpp:945-948 | In transactional mode a zero update time blocks the read. |
| StepProperties.CacheWriterDecision | src/Interpreters/executeQuery.cpp:1047-1073 | A run is recorded iff there was no cache read, a cache exists, can_use holds, writes are enabled, there are streams, and the query is deterministic or nondeterministic results may be stored. The writer is attached iff the run is recorded and the count exceeds the threshold. A cache read means no writer at all. |
| StepProperties.WriterThresholdIsStrict | src/Interpreters/executeQuery.cpp:1061-1062 | The threshold-th run attaches no writer; the next one does. |
| StepProperties.CacheReadExcludesWrite | src/Interpreters/executeQuery.cpp:1047-1049 | A result read from the cache is never written to it. |
| StepProperties.DistributedStagesReplaced | src/Interpreters/executeQuery.cpp:484-492 | enable_distributed_stages ends off. enable_optimizer ends on iff it or distributed stages was on. |
| StepProperties.InsertWatchStreams | src/Interpreters/executeQuery.cpp:494-501 | output_format_enable_streaming ends on iff it was on or the statement is INSERT WATCH. |
| StepProperties.AdjustSettingsOnlySettings | src/Interpreters/executeQuery.cpp:759-761 | The replacements change no transaction, session, worker group or process-list entry. |
| LifecycleProperties.FailBeforeStartFinalizes | src/Interpreters/executeQuery.cpp:742-757 | A before-start failure finishes the bound server transaction exactly once. It charges one ERRORS unit iff the query is not internal and has a quota, and logs the failure once iff it is not internal. |
| LifecycleProperties.FrontIsPreliminary | src/Interpreters/executeQuery.cpp:667-740 | The first guarded block's only effects are the implicit commit and the forwarding, and its failures are never the queue's error. |
| LifecycleProperties.OnExceptionBeforeStartCounts | src/Interpreters/executeQuery.cpp:371-482 | onExceptionBeforeStart charges one ERRORS unit iff a quota exists, writes the EXCEPTION_BEFORE_START record once and finishes no transaction. |
| LifecycleProperties.ExecuteAndAttachFinalization | src/Interpreters/executeQuery.cpp:895-1595 | From the interpreter to the callbacks: a failure finishes the transaction once and charges ERRORS iff not internal with a quota; a start finalizes nothing; nothing is forwarded. |
| LifecycleProperties.StartQueryNeverQueueFailure | src/Interpreters/executeQuery.cpp:814-1595 | The second guarded block never fails with the queue's error. |
| LifecycleProperties.StartCapturesQuota | src/Interpreters/executeQuery.cpp:864-868 | A started query's callbacks hold a quota iff the interpreter does not ignore quota and the context has one. |
| LifecycleProperties.PreparedTxnIsBound | src/Interpreters/executeQuery.cpp:514-571 | The transaction prepareCnchTransaction returns is the one it set on the context. |
| LifecycleProperties.LaunchRejected | src/Interpreters/executeQuery.cpp:765-774 | A queue rejection fails with the queue's error, finalizes nothing and leaves the transaction bound. |
| LifecycleProperties.LaunchAdmitted | src/Interpreters/executeQuery.cpp:776-1595 | After admission, a failure is never the queue's error and finishes the transaction once with the ERRORS unit as above; a start finalizes nothing; nothing is forwarded. |
| LifecycleProperties.StartQueryFinalization | src/Interpreters/executeQuery.cpp:814-1595 | Every failure in the second guarded block finishes the transaction exactly once and charges the ERRORS unit as above. A started query has finalized nothing yet. |
| LifecycleProperties.KilledInPendingFailsBeforeStart | src/Interpreters/executeQuery.cpp:985-991 | A query killed while pending fails with QUERY_WAS_CANCELLED through the before-start path. The transaction is finished once and the before-start log is written once. The query never starts, so it gets no callbacks. |
| LifecycleProperties.LaunchFinalization | src/Interpreters/executeQuery.cpp:759-1595 | After the first block: a non-queue failure finishes once. A queue rejection finishes nothing and leaves the transaction bound. A start finalizes nothing. |
| LifecycleProperties.LifecycleFinalization | src/Interpreters/executeQuery.cpp:607-1598 | For the whole of executeQueryImpl: routed and started queries have finalized nothing. Every other failure except a queue rejection finishes the transaction exactly once and charges ERRORS iff not internal with a quota. A queue rejection leaves the transaction open. |
| LifecycleProperties.AdmitRejectsOnlyFromQueue | src/Interpreters/executeQuery.cpp:196-202 | Admission fails only with the queue's error and changes at most the worker group. |
| LifecycleProperties.AdmitKeepsTxn | src/Interpreters/executeQuery.cpp:765-774 | Admission keeps the bound transaction and rejects only when one is attached. |
| LifecycleProperties.FinishCallbackFinalizes | src/Interpreters/executeQuery.cpp:1233-1237 | finish_callback finishes the transaction exactly once, also without a process-list element, and charges no error. |
| LifecycleProperties.FinishCallbackReports | src/Interpreters/executeQuery.cpp:1224-1237 | The cache write is finalized iff its guard holds. The finish log and the plan-segment cancellation happen iff there is a process-list element. The async status becomes Finished iff there is also an async query id. |
| LifecycleProperties.ExceptionCallbackFinalizes | src/Interpreters/executeQuery.cpp:1462-1466 | exception_callback finishes the transaction exactly once, charges exactly one ERRORS unit iff a quota was captured, and logs the exception once. |
| LifecycleProperties.ExceptionCallbackRootCause | src/Interpreters/executeQuery.cpp:1494-1567 | It rethrows iff an ambiguous code was replaced by a different coordinator code, with the resolved code. The coordinator is notified of the resolved code last; without a coordinator nothing is notified. |
| LifecycleProperties.StartedQueryFinishesInCallback | src/Interpreters/executeQuery.cpp:1199-1572 | A started query, followed by either callback, finishes its transaction exactly once. Through the exception callback it also charges ERRORS once iff the interpreter did not ignore the quota. |
| LifecycleProperties.LifecycleStartCapturesQuota | src/Interpreters/executeQuery.cpp:864-868 | The quota captured by the exception callback exists iff the context has one and the interpreter does not ignore it. |
| RoutingProperties.RoutedIff | src/Interpreters/executeQuery.cpp:692-717 | A parsed query is forwarded iff all of these hold: the node is a server; no implicit commit failed; the session is still interactive (not just committed), or auto-forwarding or use_query_cache is on; the router named a remote host; and the proxy succeeded. |
| RoutingProperties.FrontForwardedIff | src/Interpreters/executeQuery.cpp:692-717 | The first guarded block forwards a parsed query iff the node is a server, no implicit commit failed, forwarding is asked for, the router names a remote host and the proxy succeeds. |
| RoutingProperties.LaunchIsLocal | src/Interpreters/executeQuery.cpp:759-1598 | After the first guarded block nothing commits the session or forwards the query, and the outcome is never a forwarding. |
| RoutingProperties.FrontCommitsFirst | src/Interpreters/executeQuery.cpp:692-722 | In the first guarded block the commit, if any, is the first effect, and it happens iff the parsed query is DDL in an interactive session and the commit succeeds. |
| RoutingProperties.RoutedOnlyFromFront | src/Interpreters/executeQuery.cpp:699-717 | Only the first guarded block forwards a query; its state and effects are the whole result. |
| RoutingProperties.RoutedQueryStaysRemote | src/Interpreters/executeQuery.cpp:699-722 | A forwarded query's only effects are the implicit commit and the forwarding, which comes last. It gets no SETTINGS clause, no transaction, no queueing, no process-list entry and no callbacks. |
| RoutingProperties.ImplicitCommitComesFirst | src/Interpreters/executeQuery.cpp:692-697 | The session is committed iff the parsed query is DDL in an interactive session and the commit succeeds. The commit is then the very first effect, and nothing else ever commits. |
| RoutingProperties.PartitionAlterNeverCommits | src/Interpreters/executeQuery.cpp:1899-1913 | A single attach or non-detaching partition drop never commits the session. |
| LifecycleSpec.ChargeUntilExceeded | src/Interpreters/executeQuery.cpp:870-878 | The charges are made in the order of the units and are a prefix of them: the i-th charge is of the i-th unit, and no more charges than units. |
| RunProperties.ChargeStopsAtFirstReached | src/Interpreters/executeQuery.cpp:870-878 | Each charge checks its own limit: every unit charged before the last one was within its limit, charging ends early only at a unit whose limit is reached, and the last charged unit reached its limit iff some unit of the list did. |
| RunProperties.QuotaChargesCases | src/Interpreters/executeQuery.cpp:864-881 | QUERIES is charged iff the query is charged at all and its statement unit (QUERY_SELECTS for SELECT, QUERY_INSERTS for INSERT) did not reach its limit. The quota fails iff the query is charged and the statement unit, QUERIES or ERRORS reached its limit. |
| RunProperties.QuotaStopsAtFirstLimit | src/Interpreters/executeQuery.cpp:864-881 | In the second guarded block, with no earlier failure, QUERIES is charged and the query fails with an exceeded quota exactly as QuotaChargesCases says. |
| RunProperties.InternalOrExplainNeverUsesCache | src/Interpreters/executeQuery.cpp:763 | An internal query or an EXPLAIN never reads the query cache, records a run or attaches a cache writer anywhere in executeQueryImpl, and its finish_callback never finalizes a cache write. |
| RunProperties.NonDmlNeverQueued | src/Interpreters/executeQuery.cpp:165-204 | A statement tryQueueQuery does not take (anything but SELECT, SELECT … UNION, INSERT, DELETE and UPDATE) is never enqueued and never fails with the queue's error, on any path through executeQueryImpl. |
| QueryLifecycle.QueryContext.constructor | src/Interpreters/executeQuery.cpp:607-618 | The context starts with the caller's role, settings, transaction, session, process-list element (which an internal query run on a running query's context inherits) and worker group, nothing served from cache and an empty trace. |
| QueryLifecycle.QueryContext.FinishCurrentTransaction | src/Interpreters/executeQuery.cpp:656-664 | Finishes the bound transaction iff there is one and the role is server; the state is unchanged. |
| QueryLifecycle.QueryContext.BeforeStartFailure | src/Interpreters/executeQuery.cpp:742-757 | The body of both catch blocks: the finish, then for a non-internal query the ERRORS unit and the before-start log. |
| QueryLifecycle.QueryContext.ServerDefaults | src/Interpreters/executeQuery.cpp:642-645 | A server forces distributed_product_mode = global. |
| QueryLifecycle.QueryContext.ApplyWarehouseSettings | src/Interpreters/executeQuery.cpp:683-690 | A server with customised warehouse settings applies them. |
| QueryLifecycle.QueryContext.ImplicitCommit | src/Interpreters/executeQuery.cpp:692-697 | Commits and ends the session's transaction. |
| QueryLifecycle.QueryContext.Front | src/Interpreters/executeQuery.cpp:667-740 | The first guarded block, step by step, leaves the state and effects of LifecycleSpec.Front and reports continue, routed or aborted. |
| QueryLifecycle.QueryContext.RouteOrInterpret | src/Interpreters/executeQuery.cpp:699-722 | The routing short-circuit and the SETTINGS clause. |
| QueryLifecycle.QueryContext.AdjustSettings | src/Interpreters/executeQuery.cpp:484-501 | The settings replacements. |
| QueryLifecycle.QueryContext.PrepareCnchTransaction | src/Interpreters/executeQuery.cpp:503-572 | Binds the transaction and returns it, as specified by LifecycleSpec.PrepareCnchTransaction. |
| QueryLifecycle.QueryContext.TryQueueQuery | src/Interpreters/executeQuery.cpp:165-204 | Enqueues a DML query with a worker group. It returns the queue failure or rebinds the worker group. |
| QueryLifecycle.QueryContext.Admit | src/Interpreters/executeQuery.cpp:765-774 | Warehouse assignment and the guarded call of tryQueueQuery. |
| QueryLifecycle.QueryContext.Register | src/Interpreters/executeQuery.cpp:818-881 | Prepares the interpreter and, only if that succeeds, charges the quota. It leaves the state and effects of LifecycleSpec.Register and returns the error that stops it. |
| QueryLifecycle.QueryContext.PrepareInterpreter | src/Interpreters/executeQuery.cpp:818-862 | In order: the process-list entry, loading external tables (which may throw), the optimizer switch for internal queries, then preparing the input storage and building the interpreter (which may throw). It leaves the state and effects of LifecycleSpec.PrepareInterpreter and returns the stage that threw. |
| QueryLifecycle.QueryContext.EnterProcessList | src/Interpreters/executeQuery.cpp:818-825 | A query that is neither internal nor SHOW PROCESSLIST gets a process-list entry; any other query leaves state and trace unchanged. |
| QueryLifecycle.QueryContext.TurnOffOptimizerIfInternal | src/Interpreters/executeQuery.cpp:834-835 | An internal query gets enable_optimizer off; nothing else changes. |
| QueryLifecycle.QueryContext.ChargeQuota | src/Interpreters/executeQuery.cpp:864-881 | Charges the statement's own unit, then QUERIES, then checks ERRORS, stopping at the first limit reached. It changes no state, appends exactly LifecycleSpec.QuotaCharges and reports failure exactly when LifecycleSpec.QuotaFails holds, whose cases QuotaChargesCases spells out. |
| QueryLifecycle.QueryContext.Interpret | src/Interpreters/executeQuery.cpp:895-933 | Runs the interpreter with at most one retry. |
| QueryLifecycle.QueryContext.ReadQueryCache | src/Interpreters/executeQuery.cpp:937-966 | The query-cache read. |
| QueryLifecycle.QueryContext.AttachQueryCacheWriter | src/Interpreters/executeQuery.cpp:1047-1073 | Records the run and attaches the writer. |
| QueryLifecycle.QueryContext.StartQuery | src/Interpreters/executeQuery.cpp:814-1595 | The second guarded block, with its catch: a failure of parameter substitution or the AST visitors, the AST limits, the process list, external tables, interpreter setup or the quota takes the before-start path after the effects already made; otherwise execution continues. It leaves the state, effects and outcome of LifecycleSpec.StartQuery. |
| QueryLifecycle.QueryContext.ExecuteAndAttach | src/Interpreters/executeQuery.cpp:895-1572 | Execution, the cache, the kill check and attaching the callbacks, after the effects already in the trace. |
| QueryLifecycle.QueryContext.Launch | src/Interpreters/executeQuery.cpp:759-1598 | Everything after the first guarded block. |
| QueryLifecycle.QueryContext.ExecuteQueryImpl | src/Interpreters/executeQuery.cpp:607-1598 | executeQueryImpl leaves exactly the state, effects and outcome of LifecycleSpec.Lifecycle, about which LifecycleFinalization, RoutedIff and ImplicitCommitComesFirst are proved. |
| QueryLifecycle.QueryContext.FinishCallback | src/Interpreters/executeQuery.cpp:1222-1444 | finish_callback's effects, as LifecycleSpec.FinishCallback. |
| QueryLifecycle.QueryContext.ExceptionCallback | src/Interpreters/executeQuery.cpp:1462-1569 | exception_callback's effects and the root cause it rethrows, as LifecycleSpec.ExceptionCallback. |
| QueryLifecycle.QueryContext.ConsultCoordinator | src/Interpreters/executeQuery.cpp:1494-1510 | Notifies an existing coordinator and returns the resolved root cause. |
| QueryLifecycle.QueryContext.ReportFailure | src/Interpreters/executeQuery.cpp:1512-1569 | Logs the exception, updates the async status and notifies the coordinator of the final code. |

## Left out

- The `executeQuery(ReadBuffer &, WriteBuffer &, ...)` overload (lines 1662-1886) is result I/O and output formatting, which is not part of this model. Its async dispatch at line 1718 calls the context's own `isAsyncMode` method, not the free function.
- Asynchronous HTTP execution (`executeHttpQueryInAsyncMode`, `updateAsyncQueryStatus`, 1930-2096) hands work to other threads and a catalog. Only the async-status updates the callbacks trigger are recorded, as events.
- Log, metric and tracing payloads are left out: query-log records, `logException`, OpenTelemetry spans and profile events. Only the query-log writes of the callbacks and of `onExceptionBeforeStart` are recorded, each as one `Emitted` event. The `log_queries` and minimum-duration gates on the query log are not modelled.
- These log and metric writes produce no event at all: `logQuery` at lines 749 and 796, the QUERY_START record (1077-1143), `insertCnchQueryMetric` (1148) and the `LOG_*` text lines. None of them changes the context or a collaborator the model tracks.
- The lexer and the sensitive-data masker (`joinLines`, `prepareQueryForLogging`) depend on external singletons and only shape log text.
- Clocks, elapsed times and other floating-point values are not modelled.
- Collaborator internals are oracles in `Environment`. These cover the parser, AST visitors, interpreters, `getMaxUpdateTime`, the query cache's keys and storage, the transaction coordinator, the process list and `MPPQueryManager::waitUntilFinish`.
- Exceptions thrown between the two guarded blocks are not modelled: the `setSetting` calls of `doSomeReplacementForSettings` and `setQuerySpecificSettings` (759-761), `createTransaction`, `DatabaseCatalog::getTable`, `trySetVirtualWarehouseAndWorkerGroup` and `initCnchServerResource` (771). They sit outside both `try` blocks, like a queue rejection, and would leave the same way: without finishing the transaction and without the before-start log.
- Exceptions from the warehouse lookup inside the first guarded block (`tryGetVirtualWarehouseName` and `overwriteDefaultSettings`, 685-688) are not modelled; they would take that block's `catch (...)` like the other failures there.
- When query-level profiling is on, `exception_callback` reads `process_list_elem` without checking it for null. The model assumes that read succeeds.
- Query parameters, the global WITH propagation, the INSERT tail and the query text are not modelled. They change only the AST and the logged text; that they may throw is modelled, by the oracle `setupFailsAt`.
