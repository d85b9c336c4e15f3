/**
 * The pure decision rules of executeQuery.cpp: statement classification, the
 * routing and admission conditions, query-cache eligibility, the retry policy
 * for a failed interpreter and the resolution of an ambiguous distributed
 * error.
 */
module QueryClassify {
  import opened QueryTypes

  /**
   * isQueryInInteractiveSession: the query runs in a session context distinct
   * from itself, and that session holds a transaction.
   */
  predicate IsQueryInInteractiveSession(session: Option<Session>)
  {
    session.Some? && !session.value.isQueryContext && session.value.txn.Some?
  }

  /** The single ALTER command, when the command list holds exactly one. */
  function SingleAlterCommand(commands: Option<seq<AlterCommand>>): (r: Option<AlterCommand>)
    ensures r.Some? <==> commands.Some? && |commands.value| == 1
    ensures r.Some? ==> r.value == commands.value[0]
  {
    if commands.Some? && |commands.value| == 1 then Some(commands.value[0]) else None
  }

  /** ATTACH PARTS FROM a directory, or ATTACH a DETACHED partition. */
  predicate IsAttachCommand(cmd: AlterCommand)
  {
    cmd.attachFromDetached || cmd.parts
  }

  /** DROP PARTITION or DROP PARTITION WHERE that does not DETACH. */
  predicate IsDropPartitionCommand(cmd: AlterCommand)
  {
    (cmd.kind == DropPartition || cmd.kind == DropPartitionWhere) && !cmd.detach
  }

  /**
   * isDDLQuery.  An ALTER is DDL unless it is a single attach or a single
   * non-detaching partition drop; CREATE, RENAME and every DROP but TRUNCATE
   * are DDL; nothing else is.
   */
  function IsDDLQuery(stmt: Statement): (r: bool)
    ensures stmt.Create? || stmt.Rename? ==> r
    ensures stmt.Drop? ==> (r <==> stmt.dropKind != TruncateTable)
    ensures stmt.Alter? && SingleAlterCommand(stmt.commands).Some? ==>
      (r <==> !IsAttachCommand(stmt.commands.value[0]) && !IsDropPartitionCommand(stmt.commands.value[0]))
    ensures stmt.Alter? && SingleAlterCommand(stmt.commands).None? ==> r
    ensures r ==> stmt.Alter? || stmt.Create? || stmt.Drop? || stmt.Rename?
  {
    match stmt
    case Alter(commands) =>
      var single := SingleAlterCommand(commands);
      if single.Some? && IsAttachCommand(single.value) then false
      else if single.Some? && IsDropPartitionCommand(single.value) then false
      else true
    case Create => true
    case Drop(kind) => kind != TruncateTable
    case Rename => true
    case _ => false
  }

  /** isAsyncMode: an initial query on a server with enable_async_execution. */
  predicate IsAsyncMode(kind: QueryKind, role: ServerType, s: Settings)
  {
    kind == InitialQuery && role == CnchServer && s.enableAsyncExecution
  }

  /** The statement types tryQueueQuery admits into the query queue. */
  predicate IsQueueableType(stmt: Statement)
  {
    stmt.Select? || stmt.SelectWithUnion? || stmt.Insert? || stmt.Delete? || stmt.Update?
  }

  /** Conditions under which executeQueryImpl calls tryQueueQuery. */
  predicate ShouldTryQueue(txnAttached: bool, role: ServerType, internal: bool, stmt: Statement, s: Settings)
  {
    txnAttached && role == CnchServer && !internal && !stmt.ShowProcesslist? && s.enableQueryQueue
  }

  /** Conditions under which a server asks the router for a target host. */
  predicate ShouldResolveRoute(role: ServerType, session: Option<Session>, s: Settings)
  {
    role == CnchServer
    && (IsQueryInInteractiveSession(session) || s.enableAutoQueryForwarding || s.useQueryCache)
  }

  /** can_use_query_cache. */
  predicate CanUseQueryCache(s: Settings, internal: bool, stmt: Statement)
  {
    s.useQueryCache && !internal && !stmt.Explain?
  }

  /** The guard of the query-cache read: a cache exists and the pipeline's sources are all known. */
  predicate CacheReadEligible(hasQueryCache: bool, canUse: bool, s: Settings, p: Pipeline)
  {
    hasQueryCache && canUse && s.enableReadsFromQueryCache
    && p.numStreams > 0 && p.hasAllUsedStorageIds && p.storageIds != {}
  }

  /** TxnTimestamp::minTS(), the freshness used when transactional caching is off. */
  const MinTimestamp: nat := 1

  /**
   * Source update time for the query cache: the tables' last update time in
   * transactional mode, otherwise the minimal timestamp.  A read happens only
   * when it is non-zero.
   */
  function Freshness(s: Settings, maxUpdateTime: nat): (r: nat)
    ensures !s.enableTransactionalQueryCache ==> r != 0
    ensures s.enableTransactionalQueryCache ==> r == maxUpdateTime
  {
    if s.enableTransactionalQueryCache then maxUpdateTime else MinTimestamp
  }

  /** The guard of the query-cache writer (before the run count is consulted). */
  predicate CacheWriteEligible(servedFromCache: bool, hasQueryCache: bool, canUse: bool, s: Settings,
                               p: Pipeline, nondeterministic: bool)
  {
    !servedFromCache && hasQueryCache && canUse && s.enableWritesToQueryCache
    && p.numStreams > 0 && (!nondeterministic || s.queryCacheStoreNondeterministic)
  }

  /** A writer is attached only once the recorded run count exceeds query_cache_min_query_runs. */
  predicate RunCountAllowsWriter(runCount: nat, s: Settings)
  {
    runCount > s.queryCacheMinQueryRuns
  }

  /** The guard under which finish_callback finalizes a write into the query cache. */
  predicate FinalizesCacheWrite(hasQueryCache: bool, fin: Finalization)
  {
    hasQueryCache && fin.pullingPipeline && fin.canUseQueryCache && fin.enableWritesToQueryCache
    && (!fin.nondeterministic || fin.storeNondeterministic)
  }

  /**
   * The handler of a failed IInterpreter::execute().  An optimizer interpreter
   * falls back to the plain one when enable_optimizer_fallback is set and
   * rethrows otherwise; any other interpreter falls back from perfect-shard
   * mode when the optimizer is off and both perfect-shard settings are set.
   */
  function RetryPolicy(kind: InterpreterKind, s: Settings): (d: RetryDecision)
    ensures d == RetryWithoutOptimizer <==> kind == OptimizerInterpreter && s.enableOptimizerFallback
    ensures d == RetryWithoutPerfectShard <==>
      kind != OptimizerInterpreter && !s.enableOptimizer && s.distributedPerfectShard && s.fallbackPerfectShard
    ensures kind == OptimizerInterpreter ==> d != RetryWithoutPerfectShard
  {
    if kind == OptimizerInterpreter then
      if s.enableOptimizerFallback then RetryWithoutOptimizer else Rethrow
    else if !s.enableOptimizer && s.distributedPerfectShard && s.fallbackPerfectShard then
      RetryWithoutPerfectShard
    else
      Rethrow
  }

  /** The error code exception_callback reports, and whether it rethrows it. */
  datatype RootCause = RootCause(code: int, rethrow: bool)

  /**
   * Resolution of an ambiguous distributed error: when the query has an MPP
   * coordinator and the local code is ambiguous, the coordinator's summarized
   * code replaces the local one, and it is rethrown exactly when it differs.
   */
  function ResolveRootCause(localCode: int, coordinatorCode: Option<int>, ambiguous: bool): (r: RootCause)
    ensures r.rethrow <==> coordinatorCode.Some? && ambiguous && coordinatorCode.value != localCode
    ensures coordinatorCode.Some? && ambiguous ==> r.code == coordinatorCode.value
    ensures !(coordinatorCode.Some? && ambiguous) ==> r.code == localCode
    ensures !r.rethrow ==> r.code == localCode
  {
    if coordinatorCode.Some? && ambiguous then
      RootCause(coordinatorCode.value, coordinatorCode.value != localCode)
    else
      RootCause(localCode, false)
  }
}
