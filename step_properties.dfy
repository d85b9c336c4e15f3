/**
 * Properties of the individual steps of executeQueryImpl: transaction
 * attachment (prepareCnchTransaction), admission (tryQueueQuery), the
 * interpreter's retry policy, the query-cache read and writer, the settings
 * replacements, and the two callbacks.
 */
module StepProperties {
  import opened QueryTypes
  import opened QuerySettings
  import opened QueryClassify
  import opened LifecycleSpec

  // ---------------------------------------------------------------------------
  // Transaction attachment

  /** Only servers and workers get a transaction; an existing one is reused unchanged. */
  lemma TxnOnlyForCnchRoles(c: Ctx, q: Query, env: Environment)
    ensures var t := PrepareCnchTransaction(c, q, env);
      (c.role != CnchServer && c.role != CnchWorker ==> t == TxnStep(c, [], None))
      && (c.role in {CnchServer, CnchWorker} && c.txn.Some? ==> t == TxnStep(c, [], c.txn))
      && (t.txn.Some? ==> t.c.txn == t.txn)
  {
  }

  /**
   * A server creates a transaction whose read-only flag is the statement's and
   * whose parent is the explicit session transaction (0 without one); the
   * statement is appended to that session transaction exactly when one exists
   * and the statement is not read-only.
   */
  lemma ServerTxnCreation(c: Ctx, q: Query, env: Environment)
    requires c.role == CnchServer && c.txn.None?
    ensures var t := PrepareCnchTransaction(c, q, env);
      var parent := SessionExplicitTxn(c);
      var txn := ServerTxn(env.newTxnId, q.readOnly, if parent.Some? then parent.value.id else 0);
      t.txn == Some(txn) && t.c.txn == Some(txn)
      && t.events[0] == TxnCreated(txn)
      && (SessionStatementAdded(q.text) in t.events <==> parent.Some? && !q.readOnly)
      && (parent.Some? && !q.readOnly ==>
            t.c.session.value.txn.value.statements == parent.value.statements + [q.text]
            && t.c.session.value.txn.value.id == parent.value.id)
      && (parent.None? || q.readOnly ==> t.c.session == c.session)
  {
  }

  /**
   * A worker creates a transaction only for an initial INSERT or SYSTEM DEDUP
   * naming a table that is a Cnch or Cloud MergeTree; an unqualified table
   * belongs to the current database.
   */
  lemma WorkerTxnCreation(c: Ctx, q: Query, env: Environment)
    requires c.role == CnchWorker && c.txn.None?
    ensures var t := PrepareCnchTransaction(c, q, env);
      var (database, table) := WorkerTarget(q.stmt);
      (t.txn.Some? <==> c.queryKind == InitialQuery && table != "" && env.targetIsCnchTable)
      && (t.txn.Some? ==>
            (q.stmt.Insert? || (q.stmt.System? && q.stmt.systemKind == SystemDedup))
            && t.txn.value == WorkerTxn(if database == "" then c.currentDatabase else database, table)
            && t.events == [TxnCreated(t.txn.value)])
      && (t.txn.None? ==> t == TxnStep(c, [], None))
  {
  }

  // ---------------------------------------------------------------------------
  // Admission

  /** The worker group after a transaction was attached and the warehouse chosen. */
  function GroupAfterAssignment(c: Ctx, env: Environment): Option<WorkerGroup>
  {
    if env.vwAssignment.Some? then env.vwAssignment else c.workerGroup
  }

  /**
   * A query is enqueued exactly when a transaction is attached on a server,
   * the query is neither internal nor SHOW PROCESSLIST, the queue is enabled,
   * the statement is DML and a worker group is bound.  A rejection raises the
   * queue's status; a success may rebind the worker group from the current
   * warehouse.
   */
  lemma AdmissionDecision(c: Ctx, txn: Option<Txn>, internal: bool, stmt: Statement, env: Environment)
    ensures var a := Admit(c, txn, internal, stmt, env);
      var group := GroupAfterAssignment(c, env);
      (a.events != [] <==>
         txn.Some? && c.role == CnchServer && !internal && !stmt.ShowProcesslist?
         && c.settings.enableQueryQueue && IsQueueableType(stmt) && group.Some?)
      && (a.events != [] ==> a.events == [Enqueued(group.value)])
      && (a.Rejected? <==> a.events != [] && env.queueResult.QueueRejected?)
      && (a.Rejected? ==> a.err == QueueFailure(env.queueResult.status))
      && (a.Admitted? && a.events != [] && env.currentVwInstance.Some? ==>
            a.c.workerGroup == Some(WorkerGroup(group.value.name, env.currentVwInstance.value)))
      && (txn.Some? && (a.events == [] || env.currentVwInstance.None?) ==> a.c.workerGroup == group)
      && (txn.None? ==> a == Admitted(c, []))
  {
  }

  // ---------------------------------------------------------------------------
  // Retry policy

  /**
   * At most one retry.  Without one the first run's outcome stands (the
   * original error is rethrown); with one the retry's outcome stands, a
   * failure included, which is not caught again.
   */
  lemma RetryAtMostOnce(c: Ctx, env: Environment)
    ensures var i := Interpret(c, env);
      |i.events| <= 1
      && (forall e | e in i.events :: e.RetryAttempted? && e.decision != Rethrow)
      && (env.firstRun.RunOk? ==> i == Interpreted(c, [], env.firstRun))
      && (env.firstRun.RunFailed? ==>
            (i.events == [] <==> RetryPolicy(env.interpreter, c.settings) == Rethrow)
            && (i.events == [] ==> i.result == env.firstRun && i.c == c)
            && (i.events != [] ==> i.result == env.retryRun))
  {
  }

  /** The optimizer fallback retries with the optimizer off; a successful retry sets the profile timeout. */
  lemma OptimizerFallback(c: Ctx, env: Environment)
    requires env.firstRun.RunFailed? && env.interpreter == OptimizerInterpreter && c.settings.enableOptimizerFallback
    ensures var i := Interpret(c, env);
      i.events == [RetryAttempted(RetryWithoutOptimizer)]
      && !i.c.settings.enableOptimizer
      && (i.result.RunOk? ==> i.c.settings.operatorProfileReceiveTimeout == 3001)
      && (i.result.RunFailed? ==> i.c.settings.operatorProfileReceiveTimeout == c.settings.operatorProfileReceiveTimeout)
  {
    assert RetryPolicy(env.interpreter, c.settings) == RetryWithoutOptimizer;
    var off := c.settings.(enableOptimizer := false);
    if env.retryRun.RunOk? {
      assert Interpret(c, env).c.settings == off.(operatorProfileReceiveTimeout := 3001);
    } else {
      assert Interpret(c, env).c.settings == off;
    }
  }

  /** The perfect-shard fallback retries with distributed_perfect_shard off and the optimizer untouched. */
  lemma PerfectShardFallback(c: Ctx, env: Environment)
    requires env.firstRun.RunFailed? && env.interpreter == PlainInterpreter
    requires !c.settings.enableOptimizer && c.settings.distributedPerfectShard && c.settings.fallbackPerfectShard
    ensures var i := Interpret(c, env);
      i.events == [RetryAttempted(RetryWithoutPerfectShard)]
      && !i.c.settings.distributedPerfectShard
      && !i.c.settings.enableOptimizer
      && i.result == env.retryRun
  {
  }

  // ---------------------------------------------------------------------------
  // Query cache

  /**
   * The read happens exactly when the query may use the cache, reads are
   * enabled, the pipeline has streams and known storages, the freshness is
   * non-zero and the cache hits; the served-from-cache flag records it and
   * nothing else changes.
   */
  lemma CacheReadDecision(c: Ctx, canUse: bool, p: Pipeline, env: Environment)
    ensures var r := ReadQueryCache(c, canUse, p, env);
      (CacheRead in r.events <==>
         env.hasQueryCache && canUse && c.settings.enableReadsFromQueryCache
         && p.numStreams > 0 && p.hasAllUsedStorageIds && p.storageIds != {}
         && Freshness(c.settings, env.maxUpdateTime) != 0 && env.cacheHit)
      && (r.c.servedFromCache <==> CacheRead in r.events)
      && r.c == c.(servedFromCache := r.c.servedFromCache)
  {
  }

  /** Outside transactional mode the freshness gate always opens. */
  lemma NonTransactionalReadNeedsOnlyAHit(c: Ctx, canUse: bool, p: Pipeline, env: Environment)
    requires !c.settings.enableTransactionalQueryCache
    ensures CacheRead in ReadQueryCache(c, canUse, p, env).events <==>
      CacheReadEligible(env.hasQueryCache, canUse, c.settings, p) && env.cacheHit
  {
  }

  /** In transactional mode a zero update time disables the read. */
  lemma TransactionalReadNeedsUpdateTime(c: Ctx, canUse: bool, p: Pipeline, env: Environment)
    requires c.settings.enableTransactionalQueryCache && env.maxUpdateTime == 0
    ensures ReadQueryCache(c, canUse, p, env).events == []
  {
  }

  /**
   * A run is recorded when the result was not read from the cache and may be
   * written; the writer is attached only once the recorded count is strictly
   * greater than query_cache_min_query_runs.
   */
  lemma CacheWriterDecision(c: Ctx, canUse: bool, p: Pipeline, nondeterministic: bool, env: Environment)
    ensures var w := AttachQueryCacheWriter(c, canUse, p, nondeterministic, env);
      (QueryRunRecorded in w <==>
         !c.servedFromCache && env.hasQueryCache && canUse && c.settings.enableWritesToQueryCache
         && p.numStreams > 0 && (!nondeterministic || c.settings.queryCacheStoreNondeterministic))
      && (CacheWriterAttached in w <==> QueryRunRecorded in w && env.runCount > c.settings.queryCacheMinQueryRuns)
      && (c.servedFromCache ==> w == [])
  {
  }

  /** The threshold is strict: the threshold-th run attaches no writer, the next one does. */
  lemma WriterThresholdIsStrict(c: Ctx, canUse: bool, p: Pipeline, nondeterministic: bool, env: Environment)
    requires CacheWriteEligible(c.servedFromCache, env.hasQueryCache, canUse, c.settings, p, nondeterministic)
    ensures env.runCount == c.settings.queryCacheMinQueryRuns ==>
      AttachQueryCacheWriter(c, canUse, p, nondeterministic, env) == [QueryRunRecorded]
    ensures env.runCount == c.settings.queryCacheMinQueryRuns + 1 ==>
      AttachQueryCacheWriter(c, canUse, p, nondeterministic, env) == [QueryRunRecorded, CacheWriterAttached]
  {
  }

  /** A result served from the cache is never also written to it. */
  lemma CacheReadExcludesWrite(c: Ctx, canUse: bool, p: Pipeline, nondeterministic: bool, env: Environment)
    ensures var r := ReadQueryCache(c, canUse, p, env);
      CacheRead in r.events ==> AttachQueryCacheWriter(r.c, canUse, p, nondeterministic, env) == []
  {
  }

  // ---------------------------------------------------------------------------
  // Settings replacements

  /** enable_distributed_stages is replaced by enable_optimizer. */
  lemma DistributedStagesReplaced(c: Ctx, stmt: Statement)
    ensures var r := AdjustSettings(c, stmt).settings;
      !r.enableDistributedStages
      && r.enableOptimizer == (c.settings.enableOptimizer || c.settings.enableDistributedStages)
  {
  }

  /** INSERT WATCH turns on output_format_enable_streaming; other statements leave it. */
  lemma InsertWatchStreams(c: Ctx, stmt: Statement)
    ensures var r := AdjustSettings(c, stmt).settings;
      r.outputFormatEnableStreaming == (c.settings.outputFormatEnableStreaming || (stmt.Insert? && stmt.watch))
  {
  }

  /** The replacements touch only the settings. */
  lemma AdjustSettingsOnlySettings(c: Ctx, stmt: Statement)
    ensures var r := AdjustSettings(c, stmt);
      r.txn == c.txn && r.session == c.session && r.workerGroup == c.workerGroup
      && r.hasProcessListEntry == c.hasProcessListEntry
  {
  }
}
