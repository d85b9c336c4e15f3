/**
 * The query context as the mutable object executeQueryImpl works on.  Each
 * method performs the steps of the corresponding part of executeQuery.cpp on
 * the context's fields, appends the side effects to `trace`, and is proved to
 * agree with the function of the same name in LifecycleSpec.
 */
module QueryLifecycle {
  import opened QueryTypes
  import opened QuerySettings
  import opened QueryClassify
  import opened LifecycleSpec

  /** How the first guarded block ends, without the state. */
  datatype FrontStatus = Continue(query: Query) | Routed | Aborted(err: QueryError)

  function StatusOf(f: FrontResult): FrontStatus
  {
    match f
    case Proceed(_, _, q) => Continue(q)
    case Forwarded(_, _) => Routed
    case FrontFailed(_, _, err) => Aborted(err)
  }

  /** The routing step only appends to the effects before it. */
  lemma RouteOrInterpretAfter(s: Step, before: seq<Event>, src: Source, q: Query, env: Environment)
    ensures var f := RouteOrInterpret(s, src, q, env);
      var g := RouteOrInterpret(Step(s.c, before + s.events), src, q, env);
      g.c == f.c && g.events == before + f.events && StatusOf(g) == StatusOf(f)
  {
  }

  /** How the steps from the process-list insert to the quota end, without the state. */
  function RegistrationError(r: Registration): Option<QueryError>
  {
    if r.RegisterFailed? then Some(r.err) else None
  }

  /** How admission ends, without the state. */
  function AdmissionError(a: Admission): Option<QueryError>
  {
    if a.Rejected? then Some(a.err) else None
  }

  class QueryContext {
    const role: ServerType
    const queryKind: QueryKind
    const currentDatabase: string
    const asyncQueryId: string
    var settings: Settings
    var txn: Option<Txn>
    var session: Option<Session>
    var hasProcessListEntry: bool
    var workerGroup: Option<WorkerGroup>
    var servedFromCache: bool
    /** The side effects performed on collaborators, oldest first. */
    var trace: seq<Event>

    function State(): Ctx
      reads this
    {
      Ctx(role, queryKind, currentDatabase, asyncQueryId, settings, txn, session,
          hasProcessListEntry, workerGroup, servedFromCache)
    }

    constructor (role: ServerType, queryKind: QueryKind, currentDatabase: string, asyncQueryId: string,
                 settings: Settings, txn: Option<Txn>, session: Option<Session>, hasProcessListEntry: bool,
                 workerGroup: Option<WorkerGroup>)
      ensures State() == Ctx(role, queryKind, currentDatabase, asyncQueryId, settings, txn, session,
                             hasProcessListEntry, workerGroup, false)
      ensures trace == []
    {
      this.role := role;
      this.queryKind := queryKind;
      this.currentDatabase := currentDatabase;
      this.asyncQueryId := asyncQueryId;
      this.settings := settings;
      this.txn := txn;
      this.session := session;
      this.hasProcessListEntry := hasProcessListEntry;
      this.workerGroup := workerGroup;
      this.servedFromCache := false;
      this.trace := [];
    }

    method FinishCurrentTransaction()
      modifies this
      ensures State() == old(State())
      ensures trace == old(trace) + LifecycleSpec.FinishCurrentTransaction(old(State())).events
    {
      if txn.Some? && role == CnchServer {
        trace := trace + [TxnFinished(txn.value)];
      }
    }

    /** The body of both before-start `catch (...)` blocks. */
    method BeforeStartFailure(internal: bool, hasQuota: bool)
      modifies this
      ensures State() == LifecycleSpec.BeforeStartFailure(old(State()), internal, hasQuota).c
      ensures trace == old(trace) + LifecycleSpec.BeforeStartFailure(old(State()), internal, hasQuota).events
    {
      FinishCurrentTransaction();
      if !internal {
        if hasQuota {
          trace := trace + [QuotaUsed(Errors)];
        }
        trace := trace + [Emitted(ExceptionBeforeStart)];
      }
    }

    /** The first guarded block: parse, warehouse settings, implicit commit, routing, SETTINGS. */
    method ServerDefaults()
      modifies this
      ensures State() == LifecycleSpec.ServerDefaults(old(State()))
      ensures trace == old(trace)
    {
      if role == CnchServer {
        settings := settings.(globalDistributedProductMode := true);
      }
    }

    method ApplyWarehouseSettings(env: Environment)
      modifies this
      ensures State() == LifecycleSpec.ApplyWarehouseSettings(old(State()), env)
      ensures trace == old(trace)
    {
      if role == CnchServer && env.vwOverride.Some? {
        settings := ApplyAll(settings, env.vwOverride.value);
      }
    }

    method ImplicitCommit()
      requires IsQueryInInteractiveSession(session)
      modifies this
      ensures State() == LifecycleSpec.ImplicitCommit(old(State())).c
      ensures trace == old(trace) + LifecycleSpec.ImplicitCommit(old(State())).events
    {
      trace := trace + [SessionCommitted(session.value.txn.value.id)];
      session := Some(session.value.(txn := None));
    }

    method Front(src: Source, env: Environment) returns (status: FrontStatus)
      modifies this
      ensures State() == LifecycleSpec.Front(old(State()), src, env).c
      ensures trace == old(trace) + LifecycleSpec.Front(old(State()), src, env).events
      ensures status == StatusOf(LifecycleSpec.Front(old(State()), src, env))
    {
      ghost var t0 := trace;
      ServerDefaults();
      var parsed := ParsedQuery(src);
      if parsed.None? {
        return Aborted(SyntaxError);
      }
      var q := parsed.value;
      ApplyWarehouseSettings(env);
      ghost var c1 := State();
      var commit := IsQueryInInteractiveSession(session) && IsDDLQuery(q.stmt);
      if commit && env.commitFails {
        return Aborted(ImplicitCommitFailed);
      }
      if commit {
        ImplicitCommit();
      }
      ghost var s := if commit then LifecycleSpec.ImplicitCommit(c1) else Step(c1, []);
      assert State() == s.c && trace == t0 + s.events;
      status := RouteOrInterpret(src, q, env);
      RouteOrInterpretAfter(s, t0, src, q, env);
    }

    /** The routing short-circuit and the SETTINGS clause, from the state the commit left. */
    method RouteOrInterpret(src: Source, q: Query, env: Environment) returns (status: FrontStatus)
      modifies this
      ensures var f := LifecycleSpec.RouteOrInterpret(Step(old(State()), old(trace)), src, q, env);
        State() == f.c && trace == f.events && status == StatusOf(f)
    {
      if ShouldResolveRoute(role, session, settings) {
        if env.route.RouteFails? {
          return Aborted(RoutingFailed);
        }
        if env.route.RemoteTarget? {
          trace := trace + [ForwardedTo(env.route.host)];
          if env.proxyFails {
            return Aborted(ProxyFailed);
          }
          return Routed;
        }
      }
      if src.QueryText? {
        if q.settingsClause != [] && env.settingsClauseFails {
          return Aborted(SettingsClauseFailed);
        }
        settings := ApplyAll(settings, q.settingsClause);
      }
      status := Continue(q);
    }

    /** doSomeReplacementForSettings and setQuerySpecificSettings. */
    method AdjustSettings(stmt: Statement)
      modifies this
      ensures State() == LifecycleSpec.AdjustSettings(old(State()), stmt)
      ensures trace == old(trace)
    {
      if settings.enableDistributedStages {
        settings := settings.(enableOptimizer := true, enableDistributedStages := false);
      }
      if stmt.Insert? && stmt.watch {
        settings := settings.(outputFormatEnableStreaming := true);
      }
    }

    method PrepareCnchTransaction(q: Query, env: Environment) returns (attached: Option<Txn>)
      modifies this
      ensures State() == LifecycleSpec.PrepareCnchTransaction(old(State()), q, env).c
      ensures trace == old(trace) + LifecycleSpec.PrepareCnchTransaction(old(State()), q, env).events
      ensures attached == LifecycleSpec.PrepareCnchTransaction(old(State()), q, env).txn
    {
      if role != CnchServer && role != CnchWorker {
        return None;
      }
      if txn.Some? {
        return txn;
      }
      if role == CnchServer {
        var sessionTxn := SessionExplicitTxn(State());
        var primary := if sessionTxn.Some? then sessionTxn.value.id else 0;
        var created := ServerTxn(env.newTxnId, q.readOnly, primary);
        txn := Some(created);
        trace := trace + [TxnCreated(created)];
        if sessionTxn.Some? && !q.readOnly {
          var logged := sessionTxn.value.(statements := sessionTxn.value.statements + [q.text]);
          session := Some(session.value.(txn := Some(logged)));
          trace := trace + [SessionStatementAdded(q.text)];
        }
        return Some(created);
      }
      var (database, table) := WorkerTarget(q.stmt);
      if queryKind == InitialQuery && table != "" {
        if database == "" {
          database := currentDatabase;
        }
        if !env.targetIsCnchTable {
          return None;
        }
        var created := WorkerTxn(database, table);
        txn := Some(created);
        trace := trace + [TxnCreated(created)];
        return Some(created);
      }
      attached := None;
    }

    method TryQueueQuery(stmt: Statement, env: Environment) returns (err: Option<QueryError>)
      modifies this
      ensures State() == LifecycleSpec.TryQueueQuery(old(State()), stmt, env).c
      ensures trace == old(trace) + LifecycleSpec.TryQueueQuery(old(State()), stmt, env).events
      ensures err == AdmissionError(LifecycleSpec.TryQueueQuery(old(State()), stmt, env))
    {
      if !IsQueueableType(stmt) {
        return None;
      }
      if workerGroup.Some? {
        var group := workerGroup.value;
        trace := trace + [Enqueued(group)];
        if env.queueResult.QueueSuccess? {
          if env.currentVwInstance.Some? {
            workerGroup := Some(WorkerGroup(group.name, env.currentVwInstance.value));
          }
        } else {
          return Some(QueueFailure(env.queueResult.status));
        }
      }
      err := None;
    }

    method Admit(attached: Option<Txn>, internal: bool, stmt: Statement, env: Environment)
      returns (err: Option<QueryError>)
      modifies this
      ensures State() == LifecycleSpec.Admit(old(State()), attached, internal, stmt, env).c
      ensures trace == old(trace) + LifecycleSpec.Admit(old(State()), attached, internal, stmt, env).events
      ensures err == AdmissionError(LifecycleSpec.Admit(old(State()), attached, internal, stmt, env))
    {
      err := None;
      if attached.Some? {
        if env.vwAssignment.Some? {
          workerGroup := env.vwAssignment;
        }
        if role == CnchServer && !internal && !stmt.ShowProcesslist? && settings.enableQueryQueue {
          err := TryQueueQuery(stmt, env);
        }
      }
    }

    /** IInterpreter::execute() and the fallback handler around it. */
    method Interpret(env: Environment) returns (result: RunOutcome)
      modifies this
      ensures State() == LifecycleSpec.Interpret(old(State()), env).c
      ensures trace == old(trace) + LifecycleSpec.Interpret(old(State()), env).events
      ensures result == LifecycleSpec.Interpret(old(State()), env).result
    {
      result := env.firstRun;
      if result.RunFailed? {
        var decision := RetryPolicy(env.interpreter, settings);
        if decision == RetryWithoutOptimizer {
          settings := settings.(enableOptimizer := false);
          trace := trace + [RetryAttempted(decision)];
          result := env.retryRun;
          if result.RunOk? {
            settings := settings.(operatorProfileReceiveTimeout := 3001);
          }
        } else if decision == RetryWithoutPerfectShard {
          settings := settings.(distributedPerfectShard := false);
          trace := trace + [RetryAttempted(decision)];
          result := env.retryRun;
        }
      }
    }

    method ReadQueryCache(canUse: bool, p: Pipeline, env: Environment)
      modifies this
      ensures State() == LifecycleSpec.ReadQueryCache(old(State()), canUse, p, env).c
      ensures trace == old(trace) + LifecycleSpec.ReadQueryCache(old(State()), canUse, p, env).events
    {
      servedFromCache := false;
      if CacheReadEligible(env.hasQueryCache, canUse, settings, p) {
        var freshness := Freshness(settings, env.maxUpdateTime);
        if freshness != 0 && env.cacheHit {
          servedFromCache := true;
          trace := trace + [CacheRead];
        }
      }
    }

    method AttachQueryCacheWriter(canUse: bool, p: Pipeline, nondeterministic: bool, env: Environment)
      modifies this
      ensures State() == old(State())
      ensures trace == old(trace) + LifecycleSpec.AttachQueryCacheWriter(old(State()), canUse, p, nondeterministic, env)
    {
      if CacheWriteEligible(servedFromCache, env.hasQueryCache, canUse, settings, p, nondeterministic) {
        trace := trace + [QueryRunRecorded];
        if RunCountAllowsWriter(env.runCount, settings) {
          trace := trace + [CacheWriterAttached];
        }
      }
    }

    /** The second guarded block: from the process list to attaching the callbacks. */
    method StartQuery(internal: bool, q: Query, canUse: bool, env: Environment) returns (outcome: Outcome)
      modifies this
      ensures State() == LifecycleSpec.StartQuery(old(State()), internal, q, canUse, env).c
      ensures trace == old(trace) + LifecycleSpec.StartQuery(old(State()), internal, q, canUse, env).events
      ensures outcome == LifecycleSpec.StartQuery(old(State()), internal, q, canUse, env).outcome
    {
      ghost var t0 := trace;
      var early := EarlyFailure(internal, q.stmt, env);
      if early.Some? {
        BeforeStartFailure(internal, env.hasQuota);
        return Failed(early.value);
      }
      ghost var r := LifecycleSpec.Register(old(State()), internal, q, env);
      var err := Register(internal, q, env);
      if err.Some? {
        BeforeStartFailure(internal, env.hasQuota);
        assert trace == t0 + r.events + LifecycleSpec.BeforeStartFailure(r.c, internal, env.hasQuota).events;
        return Failed(err.value);
      }
      outcome := ExecuteAndAttach(internal, q, canUse, env);
      ExecuteAndAttachAfter(r.c, t0, r.events, internal, q, canUse, env);
    }

    /**
     * From the process-list insert to the quota: each step that can throw ends
     * the method with its error.
     */
    method Register(internal: bool, q: Query, env: Environment) returns (err: Option<QueryError>)
      modifies this
      ensures var r := LifecycleSpec.Register(old(State()), internal, q, env);
        State() == r.c && trace == old(trace) + r.events && err == RegistrationError(r)
    {
      err := PrepareInterpreter(internal, q.stmt, env);
      if err.None? {
        var exceeded := ChargeQuota(q.stmt, env);
        err := if exceeded then Some(QuotaExceeded) else None;
      }
    }

    /** The process-list entry, external tables, the optimizer switch and the interpreter's construction. */
    method PrepareInterpreter(internal: bool, stmt: Statement, env: Environment) returns (err: Option<QueryError>)
      modifies this
      ensures var r := LifecycleSpec.PrepareInterpreter(old(State()), internal, stmt, env);
        State() == r.c && trace == old(trace) + r.events && err == RegistrationError(r)
    {
      EnterProcessList(internal, stmt);
      if env.setupFailsAt == Some(ExternalTables) {
        return Some(SetupFailed(ExternalTables));
      }
      TurnOffOptimizerIfInternal(internal);
      if env.setupFailsAt == Some(InterpreterSetup) {
        return Some(SetupFailed(InterpreterSetup));
      }
      return None;
    }

    /** Enters the query into the process list unless it is internal or SHOW PROCESSLIST. */
    method EnterProcessList(internal: bool, stmt: Statement)
      modifies this
      ensures var s := LifecycleSpec.EnterProcessList(old(State()), internal, stmt);
        State() == s.c && trace == old(trace) + s.events
    {
      if !internal && !stmt.ShowProcesslist? {
        hasProcessListEntry := true;
        trace := trace + [ProcessListInserted];
      }
    }

    /** Turns enable_optimizer off for an internal query. */
    method TurnOffOptimizerIfInternal(internal: bool)
      modifies this
      ensures State() == InternalOptimizerOff(old(State()), internal) && trace == old(trace)
    {
      if internal {
        settings := settings.(enableOptimizer := false);
      }
    }

    /**
     * The quota block: the statement's own unit, then QUERIES, then the check
     * of ERRORS; each charge checks its own limit and throws when it is reached.
     */
    method ChargeQuota(stmt: Statement, env: Environment) returns (exceeded: bool)
      modifies this
      ensures State() == old(State())
      ensures trace == old(trace) + QuotaCharges(stmt, env)
      ensures exceeded == QuotaFails(stmt, env)
    {
      if !ChargesQuota(env) {
        return false;
      }
      var reached := env.quotaLimitsReached;
      ghost var units := ChargedUnits(stmt);
      if stmt.Select? || stmt.SelectWithUnion? || stmt.Insert? {
        var unit := if stmt.Insert? then QueryInserts else QuerySelects;
        assert units == [unit, Queries];
        trace := trace + [QuotaUsed(unit)];
        if unit in reached {
          assert SomeReached(units, reached) by { assert units[0] in reached; }
          assert QuotaCharges(stmt, env) == [QuotaUsed(unit)];
          return true;
        }
        assert units[1..] == [Queries] && [Queries][1..] == [];
        assert ChargeUntilExceeded(units[1..], reached) == [QuotaUsed(Queries)];
        assert QuotaCharges(stmt, env) == [QuotaUsed(unit), QuotaUsed(Queries)];
      } else {
        assert units == [Queries];
        assert QuotaCharges(stmt, env) == [QuotaUsed(Queries)];
      }
      trace := trace + [QuotaUsed(Queries)];
      if Queries in reached || Errors in reached {
        assert Queries in reached ==> SomeReached(units, reached) by { assert units[|units| - 1] == Queries; }
        return true;
      }
      assert !SomeReached(units, reached);
      return false;
    }

    /** IInterpreter::execute(), the query cache, the last kill check and the callbacks. */
    method ExecuteAndAttach(internal: bool, q: Query, canUse: bool, env: Environment) returns (outcome: Outcome)
      modifies this
      ensures var r := LifecycleSpec.ExecuteAndAttach(old(State()), old(trace), internal, q, canUse, env);
        State() == r.c && trace == r.events && outcome == r.outcome
    {
      ghost var c0 := State();
      ghost var t0 := trace;
      ghost var r := LifecycleSpec.ExecuteAndAttach(c0, t0, internal, q, canUse, env);
      ghost var i := LifecycleSpec.Interpret(c0, env);
      var result := Interpret(env);
      if result.RunFailed? {
        assert r == FailBeforeStart(i.c, t0 + i.events, internal, env, InterpreterFailed(result.code));
        BeforeStartFailure(internal, env.hasQuota);
        return Failed(InterpreterFailed(result.code));
      }
      ghost var rc := LifecycleSpec.ReadQueryCache(i.c, canUse, result.pipeline, env);
      ReadQueryCache(canUse, result.pipeline, env);
      var pipeline := if servedFromCache then env.cachedPipeline else result.pipeline;
      var listed := !internal && !q.stmt.ShowProcesslist?;
      if listed && env.killedInPending {
        assert r == FailBeforeStart(rc.c, t0 + i.events + rc.events, internal, env, QueryWasCancelled);
        BeforeStartFailure(internal, env.hasQuota);
        return Failed(QueryWasCancelled);
      }
      ghost var w := LifecycleSpec.AttachQueryCacheWriter(rc.c, canUse, pipeline, q.nondeterministic, env);
      AttachQueryCacheWriter(canUse, pipeline, q.nondeterministic, env);
      var fin := Finalization(canUse, settings.enableWritesToQueryCache, settings.queryCacheStoreNondeterministic,
                              q.nondeterministic, pipeline.numStreams > 0, ChargesQuota(env));
      assert r == Run(rc.c, t0 + i.events + rc.events + w + [CallbacksAttached], Started(fin));
      trace := trace + [CallbacksAttached];
      outcome := Started(fin);
    }

    /** executeQueryImpl. */
    method ExecuteQueryImpl(req: Request, env: Environment) returns (outcome: Outcome)
      modifies this
      ensures State() == Lifecycle(old(State()), req, env).c
      ensures trace == old(trace) + Lifecycle(old(State()), req, env).events
      ensures outcome == Lifecycle(old(State()), req, env).outcome
    {
      ghost var t0 := trace;
      ghost var f := LifecycleSpec.Front(old(State()), req.source, env);
      var status := Front(req.source, env);
      match status
      case Routed =>
        return RoutedRemote;
      case Aborted(err) =>
        BeforeStartFailure(req.internal, env.hasQuota);
        assert trace == t0 + f.events + LifecycleSpec.BeforeStartFailure(f.c, req.internal, env.hasQuota).events;
        return Failed(err);
      case Continue(q) =>
        outcome := Launch(req.internal, q, env);
        LaunchAfter(f.c, t0, f.events, req.internal, q, env);
    }

    /** Everything between the first guarded block and the callbacks. */
    method Launch(internal: bool, q: Query, env: Environment) returns (outcome: Outcome)
      modifies this
      ensures var r := LifecycleSpec.Launch(old(State()), old(trace), internal, q, env);
        State() == r.c && trace == r.events && outcome == r.outcome
    {
      ghost var t0 := trace;
      AdjustSettings(q.stmt);
      var canUse := CanUseQueryCache(settings, internal, q.stmt);
      ghost var c2 := State();
      var attached := PrepareCnchTransaction(q, env);
      ghost var t := LifecycleSpec.PrepareCnchTransaction(c2, q, env);
      var err := Admit(attached, internal, q.stmt, env);
      ghost var a := LifecycleSpec.Admit(t.c, t.txn, internal, q.stmt, env);
      assert trace == t0 + t.events + a.events;
      if err.Some? {
        return Failed(err.value);
      }
      outcome := StartQuery(internal, q, canUse, env);
    }

    /** finish_callback. */
    method FinishCallback(fin: Finalization, hasQueryCache: bool)
      modifies this
      ensures State() == old(State())
      ensures trace == old(trace) + LifecycleSpec.FinishCallback(old(State()), fin, hasQueryCache).events
    {
      ghost var t0 := trace;
      ghost var finalize := if FinalizesCacheWrite(hasQueryCache, fin) then [CacheWriteFinalized] else [];
      ghost var f := LifecycleSpec.FinishCurrentTransaction(State()).events;
      if FinalizesCacheWrite(hasQueryCache, fin) {
        trace := trace + [CacheWriteFinalized];
      }
      FinishCurrentTransaction();
      assert trace == t0 + (finalize + f);
      if !hasProcessListEntry {
        return;
      }
      ghost var async := if asyncQueryId != "" then [AsyncStatusUpdated(AsyncFinished)] else [];
      trace := trace + [Emitted(QueryFinish)];
      if asyncQueryId != "" {
        trace := trace + [AsyncStatusUpdated(AsyncFinished)];
      }
      trace := trace + [SegmentsCancelled];
      assert trace == t0 + (finalize + f) + [Emitted(QueryFinish)] + async + [SegmentsCancelled];
      assert trace == t0 + (finalize + f + [Emitted(QueryFinish)] + async + [SegmentsCancelled]);
    }

    /** exception_callback: returns the code it reports and whether it rethrows it. */
    method ExceptionCallback(fin: Finalization, localCode: int, coordinatorCode: Option<int>, ambiguous: bool)
      returns (cause: RootCause)
      modifies this
      ensures State() == old(State())
      ensures trace == old(trace) + LifecycleSpec.ExceptionCallback(old(State()), fin, localCode, coordinatorCode, ambiguous).events
      ensures cause == LifecycleSpec.ExceptionCallback(old(State()), fin, localCode, coordinatorCode, ambiguous).cause
    {
      ghost var t0 := trace;
      FinishCurrentTransaction();
      if fin.hasQuota {
        trace := trace + [QuotaUsed(Errors)];
      }
      cause := ConsultCoordinator(localCode, coordinatorCode, ambiguous);
      ReportFailure(cause.code, coordinatorCode.Some?);
      ghost var f := LifecycleSpec.FinishCurrentTransaction(old(State())).events;
      ghost var quota := if fin.hasQuota then [QuotaUsed(Errors)] else [];
      ghost var notified := if coordinatorCode.Some? then [CoordinatorNotified(localCode)] else [];
      ghost var async := if asyncQueryId != "" then [AsyncStatusUpdated(AsyncFailed)] else [];
      ghost var renotified := if coordinatorCode.Some? then [CoordinatorNotified(cause.code)] else [];
      assert trace == t0 + f + quota + notified + [Emitted(ExceptionWhileProcessing)] + async + renotified;
      AppendSix(t0, f, quota, notified, [Emitted(ExceptionWhileProcessing)], async, renotified);
    }

    /** The first status update to the MPP coordinator and the resolution of an ambiguous code. */
    method ConsultCoordinator(localCode: int, coordinatorCode: Option<int>, ambiguous: bool) returns (cause: RootCause)
      modifies this
      ensures State() == old(State())
      ensures trace == old(trace) + (if coordinatorCode.Some? then [CoordinatorNotified(localCode)] else [])
      ensures cause == ResolveRootCause(localCode, coordinatorCode, ambiguous)
    {
      var code := localCode;
      var throwRootCause := false;
      if coordinatorCode.Some? {
        trace := trace + [CoordinatorNotified(code)];
        if ambiguous {
          throwRootCause := coordinatorCode.value != code;
          code := coordinatorCode.value;
        }
      }
      cause := RootCause(code, throwRootCause);
    }

    /** The log record, the async status and the second coordinator update. */
    method ReportFailure(code: int, hasCoordinator: bool)
      modifies this
      ensures State() == old(State())
      ensures trace == old(trace) + [Emitted(ExceptionWhileProcessing)]
        + (if asyncQueryId != "" then [AsyncStatusUpdated(AsyncFailed)] else [])
        + (if hasCoordinator then [CoordinatorNotified(code)] else [])
    {
      trace := trace + [Emitted(ExceptionWhileProcessing)];
      if asyncQueryId != "" {
        trace := trace + [AsyncStatusUpdated(AsyncFailed)];
      }
      if hasCoordinator {
        trace := trace + [CoordinatorNotified(code)];
      }
    }
  }
}
