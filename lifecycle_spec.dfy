/**
 * The control logic of executeQueryImpl and of its finish and exception
 * callbacks, as functions from the context state and the collaborators'
 * answers to the new state, the side effects performed (in order) and the
 * way the call ends.  The methods of QueryLifecycle.QueryContext are proved
 * to do exactly this.
 */
module LifecycleSpec {
  import opened QueryTypes
  import opened QuerySettings
  import opened QueryClassify

  /** The parts of the query context the lifecycle reads or changes. */
  datatype Ctx = Ctx(
    role: ServerType,
    queryKind: QueryKind,
    currentDatabase: string,
    asyncQueryId: string,
    settings: Settings,
    txn: Option<Txn>,
    session: Option<Session>,
    hasProcessListEntry: bool,
    workerGroup: Option<WorkerGroup>,
    servedFromCache: bool)

  /** A new context state and the side effects that led to it. */
  datatype Step = Step(c: Ctx, events: seq<Event>)

  /** The input of executeQueryImpl: query text (parsed here, possibly failing) or an AST. */
  datatype Source = QueryText(parsed: Option<Query>) | PreParsed(query: Query)

  datatype Request = Request(source: Source, internal: bool)

  /**
   * The answers of the collaborators executeQueryImpl consults, one field per
   * question: warehouse settings overrides, the implicit commit, the router and
   * the proxy, the SETTINGS interpreter, the transaction coordinator, the
   * catalog (is the worker's target table a Cnch or Cloud MergeTree?), the
   * warehouse assignment and the query queue, the preparations before the
   * interpreter runs, the AST limits, the process list, the interpreter and
   * its runs, the quota, and the query cache.  `quotaLimitsReached` holds the
   * quota units whose limit this query's charge (or, for ERRORS, the check)
   * finds exceeded.
   */
  datatype Environment = Environment(
    vwOverride: Option<seq<SettingChange>>,
    commitFails: bool,
    route: Route,
    proxyFails: bool,
    settingsClauseFails: bool,
    newTxnId: nat,
    targetIsCnchTable: bool,
    vwAssignment: Option<WorkerGroup>,
    queueResult: QueueResult,
    currentVwInstance: Option<nat>,
    setupFailsAt: Option<SetupStage>,
    astLimitsExceeded: bool,
    processListRejects: bool,
    interpreter: InterpreterKind,
    ignoresQuota: bool,
    hasQuota: bool,
    quotaLimitsReached: set<QuotaKind>,
    firstRun: RunOutcome,
    retryRun: RunOutcome,
    hasQueryCache: bool,
    maxUpdateTime: nat,
    cacheHit: bool,
    cachedPipeline: Pipeline,
    killedInPending: bool,
    runCount: nat)

  /** What one executeQueryImpl call leaves behind. */
  datatype Run = Run(c: Ctx, events: seq<Event>, outcome: Outcome)

  // ---------------------------------------------------------------------------
  // Finalization helpers

  /** finish_current_transaction: only a server finishes, and only a bound transaction. */
  function FinishCurrentTransaction(c: Ctx): Step
  {
    if c.txn.Some? && c.role == CnchServer then Step(c, [TxnFinished(c.txn.value)]) else Step(c, [])
  }

  /** The decision part of onExceptionBeforeStart: one ERRORS unit, one log record. */
  function OnExceptionBeforeStart(c: Ctx, hasQuota: bool): Step
  {
    Step(c, (if hasQuota then [QuotaUsed(Errors)] else []) + [Emitted(ExceptionBeforeStart)])
  }

  /** The two `catch (...)` blocks around the start of a query. */
  function BeforeStartFailure(c: Ctx, internal: bool, hasQuota: bool): Step
  {
    var f := FinishCurrentTransaction(c);
    if internal then f
    else Step(f.c, f.events + OnExceptionBeforeStart(f.c, hasQuota).events)
  }

  /** A failure inside the guarded blocks: earlier effects, then the before-start path. */
  function FailBeforeStart(c: Ctx, events: seq<Event>, internal: bool, env: Environment, err: QueryError): Run
  {
    var f := BeforeStartFailure(c, internal, env.hasQuota);
    Run(f.c, events + f.events, Failed(err))
  }

  // ---------------------------------------------------------------------------
  // First guarded block: parse, warehouse settings, implicit commit, routing,
  // SETTINGS clause

  datatype FrontResult =
    | Proceed(c: Ctx, events: seq<Event>, query: Query)
    | Forwarded(c: Ctx, events: seq<Event>)
    | FrontFailed(c: Ctx, events: seq<Event>, err: QueryError)

  /** The AST: the one given, or the parser's (None when parsing throws). */
  function ParsedQuery(src: Source): Option<Query>
  {
    match src
    case QueryText(parsed) => parsed
    case PreParsed(q) => Some(q)
  }

  /** A server always runs with distributed_product_mode = global. */
  function ServerDefaults(c: Ctx): Ctx
  {
    if c.role == CnchServer then c.(settings := c.settings.(globalDistributedProductMode := true)) else c
  }

  /** A server with customised settings for the statement's warehouse applies them. */
  function ApplyWarehouseSettings(c: Ctx, env: Environment): Ctx
  {
    if c.role == CnchServer && env.vwOverride.Some? then c.(settings := ApplyAll(c.settings, env.vwOverride.value))
    else c
  }

  /** InterpreterCommitQuery on the session's transaction, which ends it. */
  function ImplicitCommit(c: Ctx): Step
    requires IsQueryInInteractiveSession(c.session)
  {
    Step(c.(session := Some(c.session.value.(txn := None))), [SessionCommitted(c.session.value.txn.value.id)])
  }

  /** Lines 660-758: everything up to the settings clause, under the first catch. */
  function Front(c0: Ctx, src: Source, env: Environment): FrontResult
  {
    var c := ServerDefaults(c0);
    match ParsedQuery(src)
    case None => FrontFailed(c, [], SyntaxError)
    case Some(q) =>
      var c1 := ApplyWarehouseSettings(c, env);
      var commit := IsQueryInInteractiveSession(c1.session) && IsDDLQuery(q.stmt);
      if commit && env.commitFails then FrontFailed(c1, [], ImplicitCommitFailed)
      else
        var s := if commit then ImplicitCommit(c1) else Step(c1, []);
        RouteOrInterpret(s, src, q, env)
  }

  /** The routing short-circuit, then the SETTINGS clause. */
  function RouteOrInterpret(s: Step, src: Source, q: Query, env: Environment): FrontResult
  {
    var resolve := ShouldResolveRoute(s.c.role, s.c.session, s.c.settings);
    if resolve && env.route.RouteFails? then FrontFailed(s.c, s.events, RoutingFailed)
    else if resolve && env.route.RemoteTarget? then
      var events := s.events + [ForwardedTo(env.route.host)];
      if env.proxyFails then FrontFailed(s.c, events, ProxyFailed) else Forwarded(s.c, events)
    else InterpretSettings(s, src, q, env)
  }

  /** interpretSettings, which runs only for a query parsed here. */
  function InterpretSettings(s: Step, src: Source, q: Query, env: Environment): FrontResult
  {
    if src.PreParsed? then Proceed(s.c, s.events, q)
    else if q.settingsClause != [] && env.settingsClauseFails then FrontFailed(s.c, s.events, SettingsClauseFailed)
    else Proceed(s.c.(settings := ApplyAll(s.c.settings, q.settingsClause)), s.events, q)
  }

  // ---------------------------------------------------------------------------
  // Between the guarded blocks: settings replacement, transaction, admission

  /** doSomeReplacementForSettings, then setQuerySpecificSettings. */
  function AdjustSettings(c: Ctx, stmt: Statement): Ctx
  {
    var s1 := if c.settings.enableDistributedStages
      then c.settings.(enableOptimizer := true, enableDistributedStages := false)
      else c.settings;
    var s2 := if stmt.Insert? && stmt.watch then s1.(outputFormatEnableStreaming := true) else s1;
    c.(settings := s2)
  }

  /** A state step that also yields the transaction prepareCnchTransaction returns. */
  datatype TxnStep = TxnStep(c: Ctx, events: seq<Event>, txn: Option<Txn>)

  /** The session's transaction when it is an explicit one and the session is interactive. */
  function SessionExplicitTxn(c: Ctx): (r: Option<SessionTxn>)
    ensures r.Some? ==> IsQueryInInteractiveSession(c.session) && c.session.value.txn == r
  {
    if IsQueryInInteractiveSession(c.session) && c.session.value.txn.value.isExplicit then c.session.value.txn
    else None
  }

  /** The table a worker transaction is for: an INSERT's or a SYSTEM DEDUP's, else none. */
  function WorkerTarget(stmt: Statement): (string, string)
  {
    match stmt
    case Insert(database, table, _) => (database, table)
    case System(SystemDedup, database, table) => (database, table)
    case _ => ("", "")
  }

  /** prepareCnchTransaction. */
  function PrepareCnchTransaction(c: Ctx, q: Query, env: Environment): TxnStep
  {
    if c.role != CnchServer && c.role != CnchWorker then TxnStep(c, [], None)
    else if c.txn.Some? then TxnStep(c, [], c.txn)
    else if c.role == CnchServer then
      var sessionTxn := SessionExplicitTxn(c);
      var primary := if sessionTxn.Some? then sessionTxn.value.id else 0;
      var txn := ServerTxn(env.newTxnId, q.readOnly, primary);
      var c1 := c.(txn := Some(txn));
      if sessionTxn.Some? && !q.readOnly then
        var logged := sessionTxn.value.(statements := sessionTxn.value.statements + [q.text]);
        TxnStep(c1.(session := Some(c.session.value.(txn := Some(logged)))),
                [TxnCreated(txn), SessionStatementAdded(q.text)], Some(txn))
      else
        TxnStep(c1, [TxnCreated(txn)], Some(txn))
    else
      var (database, table) := WorkerTarget(q.stmt);
      if c.queryKind == InitialQuery && table != "" && env.targetIsCnchTable then
        var txn := WorkerTxn(if database == "" then c.currentDatabase else database, table);
        TxnStep(c.(txn := Some(txn)), [TxnCreated(txn)], Some(txn))
      else
        TxnStep(c, [], None)
  }

  datatype Admission =
    | Admitted(c: Ctx, events: seq<Event>)
    | Rejected(c: Ctx, events: seq<Event>, err: QueryError)

  /** tryQueueQuery. */
  function TryQueueQuery(c: Ctx, stmt: Statement, env: Environment): Admission
  {
    if !IsQueueableType(stmt) || c.workerGroup.None? then Admitted(c, [])
    else
      var group := c.workerGroup.value;
      match env.queueResult
      case QueueSuccess =>
        var c1 := if env.currentVwInstance.Some?
          then c.(workerGroup := Some(WorkerGroup(group.name, env.currentVwInstance.value)))
          else c;
        Admitted(c1, [Enqueued(group)])
      case QueueRejected(status) => Rejected(c, [Enqueued(group)], QueueFailure(status))
  }

  /** Lines 766-775: with a transaction, bind a warehouse and maybe queue. */
  function Admit(c: Ctx, txn: Option<Txn>, internal: bool, stmt: Statement, env: Environment): Admission
  {
    if txn.None? then Admitted(c, [])
    else
      var c1 := if env.vwAssignment.Some? then c.(workerGroup := env.vwAssignment) else c;
      if ShouldTryQueue(true, c1.role, internal, stmt, c1.settings) then TryQueueQuery(c1, stmt, env)
      else Admitted(c1, [])
  }

  // ---------------------------------------------------------------------------
  // Second guarded block: process list, quota, interpreter, query cache,
  // pre-start cancellation, callbacks

  /** Does the query charge quota (the interpreter does not ignore it and a quota exists)? */
  predicate ChargesQuota(env: Environment)
  {
    !env.ignoresQuota && env.hasQuota
  }

  /** The units a query charges, in order: QUERY_SELECTS or QUERY_INSERTS for those statements, then QUERIES. */
  function ChargedUnits(stmt: Statement): seq<QuotaKind>
  {
    if stmt.Select? || stmt.SelectWithUnion? then [QuerySelects, Queries]
    else if stmt.Insert? then [QueryInserts, Queries]
    else [Queries]
  }

  /**
   * Charging the units one by one, each charge checking its own limit: the
   * charges made, up to and including the first one whose limit is reached.
   */
  function ChargeUntilExceeded(units: seq<QuotaKind>, reached: set<QuotaKind>): (r: seq<Event>)
    ensures |r| <= |units|
    ensures forall i | 0 <= i < |r| :: r[i] == QuotaUsed(units[i])
    decreases |units|
  {
    if units == [] then []
    else [QuotaUsed(units[0])] + (if units[0] in reached then [] else ChargeUntilExceeded(units[1..], reached))
  }

  /** The quota charges made before the query goes on or a limit stops it. */
  function QuotaCharges(stmt: Statement, env: Environment): seq<Event>
  {
    if !ChargesQuota(env) then [] else ChargeUntilExceeded(ChargedUnits(stmt), env.quotaLimitsReached)
  }

  /** Some unit of `units` has reached its limit. */
  predicate SomeReached(units: seq<QuotaKind>, reached: set<QuotaKind>)
  {
    exists i | 0 <= i < |units| :: units[i] in reached
  }

  /** One of the charges, or the closing check of the ERRORS limit, throws. */
  predicate QuotaFails(stmt: Statement, env: Environment)
  {
    ChargesQuota(env) && (SomeReached(ChargedUnits(stmt), env.quotaLimitsReached) || Errors in env.quotaLimitsReached)
  }

  datatype Interpreted = Interpreted(c: Ctx, events: seq<Event>, result: RunOutcome)

  /** IInterpreter::execute() with the fallback handler around it. */
  function Interpret(c: Ctx, env: Environment): Interpreted
  {
    match env.firstRun
    case RunOk(p) => Interpreted(c, [], RunOk(p))
    case RunFailed(code) =>
      match RetryPolicy(env.interpreter, c.settings)
      case Rethrow => Interpreted(c, [], RunFailed(code))
      case RetryWithoutOptimizer =>
        var c1 := c.(settings := c.settings.(enableOptimizer := false));
        var c2 := if env.retryRun.RunOk? then c1.(settings := c1.settings.(operatorProfileReceiveTimeout := 3001)) else c1;
        Interpreted(c2, [RetryAttempted(RetryWithoutOptimizer)], env.retryRun)
      case RetryWithoutPerfectShard =>
        var c1 := c.(settings := c.settings.(distributedPerfectShard := false));
        Interpreted(c1, [RetryAttempted(RetryWithoutPerfectShard)], env.retryRun)
  }

  /** The query-cache read, which decides served-from-cache. */
  function ReadQueryCache(c: Ctx, canUse: bool, p: Pipeline, env: Environment): Step
  {
    if CacheReadEligible(env.hasQueryCache, canUse, c.settings, p)
       && Freshness(c.settings, env.maxUpdateTime) != 0 && env.cacheHit
    then Step(c.(servedFromCache := true), [CacheRead])
    else Step(c.(servedFromCache := false), [])
  }

  /** The query-cache writer: record the run, attach once the run count passes the threshold. */
  function AttachQueryCacheWriter(c: Ctx, canUse: bool, p: Pipeline, nondeterministic: bool, env: Environment): seq<Event>
  {
    if CacheWriteEligible(c.servedFromCache, env.hasQueryCache, canUse, c.settings, p, nondeterministic) then
      if RunCountAllowsWriter(env.runCount, c.settings) then [QueryRunRecorded, CacheWriterAttached]
      else [QueryRunRecorded]
    else []
  }

  /** Lines 777-1580, under the second catch. */
  function StartQuery(c: Ctx, internal: bool, q: Query, canUse: bool, env: Environment): Run
  {
    var early := EarlyFailure(internal, q.stmt, env);
    if early.Some? then FailBeforeStart(c, [], internal, env, early.value)
    else
      match Register(c, internal, q, env)
      case RegisterFailed(c1, e1, err) => FailBeforeStart(c1, e1, internal, env, err)
      case Registered(c1, e1) => ExecuteAndAttach(c1, e1, internal, q, canUse, env)
  }

  /**
   * The failures before any effect of the second guarded block: query-parameter
   * substitution and the AST visitors, the AST limits, and the process list
   * refusing a query it would list.
   */
  function EarlyFailure(internal: bool, stmt: Statement, env: Environment): Option<QueryError>
  {
    if env.setupFailsAt == Some(RewriteAst) then Some(SetupFailed(RewriteAst))
    else if env.astLimitsExceeded then Some(AstLimitExceeded)
    else if !internal && !stmt.ShowProcesslist? && env.processListRejects then Some(ProcessListRejected)
    else None
  }

  /** How the steps from the process-list insert to the quota charges end. */
  datatype Registration =
    | Registered(c: Ctx, events: seq<Event>)
    | RegisterFailed(c: Ctx, events: seq<Event>, err: QueryError)

  /** Every query except an internal one and SHOW PROCESSLIST enters the process list. */
  function EnterProcessList(c: Ctx, internal: bool, stmt: Statement): Step
  {
    if !internal && !stmt.ShowProcesslist? then Step(c.(hasProcessListEntry := true), [ProcessListInserted])
    else Step(c, [])
  }

  /** An internal query runs with enable_optimizer off. */
  function InternalOptimizerOff(c: Ctx, internal: bool): Ctx
  {
    if internal then c.(settings := c.settings.(enableOptimizer := false)) else c
  }

  /**
   * The process-list entry, loading external tables, the optimizer switch for
   * internal queries and building the interpreter.
   */
  function PrepareInterpreter(c: Ctx, internal: bool, stmt: Statement, env: Environment): Registration
  {
    var s := EnterProcessList(c, internal, stmt);
    if env.setupFailsAt == Some(ExternalTables) then RegisterFailed(s.c, s.events, SetupFailed(ExternalTables))
    else
      var c2 := InternalOptimizerOff(s.c, internal);
      if env.setupFailsAt == Some(InterpreterSetup) then RegisterFailed(c2, s.events, SetupFailed(InterpreterSetup))
      else Registered(c2, s.events)
  }

  /** Everything from the process-list entry up to and including the quota charges. */
  function Register(c: Ctx, internal: bool, q: Query, env: Environment): Registration
  {
    match PrepareInterpreter(c, internal, q.stmt, env)
    case RegisterFailed(c1, e1, err) => RegisterFailed(c1, e1, err)
    case Registered(c2, e1) =>
      var e2 := e1 + QuotaCharges(q.stmt, env);
      if QuotaFails(q.stmt, env) then RegisterFailed(c2, e2, QuotaExceeded) else Registered(c2, e2)
  }

  /** From IInterpreter::execute() to attaching the callbacks, after the effects `before`. */
  function ExecuteAndAttach(c: Ctx, before: seq<Event>, internal: bool, q: Query, canUse: bool, env: Environment): Run
  {
    var listed := !internal && !q.stmt.ShowProcesslist?;
    var i := Interpret(c, env);
    match i.result
    case RunFailed(code) => FailBeforeStart(i.c, before + i.events, internal, env, InterpreterFailed(code))
    case RunOk(p) =>
      var r := ReadQueryCache(i.c, canUse, p, env);
      var pipeline := if r.c.servedFromCache then env.cachedPipeline else p;
      if listed && env.killedInPending then
        FailBeforeStart(r.c, before + i.events + r.events, internal, env, QueryWasCancelled)
      else
        var w := AttachQueryCacheWriter(r.c, canUse, pipeline, q.nondeterministic, env);
        var fin := Finalization(canUse, r.c.settings.enableWritesToQueryCache,
                                r.c.settings.queryCacheStoreNondeterministic, q.nondeterministic,
                                pipeline.numStreams > 0, ChargesQuota(env));
        Run(r.c, before + i.events + r.events + w + [CallbacksAttached], Started(fin))
  }

  /** executeQueryImpl. */
  function Lifecycle(c: Ctx, req: Request, env: Environment): Run
  {
    match Front(c, req.source, env)
    case Forwarded(c1, e1) => Run(c1, e1, RoutedRemote)
    case FrontFailed(c1, e1, err) => FailBeforeStart(c1, e1, req.internal, env, err)
    case Proceed(c1, e1, q) => Launch(c1, e1, req.internal, q, env)
  }

  /** Lines 759-1580: settings replacement, transaction, admission, start; after the effects `before`. */
  function Launch(c: Ctx, before: seq<Event>, internal: bool, q: Query, env: Environment): Run
  {
    var c2 := AdjustSettings(c, q.stmt);
    var canUse := CanUseQueryCache(c2.settings, internal, q.stmt);
    var t := PrepareCnchTransaction(c2, q, env);
    match Admit(t.c, t.txn, internal, q.stmt, env)
    case Rejected(c3, e3, err) => Run(c3, before + t.events + e3, Failed(err))
    case Admitted(c3, e3) =>
      var b := StartQuery(c3, internal, q, canUse, env);
      Run(b.c, before + t.events + e3 + b.events, b.outcome)
  }

  /** The second half of the start only appends to the effects before it. */
  lemma ExecuteAndAttachAfter(c: Ctx, pre: seq<Event>, before: seq<Event>, internal: bool, q: Query,
                              canUse: bool, env: Environment)
    ensures var f := ExecuteAndAttach(c, before, internal, q, canUse, env);
      var g := ExecuteAndAttach(c, pre + before, internal, q, canUse, env);
      g.c == f.c && g.events == pre + f.events && g.outcome == f.outcome
  {
    var i := Interpret(c, env);
    match i.result
    case RunFailed(code) =>
      FailBeforeStartAfter(i.c, pre, before + i.events, internal, env, InterpreterFailed(code));
      AppendTwo(pre, before, i.events);
    case RunOk(p) =>
      var r := ReadQueryCache(i.c, canUse, p, env);
      var done := before + i.events + r.events;
      AppendThree(pre, before, i.events, r.events);
      if !internal && !q.stmt.ShowProcesslist? && env.killedInPending {
        FailBeforeStartAfter(r.c, pre, done, internal, env, QueryWasCancelled);
      } else {
        var pipeline := if r.c.servedFromCache then env.cachedPipeline else p;
        var w := AttachQueryCacheWriter(r.c, canUse, pipeline, q.nondeterministic, env);
        AppendThree(pre, done, w, [CallbacksAttached]);
      }
  }

  /** The before-start path only appends to the effects before it. */
  lemma FailBeforeStartAfter(c: Ctx, pre: seq<Event>, events: seq<Event>, internal: bool, env: Environment,
                             err: QueryError)
    ensures FailBeforeStart(c, pre + events, internal, env, err).events
         == pre + FailBeforeStart(c, events, internal, env, err).events
  {
  }

  /** Launching only appends to the effects before it. */
  lemma LaunchAfter(c: Ctx, pre: seq<Event>, before: seq<Event>, internal: bool, q: Query, env: Environment)
    ensures var f := Launch(c, before, internal, q, env);
      var g := Launch(c, pre + before, internal, q, env);
      g.c == f.c && g.events == pre + f.events && g.outcome == f.outcome
  {
    var c2 := AdjustSettings(c, q.stmt);
    var canUse := CanUseQueryCache(c2.settings, internal, q.stmt);
    var t := PrepareCnchTransaction(c2, q, env);
    match Admit(t.c, t.txn, internal, q.stmt, env)
    case Rejected(c3, e3, err) =>
      AppendThree(pre, before, t.events, e3);
    case Admitted(c3, e3) =>
      var b := StartQuery(c3, internal, q, canUse, env);
      AppendFour(pre, before, t.events, e3, b.events);
  }

  // ---------------------------------------------------------------------------
  // Appending effects piece by piece

  /** Appending pieces one by one is appending their concatenation. */
  lemma AppendTwo<T>(t: seq<T>, a: seq<T>, b: seq<T>)
    ensures t + a + b == t + (a + b)
  {
  }

  /** Appending pieces one by one is appending their concatenation. */
  lemma AppendThree<T>(t: seq<T>, a: seq<T>, b: seq<T>, c: seq<T>)
    ensures t + a + b + c == t + (a + b + c)
  {
  }

  /** Appending pieces one by one is appending their concatenation. */
  lemma AppendFour<T>(t: seq<T>, a: seq<T>, b: seq<T>, c: seq<T>, d: seq<T>)
    ensures t + a + b + c + d == t + (a + b + c + d)
  {
  }

  /** Appending pieces one by one is appending their concatenation. */
  lemma AppendFive<T>(t: seq<T>, a: seq<T>, b: seq<T>, c: seq<T>, d: seq<T>, e: seq<T>)
    ensures t + a + b + c + d + e == t + (a + b + c + d + e)
  {
  }

  /** Appending pieces one by one is appending their concatenation. */
  lemma AppendSix<T>(t: seq<T>, a: seq<T>, b: seq<T>, c: seq<T>, d: seq<T>, e: seq<T>, f: seq<T>)
    ensures t + a + b + c + d + e + f == t + (a + b + c + d + e + f)
  {
  }

  // ---------------------------------------------------------------------------
  // The callbacks

  /** finish_callback, decision part. */
  function FinishCallback(c: Ctx, fin: Finalization, hasQueryCache: bool): Step
  {
    var finalize := if FinalizesCacheWrite(hasQueryCache, fin) then [CacheWriteFinalized] else [];
    var f := FinishCurrentTransaction(c);
    if !c.hasProcessListEntry then Step(c, finalize + f.events)
    else
      var async := if c.asyncQueryId != "" then [AsyncStatusUpdated(AsyncFinished)] else [];
      Step(c, finalize + f.events + [Emitted(QueryFinish)] + async + [SegmentsCancelled])
  }

  /** exception_callback, decision part: its effects and the code it reports. */
  datatype ExceptionStep = ExceptionStep(c: Ctx, events: seq<Event>, cause: RootCause)

  function ExceptionCallback(c: Ctx, fin: Finalization, localCode: int, coordinatorCode: Option<int>,
                             ambiguous: bool): ExceptionStep
  {
    var f := FinishCurrentTransaction(c);
    var quota := if fin.hasQuota then [QuotaUsed(Errors)] else [];
    var cause := ResolveRootCause(localCode, coordinatorCode, ambiguous);
    var notified := if coordinatorCode.Some? then [CoordinatorNotified(localCode)] else [];
    var async := if c.asyncQueryId != "" then [AsyncStatusUpdated(AsyncFailed)] else [];
    var renotified := if coordinatorCode.Some? then [CoordinatorNotified(cause.code)] else [];
    ExceptionStep(c, f.events + quota + notified + [Emitted(ExceptionWhileProcessing)] + async + renotified, cause)
  }
}
