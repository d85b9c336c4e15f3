/**
 * Vocabulary of the per-query lifecycle in src/Interpreters/executeQuery.cpp:
 * node roles, the statement kinds the lifecycle inspects, transactions,
 * sessions, worker groups, the answers of the collaborators it consults,
 * and the side effects it performs (recorded as events).
 */
module QueryTypes {

  datatype Option<T> = None | Some(value: T)

  /** ServerType of the executing node. */
  datatype ServerType = CnchServer | CnchWorker | OtherServer

  /** ClientInfo::QueryKind. */
  datatype QueryKind = InitialQuery | SecondaryQuery | NoQueryKind

  /** ASTAlterCommand, reduced to the fields isDDLQuery looks at. */
  datatype AlterCommandType = DropPartition | DropPartitionWhere | OtherAlterCommand
  datatype AlterCommand = AlterCommand(
    kind: AlterCommandType,
    attachFromDetached: bool,
    parts: bool,
    detach: bool)

  /** ASTDropQuery::Kind. */
  datatype DropKind = DropTable | DetachTable | TruncateTable

  /** ASTSystemQuery::Type, reduced to the one type the worker cares about. */
  datatype SystemKind = SystemDedup | OtherSystem

  /** The statement kinds the lifecycle tells apart (the AST root's type). */
  datatype Statement =
    | Select
    | SelectWithUnion
    | Insert(database: string, table: string, watch: bool)
    | Delete
    | Update
    | Alter(commands: Option<seq<AlterCommand>>)
    | Create
    | Drop(dropKind: DropKind)
    | Rename
    | System(systemKind: SystemKind, database: string, table: string)
    | ShowProcesslist
    | Explain
    | OtherStatement

  /**
   * The settings the lifecycle reads or writes.  Names follow the server
   * settings they stand for (use_query_cache, enable_query_queue, ...).
   */
  datatype Settings = Settings(
    useQueryCache: bool,
    enableReadsFromQueryCache: bool,
    enableWritesToQueryCache: bool,
    enableTransactionalQueryCache: bool,
    queryCacheStoreNondeterministic: bool,
    queryCacheMinQueryRuns: nat,
    enableAutoQueryForwarding: bool,
    enableQueryQueue: bool,
    enableOptimizer: bool,
    enableOptimizerFallback: bool,
    distributedPerfectShard: bool,
    fallbackPerfectShard: bool,
    enableDistributedStages: bool,
    enableAsyncExecution: bool,
    globalDistributedProductMode: bool,
    outputFormatEnableStreaming: bool,
    operatorProfileReceiveTimeout: nat)

  /** The boolean settings a SETTINGS clause or a warehouse override may assign. */
  datatype BoolSetting =
    | UseQueryCache
    | EnableReadsFromQueryCache
    | EnableWritesToQueryCache
    | EnableTransactionalQueryCache
    | QueryCacheStoreNondeterministic
    | EnableAutoQueryForwarding
    | EnableQueryQueue
    | EnableOptimizer
    | EnableOptimizerFallback
    | DistributedPerfectShard
    | FallbackPerfectShard
    | EnableDistributedStages
    | EnableAsyncExecution

  /** One `name = value` of a SETTINGS clause. */
  datatype SettingChange =
    | SetFlag(name: BoolSetting, value: bool)
    | SetQueryCacheMinQueryRuns(runs: nat)

  /**
   * A parsed query: its statement, its text (queryToString of the AST), the
   * SETTINGS clause interpretSettings finds in it (for a UNION, the one of
   * its last SELECT), and two verdicts of helpers outside this file:
   * isReadOnlyTransaction and astContainsNonDeterministicFunctions.
   */
  datatype Query = Query(
    stmt: Statement,
    text: string,
    settingsClause: seq<SettingChange>,
    readOnly: bool,
    nondeterministic: bool)

  /** A transaction bound to a query context. */
  datatype Txn =
    | ServerTxn(id: nat, readOnly: bool, primaryId: nat)
    | WorkerTxn(database: string, table: string)

  /** The transaction held by a session; explicit ones come from BEGIN. */
  datatype SessionTxn = SessionTxn(id: nat, isExplicit: bool, statements: seq<string>)

  /** The session context; `isQueryContext` when it is the query context itself. */
  datatype Session = Session(isQueryContext: bool, txn: Option<SessionTxn>)

  /** A worker group: its name and the instance the context is bound to. */
  datatype WorkerGroup = WorkerGroup(name: string, instance: nat)

  /** The kind of interpreter InterpreterFactory built. */
  datatype InterpreterKind = OptimizerInterpreter | PlainInterpreter

  /** What a built pipeline exposes to the query-cache logic. */
  datatype Pipeline = Pipeline(numStreams: nat, hasAllUsedStorageIds: bool, storageIds: set<nat>)

  /** Outcome of one IInterpreter::execute(). */
  datatype RunOutcome = RunOk(pipeline: Pipeline) | RunFailed(code: int)

  /** Target server resolved by getTargetServer; resolution may throw. */
  datatype Route = NoTarget | LocalTarget | RemoteTarget(host: string) | RouteFails

  /** QueueResultStatus of an enqueue. */
  datatype QueueResult = QueueSuccess | QueueRejected(status: nat)

  /** The retry the interpreter-failure handler chooses. */
  datatype RetryDecision = RetryWithoutOptimizer | RetryWithoutPerfectShard | Rethrow

  /**
   * The preparations of the second guarded block that can throw, in order:
   * query-parameter substitution and the AST visitors (before the AST limits
   * are checked), loading external tables (right after the process-list
   * insert), and preparing the input storage and building the interpreter
   * (before any quota is charged).
   */
  datatype SetupStage = RewriteAst | ExternalTables | InterpreterSetup

  /** Quota::ResourceType units the lifecycle charges. */
  datatype QuotaKind = Queries | QuerySelects | QueryInserts | Errors

  /** The three log record types the lifecycle emits. */
  datatype LogKind = ExceptionBeforeStart | QueryFinish | ExceptionWhileProcessing

  datatype AsyncStatus = AsyncFinished | AsyncFailed

  /** Side effects on collaborators, in the order they happen. */
  datatype Event =
    | SessionCommitted(sessionTxnId: nat)
    | ForwardedTo(host: string)
    | TxnCreated(txn: Txn)
    | SessionStatementAdded(text: string)
    | Enqueued(group: WorkerGroup)
    | ProcessListInserted
    | QuotaUsed(quota: QuotaKind)
    | RetryAttempted(decision: RetryDecision)
    | CacheRead
    | QueryRunRecorded
    | CacheWriterAttached
    | CallbacksAttached
    | TxnFinished(txn: Txn)
    | Emitted(log: LogKind)
    | CacheWriteFinalized
    | AsyncStatusUpdated(status: AsyncStatus)
    | SegmentsCancelled
    | CoordinatorNotified(code: int)

  /** Errors the lifecycle raises or lets through. */
  datatype QueryError =
    | SyntaxError
    | ImplicitCommitFailed
    | RoutingFailed
    | ProxyFailed
    | SettingsClauseFailed
    | QueueFailure(status: nat)
    | AstLimitExceeded
    | ProcessListRejected
    | QuotaExceeded
    | SetupFailed(stage: SetupStage)
    | InterpreterFailed(code: int)
    | QueryWasCancelled

  /**
   * The values captured by finish_callback and exception_callback when they
   * are attached.
   */
  datatype Finalization = Finalization(
    canUseQueryCache: bool,
    enableWritesToQueryCache: bool,
    storeNondeterministic: bool,
    nondeterministic: bool,
    pullingPipeline: bool,
    hasQuota: bool)

  /** How executeQueryImpl ends. */
  datatype Outcome =
    | RoutedRemote
    | Started(fin: Finalization)
    | Failed(err: QueryError)
}
