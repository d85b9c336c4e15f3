/**
 * Reading and assigning the boolean settings the lifecycle depends on, and
 * applying a SETTINGS clause (or a warehouse's customised settings) to the
 * context's settings, one assignment after the other.
 */
module QuerySettings {
  import opened QueryTypes

  /** The current value of a boolean setting. */
  function Flag(s: Settings, name: BoolSetting): bool
  {
    match name
    case UseQueryCache => s.useQueryCache
    case EnableReadsFromQueryCache => s.enableReadsFromQueryCache
    case EnableWritesToQueryCache => s.enableWritesToQueryCache
    case EnableTransactionalQueryCache => s.enableTransactionalQueryCache
    case QueryCacheStoreNondeterministic => s.queryCacheStoreNondeterministic
    case EnableAutoQueryForwarding => s.enableAutoQueryForwarding
    case EnableQueryQueue => s.enableQueryQueue
    case EnableOptimizer => s.enableOptimizer
    case EnableOptimizerFallback => s.enableOptimizerFallback
    case DistributedPerfectShard => s.distributedPerfectShard
    case FallbackPerfectShard => s.fallbackPerfectShard
    case EnableDistributedStages => s.enableDistributedStages
    case EnableAsyncExecution => s.enableAsyncExecution
  }

  /** `s` with one boolean setting assigned; every other setting is kept. */
  function WithFlag(s: Settings, name: BoolSetting, value: bool): (r: Settings)
    ensures Flag(r, name) == value
    ensures r.queryCacheMinQueryRuns == s.queryCacheMinQueryRuns
    ensures r.globalDistributedProductMode == s.globalDistributedProductMode
    ensures r.outputFormatEnableStreaming == s.outputFormatEnableStreaming
    ensures r.operatorProfileReceiveTimeout == s.operatorProfileReceiveTimeout
  {
    match name
    case UseQueryCache => s.(useQueryCache := value)
    case EnableReadsFromQueryCache => s.(enableReadsFromQueryCache := value)
    case EnableWritesToQueryCache => s.(enableWritesToQueryCache := value)
    case EnableTransactionalQueryCache => s.(enableTransactionalQueryCache := value)
    case QueryCacheStoreNondeterministic => s.(queryCacheStoreNondeterministic := value)
    case EnableAutoQueryForwarding => s.(enableAutoQueryForwarding := value)
    case EnableQueryQueue => s.(enableQueryQueue := value)
    case EnableOptimizer => s.(enableOptimizer := value)
    case EnableOptimizerFallback => s.(enableOptimizerFallback := value)
    case DistributedPerfectShard => s.(distributedPerfectShard := value)
    case FallbackPerfectShard => s.(fallbackPerfectShard := value)
    case EnableDistributedStages => s.(enableDistributedStages := value)
    case EnableAsyncExecution => s.(enableAsyncExecution := value)
  }

  /** Assigning one boolean setting leaves every other one as it was. */
  lemma WithFlagKeepsOthers(s: Settings, name: BoolSetting, value: bool, other: BoolSetting)
    requires other != name
    ensures Flag(WithFlag(s, name, value), other) == Flag(s, other)
  {
    match name
    case UseQueryCache =>
    case EnableReadsFromQueryCache =>
    case EnableWritesToQueryCache =>
    case EnableTransactionalQueryCache =>
    case QueryCacheStoreNondeterministic =>
    case EnableAutoQueryForwarding =>
    case EnableQueryQueue =>
    case EnableOptimizer =>
    case EnableOptimizerFallback =>
    case DistributedPerfectShard =>
    case FallbackPerfectShard =>
    case EnableDistributedStages =>
    case EnableAsyncExecution =>
  }

  /** One assignment of a SETTINGS clause. */
  function Apply(s: Settings, change: SettingChange): Settings
  {
    match change
    case SetFlag(name, value) => WithFlag(s, name, value)
    case SetQueryCacheMinQueryRuns(runs) => s.(queryCacheMinQueryRuns := runs)
  }

  /** An assignment to another setting, or to the run threshold, keeps `name`. */
  lemma ApplyKeepsOthers(s: Settings, change: SettingChange, name: BoolSetting)
    requires !(change.SetFlag? && change.name == name)
    ensures Flag(Apply(s, change), name) == Flag(s, name)
  {
    if change.SetFlag? {
      WithFlagKeepsOthers(s, change.name, change.value, name);
    }
  }

  /** A whole clause, applied left to right. */
  function ApplyAll(s: Settings, changes: seq<SettingChange>): Settings
    decreases |changes|
  {
    if changes == [] then s else ApplyAll(Apply(s, changes[0]), changes[1..])
  }

  /** Does the clause assign the boolean setting `name`? */
  predicate Assigns(changes: seq<SettingChange>, name: BoolSetting)
    decreases |changes|
  {
    changes != [] && ((changes[0].SetFlag? && changes[0].name == name) || Assigns(changes[1..], name))
  }

  /** Applying `a` then `b` is applying `a + b`. */
  lemma {:induction false} ApplyAllConcat(s: Settings, a: seq<SettingChange>, b: seq<SettingChange>)
    ensures ApplyAll(s, a + b) == ApplyAll(ApplyAll(s, a), b)
    decreases |a|
  {
    if a == [] {
      assert a + b == b;
    } else {
      assert (a + b)[0] == a[0];
      assert (a + b)[1..] == a[1..] + b;
      ApplyAllConcat(Apply(s, a[0]), a[1..], b);
    }
  }

  /** A setting the clause does not mention keeps its value. */
  lemma {:induction false} ApplyAllKeepsUnassigned(s: Settings, changes: seq<SettingChange>, name: BoolSetting)
    requires !Assigns(changes, name)
    ensures Flag(ApplyAll(s, changes), name) == Flag(s, name)
    decreases |changes|
  {
    if changes != [] {
      var s1 := Apply(s, changes[0]);
      assert ApplyAll(s, changes) == ApplyAll(s1, changes[1..]);
      ApplyKeepsOthers(s, changes[0], name);
      ApplyAllKeepsUnassigned(s1, changes[1..], name);
    }
  }

  /** The last assignment of a setting in a clause is the one that holds. */
  lemma LastAssignmentWins(s: Settings, changes: seq<SettingChange>, name: BoolSetting, value: bool, rest: seq<SettingChange>)
    requires !Assigns(rest, name)
    ensures Flag(ApplyAll(s, changes + [SetFlag(name, value)] + rest), name) == value
  {
    ApplyAllConcat(s, changes + [SetFlag(name, value)], rest);
    ApplyAllConcat(s, changes, [SetFlag(name, value)]);
    ApplyAllKeepsUnassigned(ApplyAll(s, changes + [SetFlag(name, value)]), rest, name);
  }
}
