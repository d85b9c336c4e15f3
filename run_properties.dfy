/**
 * Properties of whole executeQueryImpl runs that follow from single guards
 * deep inside it: the quota charges each check their own limit, a query that
 * may not use the query cache never touches it, and a statement the query
 * queue does not take is never queued.
 */
module RunProperties {
  import opened QueryTypes
  import opened QuerySettings
  import opened QueryClassify
  import opened LifecycleSpec
  import opened LifecycleProperties
  import opened RoutingProperties

  // ---------------------------------------------------------------------------
  // The quota

  /**
   * Charging stops at the first unit whose limit is reached: every charge
   * before the last one passed its limit, the last one reached a limit iff
   * some unit did, and charging ends early only because of that.
   */
  lemma ChargeStopsAtFirstReached(units: seq<QuotaKind>, reached: set<QuotaKind>)
    ensures var r := ChargeUntilExceeded(units, reached);
      (forall i | 0 <= i < |r| - 1 :: units[i] !in reached)
      && (units != [] ==> |r| > 0 && (SomeReached(units, reached) <==> units[|r| - 1] in reached))
      && (|r| < |units| ==> units[|r| - 1] in reached)
  {
    var r := ChargeUntilExceeded(units, reached);
    ChargesBeforeLastPassed(units, reached);
    ChargingEndsAtReached(units, reached);
    if units != [] {
      if SomeReached(units, reached) {
        var i :| 0 <= i < |units| && units[i] in reached;
        assert i >= |r| - 1;
        if i > |r| - 1 {
          assert |r| < |units|;
        }
      }
      if units[|r| - 1] in reached {
        assert SomeReached(units, reached);
      }
    }
  }

  /** Every charge before the last one passed its limit. */
  lemma {:induction false} ChargesBeforeLastPassed(units: seq<QuotaKind>, reached: set<QuotaKind>)
    ensures var r := ChargeUntilExceeded(units, reached);
      forall i | 0 <= i < |r| - 1 :: units[i] !in reached
    decreases |units|
  {
    if units != [] && units[0] !in reached {
      var r1 := ChargeUntilExceeded(units[1..], reached);
      ChargesBeforeLastPassed(units[1..], reached);
      assert ChargeUntilExceeded(units, reached) == [QuotaUsed(units[0])] + r1;
      forall i | 1 <= i < |r1|
        ensures units[i] !in reached
      {
        assert units[i] == units[1..][i - 1];
      }
    }
  }

  /** Charging a non-empty list charges something, and ends early only at a reached limit. */
  lemma {:induction false} ChargingEndsAtReached(units: seq<QuotaKind>, reached: set<QuotaKind>)
    ensures var r := ChargeUntilExceeded(units, reached);
      (units != [] ==> |r| > 0) && (|r| < |units| ==> |r| > 0 && units[|r| - 1] in reached)
    decreases |units|
  {
    if units != [] && units[0] !in reached {
      var r1 := ChargeUntilExceeded(units[1..], reached);
      ChargingEndsAtReached(units[1..], reached);
      assert ChargeUntilExceeded(units, reached) == [QuotaUsed(units[0])] + r1;
      if r1 != [] {
        assert units[|r1|] == units[1..][|r1| - 1];
      }
    }
  }

  /** The charges and the verdict of the quota, in terms of the statement's units. */
  lemma QuotaChargesCases(stmt: Statement, env: Environment)
    ensures var reached := env.quotaLimitsReached;
      var statementUnitReached := ((stmt.Select? || stmt.SelectWithUnion?) && QuerySelects in reached)
                                  || (stmt.Insert? && QueryInserts in reached);
      (QuotaUsed(Queries) in QuotaCharges(stmt, env) <==> ChargesQuota(env) && !statementUnitReached)
      && (QuotaFails(stmt, env) <==>
            ChargesQuota(env) && (statementUnitReached || Queries in reached || Errors in reached))
  {
    var units := ChargedUnits(stmt);
    var reached := env.quotaLimitsReached;
    if ChargesQuota(env) {
      var r := ChargeUntilExceeded(units, reached);
      ChargeStopsAtFirstReached(units, reached);
      if |units| == 2 {
        assert units[1] == Queries;
        assert QuotaUsed(Queries) in r <==> |r| == 2;
        assert SomeReached(units, reached) <==> units[0] in reached || units[1] in reached;
      } else {
        assert units == [Queries];
        assert SomeReached(units, reached) <==> units[0] in reached;
      }
    }
  }

  /** The steps after the quota charges never charge QUERIES. */
  lemma StepsChargeNoQueries(c: Ctx, internal: bool, canUse: bool, p: Pipeline, nondeterministic: bool,
                             env: Environment)
    ensures QuotaUsed(Queries) !in Interpret(c, env).events
    ensures QuotaUsed(Queries) !in ReadQueryCache(c, canUse, p, env).events
    ensures QuotaUsed(Queries) !in AttachQueryCacheWriter(c, canUse, p, nondeterministic, env)
    ensures QuotaUsed(Queries) !in BeforeStartFailure(c, internal, env.hasQuota).events
  {
  }

  /** What follows the quota charges charges no more quota and never fails on the quota. */
  lemma AfterChargesNoQuota(c: Ctx, internal: bool, q: Query, canUse: bool, env: Environment)
    ensures var r := ExecuteAndAttach(c, [], internal, q, canUse, env);
      QuotaUsed(Queries) !in r.events && r.outcome != Failed(QuotaExceeded)
    ensures QuotaUsed(Queries) !in BeforeStartFailure(c, internal, env.hasQuota).events
  {
    var i := Interpret(c, env);
    StepsChargeNoQueries(c, internal, canUse, env.cachedPipeline, q.nondeterministic, env);
    match i.result
    case RunFailed(code) =>
      StepsChargeNoQueries(i.c, internal, canUse, env.cachedPipeline, q.nondeterministic, env);
    case RunOk(p) =>
      var r := ReadQueryCache(i.c, canUse, p, env);
      StepsChargeNoQueries(i.c, internal, canUse, p, q.nondeterministic, env);
      var pipeline := if r.c.servedFromCache then env.cachedPipeline else p;
      StepsChargeNoQueries(r.c, internal, canUse, pipeline, q.nondeterministic, env);
  }

  /**
   * Each charge checks its own limit.  Once the process-list entry exists and
   * the interpreter is built, QUERIES is charged iff the query charges quota
   * and its statement unit (QUERY_SELECTS or QUERY_INSERTS) is not at its
   * limit; and the query fails with the quota error iff it charges quota and
   * its statement unit, QUERIES or ERRORS is at its limit.
   */
  lemma QuotaStopsAtFirstLimit(c: Ctx, internal: bool, q: Query, canUse: bool, env: Environment)
    requires env.setupFailsAt.None? && !env.astLimitsExceeded
    requires !(!internal && !q.stmt.ShowProcesslist? && env.processListRejects)
    ensures var r := StartQuery(c, internal, q, canUse, env);
      var reached := env.quotaLimitsReached;
      var statementUnitReached := ((q.stmt.Select? || q.stmt.SelectWithUnion?) && QuerySelects in reached)
                                  || (q.stmt.Insert? && QueryInserts in reached);
      (QuotaUsed(Queries) in r.events <==> ChargesQuota(env) && !statementUnitReached)
      && (r.outcome == Failed(QuotaExceeded) <==>
            ChargesQuota(env) && (statementUnitReached || Queries in reached || Errors in reached))
  {
    var listed := !internal && !q.stmt.ShowProcesslist?;
    var e1: seq<Event> := if listed then [ProcessListInserted] else [];
    var charges := QuotaCharges(q.stmt, env);
    QuotaChargesCases(q.stmt, env);
    var g := Register(c, internal, q, env);
    assert g.events == e1 + charges;
    AfterChargesNoQuota(g.c, internal, q, canUse, env);
    match g
    case RegisterFailed(c1, _, err) =>
      assert StartQuery(c, internal, q, canUse, env).events
          == g.events + BeforeStartFailure(c1, internal, env.hasQuota).events;
    case Registered(c1, _) =>
      ExecuteAndAttachAfter(c1, g.events, [], internal, q, canUse, env);
      assert g.events + [] == g.events;
  }

  // ---------------------------------------------------------------------------
  // The query cache

  /** No effect on the query cache: no read, no recorded run, no writer. */
  predicate NoCacheEffect(events: seq<Event>)
  {
    forall e | e in events :: e != CacheRead && e != QueryRunRecorded && e != CacheWriterAttached
  }

  lemma NoCacheEffectAppend(a: seq<Event>, b: seq<Event>)
    requires NoCacheEffect(a) && NoCacheEffect(b)
    ensures NoCacheEffect(a + b)
  {
  }

  /** The steps that do not touch the query cache, and the cache steps when it may not be used. */
  lemma StepsWithoutCache(c: Ctx, internal: bool, q: Query, p: Pipeline, env: Environment)
    ensures NoCacheEffect(BeforeStartFailure(c, internal, env.hasQuota).events)
    ensures NoCacheEffect(Interpret(c, env).events)
    ensures NoCacheEffect(ReadQueryCache(c, false, p, env).events)
    ensures AttachQueryCacheWriter(c, false, p, q.nondeterministic, env) == []
  {
  }

  lemma RegisterWithoutCache(c: Ctx, internal: bool, q: Query, env: Environment)
    ensures NoCacheEffect(Register(c, internal, q, env).events)
  {
    QuotaChargesChargeNoErrors(q.stmt, env);
  }

  /** Started without can_use_query_cache, the second guarded block leaves the cache alone. */
  lemma StartQueryWithoutCache(c: Ctx, internal: bool, q: Query, env: Environment)
    ensures var r := StartQuery(c, internal, q, false, env);
      NoCacheEffect(r.events) && (r.outcome.Started? ==> !r.outcome.fin.canUseQueryCache)
  {
    var listed := !internal && !q.stmt.ShowProcesslist?;
    if env.setupFailsAt == Some(RewriteAst) || env.astLimitsExceeded || (listed && env.processListRejects) {
      StepsWithoutCache(c, internal, q, env.cachedPipeline, env);
      assert [] + BeforeStartFailure(c, internal, env.hasQuota).events
          == BeforeStartFailure(c, internal, env.hasQuota).events;
    } else {
      RegisterWithoutCache(c, internal, q, env);
      match Register(c, internal, q, env)
      case RegisterFailed(c1, e1, err) =>
        StepsWithoutCache(c1, internal, q, env.cachedPipeline, env);
        NoCacheEffectAppend(e1, BeforeStartFailure(c1, internal, env.hasQuota).events);
      case Registered(c1, e1) =>
        ExecuteAndAttachWithoutCache(c1, e1, internal, q, env);
    }
  }

  lemma ExecuteAndAttachWithoutCache(c: Ctx, before: seq<Event>, internal: bool, q: Query, env: Environment)
    requires NoCacheEffect(before)
    ensures var r := ExecuteAndAttach(c, before, internal, q, false, env);
      NoCacheEffect(r.events) && (r.outcome.Started? ==> !r.outcome.fin.canUseQueryCache)
  {
    var i := Interpret(c, env);
    var d := before + i.events;
    StepsWithoutCache(c, internal, q, env.cachedPipeline, env);
    NoCacheEffectAppend(before, i.events);
    match i.result
    case RunFailed(code) =>
      StepsWithoutCache(i.c, internal, q, env.cachedPipeline, env);
      NoCacheEffectAppend(d, BeforeStartFailure(i.c, internal, env.hasQuota).events);
    case RunOk(p) =>
      var r := ReadQueryCache(i.c, false, p, env);
      StepsWithoutCache(i.c, internal, q, p, env);
      NoCacheEffectAppend(d, r.events);
      var d2 := d + r.events;
      var pipeline := if r.c.servedFromCache then env.cachedPipeline else p;
      StepsWithoutCache(r.c, internal, q, pipeline, env);
      if !internal && !q.stmt.ShowProcesslist? && env.killedInPending {
        NoCacheEffectAppend(d2, BeforeStartFailure(r.c, internal, env.hasQuota).events);
      } else {
        NoCacheEffectAppend(d2, [CallbacksAttached]);
        assert d2 + [] + [CallbacksAttached] == d2 + [CallbacksAttached];
      }
  }

  /**
   * An internal or EXPLAIN query (can_use_query_cache is false for both) never
   * reads the query cache, never records a run, never attaches a writer, and
   * its finish_callback never finalizes a cache write.
   */
  lemma InternalOrExplainNeverUsesCache(c: Ctx, req: Request, env: Environment, hasQueryCache: bool)
    requires req.internal || (ParsedQuery(req.source).Some? && ParsedQuery(req.source).value.stmt.Explain?)
    ensures var r := Lifecycle(c, req, env);
      NoCacheEffect(r.events)
      && (r.outcome.Started? ==> CacheWriteFinalized !in FinishCallback(r.c, r.outcome.fin, hasQueryCache).events)
  {
    FrontIsPreliminary(c, req.source, env);
    FrontProceedsWithParsedQuery(c, req.source, env);
    var f := Front(c, req.source, env);
    if f.Forwarded? {
      assert Lifecycle(c, req, env) == Run(f.c, f.events, RoutedRemote);
    } else if f.FrontFailed? {
      StepsWithoutCache(f.c, req.internal, Query(OtherStatement, [], [], false, false), env.cachedPipeline, env);
      NoCacheEffectAppend(f.events, BeforeStartFailure(f.c, req.internal, env.hasQuota).events);
      assert Lifecycle(c, req, env) == FailBeforeStart(f.c, f.events, req.internal, env, f.err);
    } else {
      var r := Launch(f.c, f.events, req.internal, f.query, env);
      LaunchWithoutCache(f.c, f.events, req.internal, f.query, env);
      if r.outcome.Started? {
        FinishCallbackReports(r.c, r.outcome.fin, hasQueryCache);
      }
      assert Lifecycle(c, req, env) == r;
    }
  }

  /** The query Front hands on is the one parsed from the request. */
  lemma FrontProceedsWithParsedQuery(c: Ctx, src: Source, env: Environment)
    ensures Front(c, src, env).Proceed? ==>
      ParsedQuery(src).Some? && Front(c, src, env).query == ParsedQuery(src).value
  {
  }

  lemma LaunchWithoutCache(c: Ctx, before: seq<Event>, internal: bool, q: Query, env: Environment)
    requires NoCacheEffect(before)
    requires internal || q.stmt.Explain?
    ensures var r := Launch(c, before, internal, q, env);
      NoCacheEffect(r.events) && (r.outcome.Started? ==> !r.outcome.fin.canUseQueryCache)
  {
    var c2 := AdjustSettings(c, q.stmt);
    assert !CanUseQueryCache(c2.settings, internal, q.stmt);
    var t := PrepareCnchTransaction(c2, q, env);
    var a := Admit(t.c, t.txn, internal, q.stmt, env);
    PrepareAndAdmitLocal(c2, t.txn, internal, q, env);
    PrepareIsPreliminary(c2, q, env);
    AdmitIsPreliminary(t.c, t.txn, internal, q.stmt, env);
    NoCacheEffectAppend(before, t.events);
    NoCacheEffectAppend(before + t.events, a.events);
    if a.Admitted? {
      var b := StartQuery(a.c, internal, q, false, env);
      StartQueryWithoutCache(a.c, internal, q, env);
      NoCacheEffectAppend(before + t.events + a.events, b.events);
    }
  }

  // ---------------------------------------------------------------------------
  // The query queue

  /**
   * A statement tryQueueQuery does not take (anything but SELECT, INSERT,
   * DELETE and UPDATE) is never enqueued and never fails with the queue's
   * error, on any path through executeQueryImpl.
   */
  lemma NonDmlNeverQueued(c: Ctx, req: Request, env: Environment)
    requires ParsedQuery(req.source).Some? ==> !IsQueueableType(ParsedQuery(req.source).value.stmt)
    ensures var r := Lifecycle(c, req, env);
      (forall e | e in r.events :: !e.Enqueued?) && !(r.outcome.Failed? && r.outcome.err.QueueFailure?)
  {
    FrontIsPreliminary(c, req.source, env);
    FrontProceedsWithParsedQuery(c, req.source, env);
    var f := Front(c, req.source, env);
    if f.Forwarded? {
      assert Lifecycle(c, req, env) == Run(f.c, f.events, RoutedRemote);
    } else if f.FrontFailed? {
      BeforeStartFailureAfterAdmission(f.c, req.internal, env.hasQuota);
      assert Lifecycle(c, req, env) == FailBeforeStart(f.c, f.events, req.internal, env, f.err);
    } else {
      LaunchNeverQueuesNonDml(f.c, f.events, req.internal, f.query, env);
      assert Lifecycle(c, req, env) == Launch(f.c, f.events, req.internal, f.query, env);
    }
  }

  lemma LaunchNeverQueuesNonDml(c: Ctx, before: seq<Event>, internal: bool, q: Query, env: Environment)
    requires forall e | e in before :: !e.Enqueued?
    requires !IsQueueableType(q.stmt)
    ensures var r := Launch(c, before, internal, q, env);
      (forall e | e in r.events :: !e.Enqueued?) && !(r.outcome.Failed? && r.outcome.err.QueueFailure?)
  {
    var c2 := AdjustSettings(c, q.stmt);
    var canUse := CanUseQueryCache(c2.settings, internal, q.stmt);
    var t := PrepareCnchTransaction(c2, q, env);
    PrepareIsPreliminary(c2, q, env);
    var a := Admit(t.c, t.txn, internal, q.stmt, env);
    assert a.Admitted? && a.events == [];
    var b := StartQuery(a.c, internal, q, canUse, env);
    StartQueryAfterAdmission(a.c, internal, q, canUse, env);
    StartQueryNeverQueueFailure(a.c, internal, q, canUse, env);
    assert Launch(c, before, internal, q, env).events == before + t.events + [] + b.events;
  }
}
