/**
 * What executeQueryImpl and its callbacks promise, stated over the functions
 * of LifecycleSpec (which the methods of QueryLifecycle.QueryContext are
 * proved to follow): the finalization contract on every exit, the routing
 * short-circuit, the implicit commit, transaction attachment, admission, the
 * retry policy and the query-cache protocol.
 */
module LifecycleProperties {
  import opened QueryTypes
  import opened QuerySettings
  import opened QueryClassify
  import opened LifecycleSpec

  // ---------------------------------------------------------------------------
  // Vocabulary over traces

  /** Effects of finalization: finishing a transaction, a log record, an ERRORS quota unit. */
  predicate IsFinalization(e: Event)
  {
    e.TxnFinished? || e.Emitted? || e == QuotaUsed(Errors)
  }

  /** No finalization effect has happened yet. */
  predicate NoFinalization(events: seq<Event>)
  {
    forall e | e in events :: !IsFinalization(e)
  }

  /** How many times `x` occurs in the trace. */
  function Count(events: seq<Event>, x: Event): nat
  {
    if events == [] then 0 else (if events[0] == x then 1 else 0) + Count(events[1..], x)
  }

  lemma {:induction false} CountAppend(a: seq<Event>, b: seq<Event>, x: Event)
    ensures Count(a + b, x) == Count(a, x) + Count(b, x)
    decreases |a|
  {
    if a == [] {
      assert a + b == b;
    } else {
      assert (a + b)[0] == a[0];
      assert (a + b)[1..] == a[1..] + b;
      CountAppend(a[1..], b, x);
    }
  }

  lemma CountSingleton(y: Event, x: Event)
    ensures Count([y], x) == if y == x then 1 else 0
  {
    assert [y][1..] == [];
  }

  lemma {:induction false} CountAbsent(a: seq<Event>, x: Event)
    requires x !in a
    ensures Count(a, x) == 0
    decreases |a|
  {
    if a != [] {
      assert forall y | y in a[1..] :: y in a;
      CountAbsent(a[1..], x);
    }
  }

  /** No transaction is finished. */
  predicate NoFinish(events: seq<Event>)
  {
    forall e | e in events :: !e.TxnFinished?
  }

  /**
   * The transaction is finished exactly when finish_current_transaction would
   * finish it (a bound transaction on a server), then exactly once, and no
   * other transaction is finished.
   */
  predicate FinishesOnce(c: Ctx, events: seq<Event>)
  {
    (forall e | e in events && e.TxnFinished? :: c.role == CnchServer && c.txn == Some(e.txn))
    && (c.role == CnchServer && c.txn.Some? ==> Count(events, TxnFinished(c.txn.value)) == 1)
  }

  lemma NoFinalizationAppend(a: seq<Event>, b: seq<Event>)
    requires NoFinalization(a) && NoFinalization(b)
    ensures NoFinalization(a + b)
  {
  }

  // ---------------------------------------------------------------------------
  // The steps before a failure perform no finalization

  lemma FrontIsPreliminary(c: Ctx, src: Source, env: Environment)
    ensures forall e | e in Front(c, src, env).events :: e.SessionCommitted? || e.ForwardedTo?
    ensures Front(c, src, env).FrontFailed? ==> !Front(c, src, env).err.QueueFailure?
  {
  }

  lemma PrepareIsPreliminary(c: Ctx, q: Query, env: Environment)
    ensures forall e | e in PrepareCnchTransaction(c, q, env).events :: e.TxnCreated? || e.SessionStatementAdded?
  {
  }

  lemma AdmitIsPreliminary(c: Ctx, txn: Option<Txn>, internal: bool, stmt: Statement, env: Environment)
    ensures forall e | e in Admit(c, txn, internal, stmt, env).events :: e.Enqueued?
  {
  }

  lemma RegisterIsPreliminary(c: Ctx, internal: bool, q: Query, env: Environment)
    ensures NoFinalization(Register(c, internal, q, env).events)
  {
    var listed := !internal && !q.stmt.ShowProcesslist?;
    var e1: seq<Event> := if listed then [ProcessListInserted] else [];
    QuotaChargesChargeNoErrors(q.stmt, env);
    NoFinalizationAppend(e1, QuotaCharges(q.stmt, env));
  }

  /** The quota charges are charges, never of the ERRORS unit. */
  lemma QuotaChargesChargeNoErrors(stmt: Statement, env: Environment)
    ensures forall e | e in QuotaCharges(stmt, env) :: e.QuotaUsed? && e.quota != Errors
  {
    var r := QuotaCharges(stmt, env);
    var units := ChargedUnits(stmt);
    forall e | e in r
      ensures e.QuotaUsed? && e.quota != Errors
    {
      var i :| 0 <= i < |r| && r[i] == e;
      assert units[i] != Errors;
    }
  }

  /** Effects that finish nothing around the one finish keep it the only one. */
  lemma FinishesOnceFrame(c: Ctx, a: seq<Event>, m: seq<Event>, d: seq<Event>)
    requires NoFinish(a) && NoFinish(d) && FinishesOnce(c, m)
    ensures FinishesOnce(c, a + m + d)
  {
    if c.role == CnchServer && c.txn.Some? {
      var x := TxnFinished(c.txn.value);
      assert x !in a && x !in d;
      CountAbsent(a, x);
      CountAbsent(d, x);
      CountAppend(a, m, x);
      CountAppend(a + m, d, x);
    }
  }

  /** Effects that finalize nothing charge no error and write no before-start log record. */
  lemma NoFinalizationCounts(a: seq<Event>)
    requires forall e | e in a :: !e.Emitted? && e != QuotaUsed(Errors)
    ensures Count(a, QuotaUsed(Errors)) == 0 && Count(a, Emitted(ExceptionBeforeStart)) == 0
  {
    CountAbsent(a, QuotaUsed(Errors));
    CountAbsent(a, Emitted(ExceptionBeforeStart));
  }

  /** The error-quota unit and the log record of onExceptionBeforeStart. */
  lemma OnExceptionBeforeStartCounts(c: Ctx, hasQuota: bool)
    ensures var o := OnExceptionBeforeStart(c, hasQuota).events;
      Count(o, QuotaUsed(Errors)) == (if hasQuota then 1 else 0)
      && Count(o, Emitted(ExceptionBeforeStart)) == 1
      && NoFinish(o)
  {
    var quota := if hasQuota then [QuotaUsed(Errors)] else [];
    CountAppend(quota, [Emitted(ExceptionBeforeStart)], QuotaUsed(Errors));
    CountAppend(quota, [Emitted(ExceptionBeforeStart)], Emitted(ExceptionBeforeStart));
  }

  /**
   * The before-start path after effects that finalized nothing: the
   * transaction is finished once, and a non-internal query is charged one
   * ERRORS unit (when a quota exists) and logged once; an internal query is
   * neither.
   */
  lemma FailBeforeStartFinalizes(c: Ctx, before: seq<Event>, internal: bool, env: Environment, err: QueryError)
    requires NoFinalization(before)
    ensures var r := FailBeforeStart(c, before, internal, env, err);
      r.c == c && r.outcome == Failed(err)
      && FinishesOnce(c, r.events)
      && Count(r.events, QuotaUsed(Errors)) == (if !internal && env.hasQuota then 1 else 0)
      && Count(r.events, Emitted(ExceptionBeforeStart)) == (if internal then 0 else 1)
  {
    var f := FinishCurrentTransaction(c).events;
    var o := if internal then [] else OnExceptionBeforeStart(c, env.hasQuota).events;
    OnExceptionBeforeStartCounts(c, env.hasQuota);
    assert FailBeforeStart(c, before, internal, env, err).events == before + f + o;
    assert FinishesOnce(c, f);
    FinishesOnceFrame(c, before, f, o);
    NoFinalizationCounts(before);
    NoFinalizationCounts(f);
    CountAppend(before, f, QuotaUsed(Errors));
    CountAppend(before + f, o, QuotaUsed(Errors));
    CountAppend(before, f, Emitted(ExceptionBeforeStart));
    CountAppend(before + f, o, Emitted(ExceptionBeforeStart));
  }

  lemma ExecuteAndAttachFinalization(c: Ctx, before: seq<Event>, internal: bool, q: Query, canUse: bool,
                                     env: Environment)
    requires NoFinalization(before)
    ensures var r := ExecuteAndAttach(c, before, internal, q, canUse, env);
      (r.outcome.Failed? ==>
         FinishesOnce(r.c, r.events)
         && Count(r.events, QuotaUsed(Errors)) == (if !internal && env.hasQuota then 1 else 0))
      && (r.outcome.Started? ==> NoFinalization(r.events))
      && !r.outcome.RoutedRemote?
  {
    var i := Interpret(c, env);
    assert NoFinalization(i.events);
    NoFinalizationAppend(before, i.events);
    match i.result
    case RunFailed(code) =>
      FailBeforeStartFinalizes(i.c, before + i.events, internal, env, InterpreterFailed(code));
    case RunOk(p) =>
      var r := ReadQueryCache(i.c, canUse, p, env);
      NoFinalizationAppend(before + i.events, r.events);
      var pipeline := if r.c.servedFromCache then env.cachedPipeline else p;
      if !internal && !q.stmt.ShowProcesslist? && env.killedInPending {
        FailBeforeStartFinalizes(r.c, before + i.events + r.events, internal, env, QueryWasCancelled);
      } else {
        var w := AttachQueryCacheWriter(r.c, canUse, pipeline, q.nondeterministic, env);
        NoFinalizationAppend(before + i.events + r.events, w + [CallbacksAttached]);
        assert before + i.events + r.events + w + [CallbacksAttached]
            == (before + i.events + r.events) + (w + [CallbacksAttached]);
      }
  }

  /**
   * A query killed while pending fails inside the second guarded block, so it
   * takes the before-start path; it never starts, so it never gets callbacks.
   */
  lemma KilledInPendingFailsBeforeStart(c: Ctx, before: seq<Event>, internal: bool, q: Query, canUse: bool,
                                        env: Environment)
    requires NoFinalization(before)
    requires Interpret(c, env).result.RunOk? && !internal && !q.stmt.ShowProcesslist? && env.killedInPending
    ensures var r := ExecuteAndAttach(c, before, internal, q, canUse, env);
      r.outcome == Failed(QueryWasCancelled)
      && FinishesOnce(r.c, r.events)
      && Count(r.events, Emitted(ExceptionBeforeStart)) == 1
  {
    var i := Interpret(c, env);
    assert NoFinalization(i.events);
    NoFinalizationAppend(before, i.events);
    var rc := ReadQueryCache(i.c, canUse, i.result.pipeline, env);
    NoFinalizationAppend(before + i.events, rc.events);
    FailBeforeStartFinalizes(rc.c, before + i.events + rc.events, internal, env, QueryWasCancelled);
  }

  lemma StartQueryFinalization(c: Ctx, internal: bool, q: Query, canUse: bool, env: Environment)
    ensures var r := StartQuery(c, internal, q, canUse, env);
      (r.outcome.Failed? ==>
         FinishesOnce(r.c, r.events)
         && Count(r.events, QuotaUsed(Errors)) == (if !internal && env.hasQuota then 1 else 0))
      && (r.outcome.Started? ==> NoFinalization(r.events))
      && !r.outcome.RoutedRemote?
  {
    var listed := !internal && !q.stmt.ShowProcesslist?;
    if env.setupFailsAt == Some(RewriteAst) {
      FailBeforeStartFinalizes(c, [], internal, env, SetupFailed(RewriteAst));
    } else if env.astLimitsExceeded {
      FailBeforeStartFinalizes(c, [], internal, env, AstLimitExceeded);
    } else if listed && env.processListRejects {
      FailBeforeStartFinalizes(c, [], internal, env, ProcessListRejected);
    } else {
      RegisterIsPreliminary(c, internal, q, env);
      match Register(c, internal, q, env)
      case RegisterFailed(c1, e1, err) =>
        FailBeforeStartFinalizes(c1, e1, internal, env, err);
      case Registered(c1, e1) =>
        ExecuteAndAttachFinalization(c1, e1, internal, q, canUse, env);
    }
  }

  /** Preliminary effects in front of a finalization keep its counts. */
  lemma PrefixKeepsFinalization(c: Ctx, pre: seq<Event>, events: seq<Event>)
    requires NoFinalization(pre) && FinishesOnce(c, events)
    ensures FinishesOnce(c, pre + events)
    ensures Count(pre + events, QuotaUsed(Errors)) == Count(events, QuotaUsed(Errors))
  {
    FinishesOnceFrame(c, pre, events, []);
    assert pre + events + [] == pre + events;
    NoFinalizationCounts(pre);
    CountAppend(pre, events, QuotaUsed(Errors));
  }

  /** The state and effects prepareCnchTransaction and admission leave for the start. */
  function Admitting(c: Ctx, internal: bool, q: Query, env: Environment): (TxnStep, Admission)
  {
    var c2 := AdjustSettings(c, q.stmt);
    var t := PrepareCnchTransaction(c2, q, env);
    (t, Admit(t.c, t.txn, internal, q.stmt, env))
  }

  lemma LaunchFinalization(c: Ctx, before: seq<Event>, internal: bool, q: Query, env: Environment)
    requires NoFinalization(before)
    ensures var r := Launch(c, before, internal, q, env);
      (r.outcome.Failed? && !r.outcome.err.QueueFailure? ==>
         FinishesOnce(r.c, r.events)
         && Count(r.events, QuotaUsed(Errors)) == (if !internal && env.hasQuota then 1 else 0))
      && (r.outcome.Failed? && r.outcome.err.QueueFailure? ==> NoFinalization(r.events) && r.c.txn.Some?)
      && (r.outcome.Started? ==> NoFinalization(r.events))
      && !r.outcome.RoutedRemote?
  {
    var (t, a) := Admitting(c, internal, q, env);
    PrepareIsPreliminary(AdjustSettings(c, q.stmt), q, env);
    AdmitIsPreliminary(t.c, t.txn, internal, q.stmt, env);
    NoFinalizationAppend(before, t.events);
    NoFinalizationAppend(before + t.events, a.events);
    if a.Rejected? {
      LaunchRejected(c, before, internal, q, env);
    } else {
      LaunchAdmitted(c, before, internal, q, env);
    }
  }

  lemma LaunchRejected(c: Ctx, before: seq<Event>, internal: bool, q: Query, env: Environment)
    requires NoFinalization(before + Admitting(c, internal, q, env).0.events + Admitting(c, internal, q, env).1.events)
    requires Admitting(c, internal, q, env).1.Rejected?
    ensures var r := Launch(c, before, internal, q, env);
      r.outcome.Failed? && r.outcome.err.QueueFailure? && NoFinalization(r.events) && r.c.txn.Some?
  {
    var (t, a) := Admitting(c, internal, q, env);
    PreparedTxnIsBound(AdjustSettings(c, q.stmt), q, env);
    AdmitKeepsTxn(t.c, t.txn, internal, q.stmt, env);
    AdmitRejectsOnlyFromQueue(t.c, t.txn, internal, q.stmt, env);
  }

  lemma LaunchAdmitted(c: Ctx, before: seq<Event>, internal: bool, q: Query, env: Environment)
    requires NoFinalization(before + Admitting(c, internal, q, env).0.events + Admitting(c, internal, q, env).1.events)
    requires Admitting(c, internal, q, env).1.Admitted?
    ensures var r := Launch(c, before, internal, q, env);
      (r.outcome.Failed? ==>
         !r.outcome.err.QueueFailure?
         && FinishesOnce(r.c, r.events)
         && Count(r.events, QuotaUsed(Errors)) == (if !internal && env.hasQuota then 1 else 0))
      && (r.outcome.Started? ==> NoFinalization(r.events))
      && !r.outcome.RoutedRemote?
  {
    var (t, a) := Admitting(c, internal, q, env);
    var canUse := CanUseQueryCache(AdjustSettings(c, q.stmt).settings, internal, q.stmt);
    var b := StartQuery(a.c, internal, q, canUse, env);
    assert Launch(c, before, internal, q, env) == Run(b.c, before + t.events + a.events + b.events, b.outcome);
    StartQueryFinalization(a.c, internal, q, canUse, env);
    StartQueryNeverQueueFailure(a.c, internal, q, canUse, env);
    if b.outcome.Failed? {
      PrefixKeepsFinalization(b.c, before + t.events + a.events, b.events);
    } else if b.outcome.Started? {
      NoFinalizationAppend(before + t.events + a.events, b.events);
    }
  }

  /** Admission rejects only with the queue's failure. */
  lemma AdmitRejectsOnlyFromQueue(c: Ctx, txn: Option<Txn>, internal: bool, stmt: Statement, env: Environment)
    ensures var a := Admit(c, txn, internal, stmt, env);
      a.Rejected? ==> a.err.QueueFailure? && a.c == c.(workerGroup := a.c.workerGroup)
  {
  }

  /** The second guarded block never fails with the queue's error. */
  lemma StartQueryNeverQueueFailure(c: Ctx, internal: bool, q: Query, canUse: bool, env: Environment)
    ensures var r := StartQuery(c, internal, q, canUse, env);
      r.outcome.Failed? ==> !r.outcome.err.QueueFailure?
  {
  }

  /** The transaction prepareCnchTransaction returns is the one bound to the context. */
  lemma PreparedTxnIsBound(c: Ctx, q: Query, env: Environment)
    ensures var t := PrepareCnchTransaction(c, q, env);
      t.txn.Some? ==> t.c.txn == t.txn
  {
  }

  /** Admission never touches the bound transaction, and only rejects when one is attached. */
  lemma AdmitKeepsTxn(c: Ctx, txn: Option<Txn>, internal: bool, stmt: Statement, env: Environment)
    ensures var a := Admit(c, txn, internal, stmt, env);
      a.c.txn == c.txn && (a.Rejected? ==> txn.Some?)
  {
  }

  /**
   * The finalization contract of executeQueryImpl.  A routed query and a
   * started one have finalized nothing yet (the callbacks will).  Every
   * failure inside the two guarded blocks finishes the transaction exactly
   * once and charges one ERRORS unit to a non-internal query with a quota.  A
   * rejection by the query queue, which is raised between the two guarded
   * blocks, leaves the attached transaction unfinished and is neither logged
   * nor charged.
   */
  lemma LifecycleFinalization(c: Ctx, req: Request, env: Environment)
    ensures var r := Lifecycle(c, req, env);
      (r.outcome.RoutedRemote? ==> NoFinalization(r.events))
      && (r.outcome.Started? ==> NoFinalization(r.events))
      && (r.outcome.Failed? && !r.outcome.err.QueueFailure? ==>
            FinishesOnce(r.c, r.events)
            && Count(r.events, QuotaUsed(Errors)) == (if !req.internal && env.hasQuota then 1 else 0))
      && (r.outcome.Failed? && r.outcome.err.QueueFailure? ==>
            NoFinalization(r.events) && r.c.txn.Some?)
  {
    FrontIsPreliminary(c, req.source, env);
    var f := Front(c, req.source, env);
    if f.Forwarded? {
      assert Lifecycle(c, req, env) == Run(f.c, f.events, RoutedRemote);
    } else if f.FrontFailed? {
      FailBeforeStartFinalizes(f.c, f.events, req.internal, env, f.err);
      assert Lifecycle(c, req, env) == FailBeforeStart(f.c, f.events, req.internal, env, f.err);
    } else {
      LaunchFinalization(f.c, f.events, req.internal, f.query, env);
      assert Lifecycle(c, req, env) == Launch(f.c, f.events, req.internal, f.query, env);
    }
  }

  // ---------------------------------------------------------------------------
  // The callbacks

  /**
   * finish_callback finishes the transaction once, also when there is no
   * process-list element, and never charges an error.
   */
  lemma FinishCallbackFinalizes(c: Ctx, fin: Finalization, hasQueryCache: bool)
    ensures var s := FinishCallback(c, fin, hasQueryCache);
      s.c == c && FinishesOnce(c, s.events) && QuotaUsed(Errors) !in s.events
  {
    var finalize := if FinalizesCacheWrite(hasQueryCache, fin) then [CacheWriteFinalized] else [];
    var f := FinishCurrentTransaction(c).events;
    var async := if c.asyncQueryId != "" then [AsyncStatusUpdated(AsyncFinished)] else [];
    var tail := if c.hasProcessListEntry then [Emitted(QueryFinish)] + async + [SegmentsCancelled] else [];
    if c.hasProcessListEntry {
      AppendThree(finalize + f, [Emitted(QueryFinish)], async, [SegmentsCancelled]);
    } else {
      assert finalize + f + [] == finalize + f;
    }
    assert QuotaUsed(Errors) !in finalize + f + tail;
    FinishesOnceFrame(c, finalize, f, tail);
  }

  /**
   * finish_callback finalizes a cache write under its own guard; only with a
   * process-list element does it log, update the async status and cancel the
   * plan segments.
   */
  lemma FinishCallbackReports(c: Ctx, fin: Finalization, hasQueryCache: bool)
    ensures var s := FinishCallback(c, fin, hasQueryCache).events;
      (CacheWriteFinalized in s <==> FinalizesCacheWrite(hasQueryCache, fin))
      && (Emitted(QueryFinish) in s <==> c.hasProcessListEntry)
      && (SegmentsCancelled in s <==> c.hasProcessListEntry)
      && (AsyncStatusUpdated(AsyncFinished) in s <==> c.hasProcessListEntry && c.asyncQueryId != "")
  {
  }

  /**
   * exception_callback finishes the transaction once, charges one ERRORS unit
   * when the query has a quota and logs once.
   */
  lemma ExceptionCallbackFinalizes(c: Ctx, fin: Finalization, localCode: int, coordinatorCode: Option<int>,
                                   ambiguous: bool)
    ensures var x := ExceptionCallback(c, fin, localCode, coordinatorCode, ambiguous);
      x.c == c && FinishesOnce(c, x.events)
      && Count(x.events, QuotaUsed(Errors)) == (if fin.hasQuota then 1 else 0)
      && Count(x.events, Emitted(ExceptionWhileProcessing)) == 1
  {
    var f := FinishCurrentTransaction(c).events;
    var quota := if fin.hasQuota then [QuotaUsed(Errors)] else [];
    var cause := ResolveRootCause(localCode, coordinatorCode, ambiguous);
    var notified := if coordinatorCode.Some? then [CoordinatorNotified(localCode)] else [];
    var async := if c.asyncQueryId != "" then [AsyncStatusUpdated(AsyncFailed)] else [];
    var renotified := if coordinatorCode.Some? then [CoordinatorNotified(cause.code)] else [];
    var rest := quota + notified + [Emitted(ExceptionWhileProcessing)] + async + renotified;
    ExceptionCallbackCounts(f, quota, notified, async, renotified);
    AppendFive(f, quota, notified, [Emitted(ExceptionWhileProcessing)], async, renotified);
    ExceptionCallbackFinishesOnce(c, f, rest);
  }

  lemma ExceptionCallbackCounts(f: seq<Event>, quota: seq<Event>, notified: seq<Event>, async: seq<Event>,
                                renotified: seq<Event>)
    requires forall e | e in f :: e.TxnFinished?
    requires quota == [] || quota == [QuotaUsed(Errors)]
    requires forall e | e in notified :: e.CoordinatorNotified?
    requires forall e | e in renotified :: e.CoordinatorNotified?
    requires forall e | e in async :: e.AsyncStatusUpdated?
    ensures var events := f + (quota + notified + [Emitted(ExceptionWhileProcessing)] + async + renotified);
      Count(events, QuotaUsed(Errors)) == |quota|
      && Count(events, Emitted(ExceptionWhileProcessing)) == 1
      && NoFinish(quota + notified + [Emitted(ExceptionWhileProcessing)] + async + renotified)
  {
    var log := [Emitted(ExceptionWhileProcessing)];
    var rest := quota + notified + log + async + renotified;
    forall x | x == QuotaUsed(Errors) || x == Emitted(ExceptionWhileProcessing)
      ensures Count(f + rest, x) == Count(quota, x) + Count(log, x)
    {
      CountAbsent(f, x);
      CountAbsent(notified, x);
      CountAbsent(async, x);
      CountAbsent(renotified, x);
      CountAppend(quota, notified, x);
      CountAppend(quota + notified, log, x);
      CountAppend(quota + notified + log, async, x);
      CountAppend(quota + notified + log + async, renotified, x);
      CountAppend(f, rest, x);
    }
    CountSingleton(Emitted(ExceptionWhileProcessing), QuotaUsed(Errors));
    CountSingleton(Emitted(ExceptionWhileProcessing), Emitted(ExceptionWhileProcessing));
    CountSingleton(QuotaUsed(Errors), QuotaUsed(Errors));
    CountSingleton(QuotaUsed(Errors), Emitted(ExceptionWhileProcessing));
  }

  lemma ExceptionCallbackFinishesOnce(c: Ctx, f: seq<Event>, rest: seq<Event>)
    requires f == FinishCurrentTransaction(c).events && NoFinish(rest)
    ensures FinishesOnce(c, f + rest)
  {
    FinishesOnceFrame(c, [], f, rest);
    assert [] + f + rest == f + rest;
  }

  /**
   * exception_callback reports the resolved root cause, to the coordinator
   * last when there is one, and rethrows it exactly when an ambiguous local
   * code was replaced by a different one.
   */
  lemma ExceptionCallbackRootCause(c: Ctx, fin: Finalization, localCode: int, coordinatorCode: Option<int>,
                                   ambiguous: bool)
    ensures var x := ExceptionCallback(c, fin, localCode, coordinatorCode, ambiguous);
      (x.cause.rethrow <==> coordinatorCode.Some? && ambiguous && coordinatorCode.value != localCode)
      && x.cause.code == (if coordinatorCode.Some? && ambiguous then coordinatorCode.value else localCode)
      && (coordinatorCode.Some? ==> x.events[|x.events| - 1] == CoordinatorNotified(x.cause.code))
      && (coordinatorCode.None? ==> forall e | e in x.events :: !e.CoordinatorNotified?)
  {
  }

  /**
   * Every started query finishes its transaction exactly once, in whichever
   * callback ends it; an exception also charges the one ERRORS unit.
   */
  lemma StartedQueryFinishesInCallback(c: Ctx, req: Request, env: Environment, hasQueryCache: bool,
                                       localCode: int, coordinatorCode: Option<int>, ambiguous: bool)
    requires Lifecycle(c, req, env).outcome.Started?
    ensures var r := Lifecycle(c, req, env);
      var fin := r.outcome.fin;
      var x := ExceptionCallback(r.c, fin, localCode, coordinatorCode, ambiguous).events;
      FinishesOnce(r.c, r.events + FinishCallback(r.c, fin, hasQueryCache).events)
      && FinishesOnce(r.c, r.events + x)
      && Count(r.events + x, QuotaUsed(Errors)) == (if fin.hasQuota then 1 else 0)
      && fin.hasQuota == ChargesQuota(env)
  {
    var r := Lifecycle(c, req, env);
    LifecycleFinalization(c, req, env);
    LifecycleStartCapturesQuota(c, req, env);
    FinishCallbackFinalizes(r.c, r.outcome.fin, hasQueryCache);
    PrefixKeepsFinalization(r.c, r.events, FinishCallback(r.c, r.outcome.fin, hasQueryCache).events);
    ExceptionCallbackFinalizes(r.c, r.outcome.fin, localCode, coordinatorCode, ambiguous);
    PrefixKeepsFinalization(r.c, r.events, ExceptionCallback(r.c, r.outcome.fin, localCode, coordinatorCode, ambiguous).events);
  }

  /** The exception callback holds the quota exactly when the interpreter does not ignore it. */
  lemma LifecycleStartCapturesQuota(c: Ctx, req: Request, env: Environment)
    requires Lifecycle(c, req, env).outcome.Started?
    ensures Lifecycle(c, req, env).outcome.fin.hasQuota == (env.hasQuota && !env.ignoresQuota)
  {
    match Front(c, req.source, env)
    case Proceed(c1, e1, q) =>
      var (t, a) := Admitting(c1, req.internal, q, env);
      var canUse := CanUseQueryCache(AdjustSettings(c1, q.stmt).settings, req.internal, q.stmt);
      assert a.Admitted?;
      StartCapturesQuota(a.c, req.internal, q, canUse, env);
    case _ =>
  }

  lemma StartCapturesQuota(c: Ctx, internal: bool, q: Query, canUse: bool, env: Environment)
    ensures var r := StartQuery(c, internal, q, canUse, env);
      r.outcome.Started? ==> r.outcome.fin.hasQuota == ChargesQuota(env)
  {
  }
}
