/**
 * The first guarded block of executeQueryImpl: when a query is forwarded to
 * another server (and that then nothing happens locally), and the implicit
 * commit of an interactive session before DDL, which precedes every other
 * effect.
 */
module RoutingProperties {
  import opened QueryTypes
  import opened QuerySettings
  import opened QueryClassify
  import opened LifecycleSpec
  import opened LifecycleProperties

  /** Effects of the first guarded block only: the implicit commit and the forwarding. */
  predicate IsFrontEffect(e: Event)
  {
    e.SessionCommitted? || e.ForwardedTo?
  }

  /** Effects that happen only after the first guarded block (and never a front one). */
  predicate Local(events: seq<Event>)
  {
    forall e | e in events :: !IsFrontEffect(e)
  }

  /** Effects after admission: not front effects, no transaction or session change, no queueing. */
  predicate AfterAdmission(events: seq<Event>)
  {
    forall e | e in events :: !IsFrontEffect(e) && !e.TxnCreated? && !e.SessionStatementAdded? && !e.Enqueued?
  }

  /** An implicit commit, if any, is the first effect. */
  predicate CommitOnlyFirst(events: seq<Event>)
  {
    forall i | 0 < i < |events| :: !events[i].SessionCommitted?
  }

  lemma CommitOnlyFirstAppend(a: seq<Event>, b: seq<Event>)
    requires CommitOnlyFirst(a) && Local(b)
    ensures CommitOnlyFirst(a + b)
    ensures |a + b| > 0 && (a + b)[0].SessionCommitted? <==> |a| > 0 && a[0].SessionCommitted?
  {
    forall i | 0 < i < |a + b|
      ensures !(a + b)[i].SessionCommitted?
    {
      if i >= |a| {
        assert (a + b)[i] == b[i - |a|];
        assert b[i - |a|] in b;
      }
    }
    if |a| == 0 && |b| > 0 {
      assert (a + b)[0] == b[0] && b[0] in b;
    }
  }

  // ---------------------------------------------------------------------------
  // The steps after the first guarded block are local

  lemma AfterAdmissionAppend(a: seq<Event>, b: seq<Event>)
    requires AfterAdmission(a) && AfterAdmission(b)
    ensures AfterAdmission(a + b)
  {
  }

  lemma BeforeStartFailureAfterAdmission(c: Ctx, internal: bool, hasQuota: bool)
    ensures AfterAdmission(BeforeStartFailure(c, internal, hasQuota).events)
  {
  }

  lemma StepsAfterAdmission(c: Ctx, canUse: bool, p: Pipeline, nondeterministic: bool, env: Environment)
    ensures AfterAdmission(Interpret(c, env).events)
    ensures AfterAdmission(ReadQueryCache(c, canUse, p, env).events)
    ensures AfterAdmission(AttachQueryCacheWriter(c, canUse, p, nondeterministic, env) + [CallbacksAttached])
  {
  }

  lemma ExecuteAndAttachAfterAdmission(c: Ctx, before: seq<Event>, internal: bool, q: Query, canUse: bool,
                                       env: Environment)
    requires AfterAdmission(before)
    ensures AfterAdmission(ExecuteAndAttach(c, before, internal, q, canUse, env).events)
    ensures ExecuteAndAttach(c, before, internal, q, canUse, env).outcome != RoutedRemote
  {
    var i := Interpret(c, env);
    var d := before + i.events;
    StepsAfterAdmission(c, canUse, env.cachedPipeline, q.nondeterministic, env);
    AfterAdmissionAppend(before, i.events);
    match i.result
    case RunFailed(code) =>
      BeforeStartFailureAfterAdmission(i.c, internal, env.hasQuota);
      AfterAdmissionAppend(d, BeforeStartFailure(i.c, internal, env.hasQuota).events);
    case RunOk(p) =>
      var r := ReadQueryCache(i.c, canUse, p, env);
      StepsAfterAdmission(i.c, canUse, p, q.nondeterministic, env);
      AfterAdmissionAppend(d, r.events);
      var d2 := d + r.events;
      var pipeline := if r.c.servedFromCache then env.cachedPipeline else p;
      if !internal && !q.stmt.ShowProcesslist? && env.killedInPending {
        BeforeStartFailureAfterAdmission(r.c, internal, env.hasQuota);
        AfterAdmissionAppend(d2, BeforeStartFailure(r.c, internal, env.hasQuota).events);
      } else {
        var w := AttachQueryCacheWriter(r.c, canUse, pipeline, q.nondeterministic, env);
        StepsAfterAdmission(r.c, canUse, pipeline, q.nondeterministic, env);
        AfterAdmissionAppend(d2, w + [CallbacksAttached]);
        AppendTwo(d2, w, [CallbacksAttached]);
      }
  }

  lemma StartQueryAfterAdmission(c: Ctx, internal: bool, q: Query, canUse: bool, env: Environment)
    ensures AfterAdmission(StartQuery(c, internal, q, canUse, env).events)
    ensures StartQuery(c, internal, q, canUse, env).outcome != RoutedRemote
  {
    var early := EarlyFailure(internal, q.stmt, env);
    if early.Some? {
      BeforeStartFailureAfterAdmission(c, internal, env.hasQuota);
      assert [] + BeforeStartFailure(c, internal, env.hasQuota).events
          == BeforeStartFailure(c, internal, env.hasQuota).events;
      assert StartQuery(c, internal, q, canUse, env) == FailBeforeStart(c, [], internal, env, early.value);
    } else {
      var rg := Register(c, internal, q, env);
      RegisterAfterAdmission(c, internal, q, env);
      if rg.RegisterFailed? {
        BeforeStartFailureAfterAdmission(rg.c, internal, env.hasQuota);
        AfterAdmissionAppend(rg.events, BeforeStartFailure(rg.c, internal, env.hasQuota).events);
        assert StartQuery(c, internal, q, canUse, env) == FailBeforeStart(rg.c, rg.events, internal, env, rg.err);
      } else {
        ExecuteAndAttachAfterAdmission(rg.c, rg.events, internal, q, canUse, env);
        assert StartQuery(c, internal, q, canUse, env) == ExecuteAndAttach(rg.c, rg.events, internal, q, canUse, env);
      }
    }
  }

  /** The process list and the quota charges are effects of the second guarded block only. */
  lemma RegisterAfterAdmission(c: Ctx, internal: bool, q: Query, env: Environment)
    ensures AfterAdmission(Register(c, internal, q, env).events)
  {
    QuotaChargesChargeNoErrors(q.stmt, env);
    var s := EnterProcessList(c, internal, q.stmt);
    AfterAdmissionAppend(s.events, QuotaCharges(q.stmt, env));
  }

  lemma LocalAppend(a: seq<Event>, b: seq<Event>)
    requires Local(a) && Local(b)
    ensures Local(a + b)
  {
  }

  lemma PrepareAndAdmitLocal(c: Ctx, txn: Option<Txn>, internal: bool, q: Query, env: Environment)
    ensures Local(PrepareCnchTransaction(c, q, env).events)
    ensures Local(Admit(c, txn, internal, q.stmt, env).events)
  {
  }

  /** Everything executeQueryImpl does after the first guarded block is local and never routes. */
  lemma LaunchIsLocal(c: Ctx, internal: bool, q: Query, env: Environment)
    ensures Local(Launch(c, [], internal, q, env).events)
    ensures Launch(c, [], internal, q, env).outcome != RoutedRemote
  {
    var c2 := AdjustSettings(c, q.stmt);
    var canUse := CanUseQueryCache(c2.settings, internal, q.stmt);
    var t := PrepareCnchTransaction(c2, q, env);
    var a := Admit(t.c, t.txn, internal, q.stmt, env);
    PrepareAndAdmitLocal(c2, t.txn, internal, q, env);
    PrepareAndAdmitLocal(t.c, t.txn, internal, q, env);
    LocalAppend(t.events, a.events);
    if a.Admitted? {
      var b := StartQuery(a.c, internal, q, canUse, env);
      StartQueryAfterAdmission(a.c, internal, q, canUse, env);
      assert Launch(c, [], internal, q, env).events == [] + t.events + a.events + b.events;
      LocalAppend(t.events + a.events, b.events);
    } else {
      assert Launch(c, [], internal, q, env).events == [] + t.events + a.events;
    }
  }

  // ---------------------------------------------------------------------------
  // Routing

  /** The context the routing decision sees: server defaults and the warehouse's settings applied. */
  function BeforeRouting(c: Ctx, env: Environment): Ctx
  {
    ApplyWarehouseSettings(ServerDefaults(c), env)
  }

  /**
   * A parsed query is forwarded exactly when the node is a server, no failing
   * implicit commit stopped it, the session is still interactive (it is not
   * after a commit) or auto-forwarding or the query cache is on, and the
   * router named a remote host that the proxy reached.
   */
  lemma RoutedIff(c: Ctx, req: Request, env: Environment)
    requires ParsedQuery(req.source).Some?
    ensures var q := ParsedQuery(req.source).value;
      var s := BeforeRouting(c, env).settings;
      var commit := IsQueryInInteractiveSession(c.session) && IsDDLQuery(q.stmt);
      Lifecycle(c, req, env).outcome == RoutedRemote <==>
        c.role == CnchServer && !(commit && env.commitFails)
        && ((IsQueryInInteractiveSession(c.session) && !commit) || s.enableAutoQueryForwarding || s.useQueryCache)
        && env.route.RemoteTarget? && !env.proxyFails
  {
    RoutedOnlyFromFront(c, req, env);
    FrontForwardedIff(c, req.source, env);
  }

  lemma FrontForwardedIff(c: Ctx, src: Source, env: Environment)
    requires ParsedQuery(src).Some?
    ensures var q := ParsedQuery(src).value;
      var s := BeforeRouting(c, env).settings;
      var commit := IsQueryInInteractiveSession(c.session) && IsDDLQuery(q.stmt);
      Front(c, src, env).Forwarded? <==>
        c.role == CnchServer && !(commit && env.commitFails)
        && ((IsQueryInInteractiveSession(c.session) && !commit) || s.enableAutoQueryForwarding || s.useQueryCache)
        && env.route.RemoteTarget? && !env.proxyFails
  {
  }

  /** Only the first guarded block forwards: the rest of executeQueryImpl never routes. */
  lemma RoutedOnlyFromFront(c: Ctx, req: Request, env: Environment)
    ensures Lifecycle(c, req, env).outcome == RoutedRemote <==> Front(c, req.source, env).Forwarded?
    ensures Front(c, req.source, env).Forwarded? ==> Lifecycle(c, req, env).c == Front(c, req.source, env).c
                                                     && Lifecycle(c, req, env).events == Front(c, req.source, env).events
  {
    match Front(c, req.source, env)
    case Proceed(c1, e1, q1) =>
      LaunchIsLocal(c1, req.internal, q1, env);
      LaunchAfter(c1, e1, [], req.internal, q1, env);
      assert e1 + [] == e1;
    case _ =>
  }

  lemma ForwardedStaysRemote(c: Ctx, src: Source, env: Environment)
    requires Front(c, src, env).Forwarded?
    ensures var f := Front(c, src, env);
      (forall e | e in f.events :: IsFrontEffect(e))
      && |f.events| > 0 && f.events[|f.events| - 1] == ForwardedTo(env.route.host)
      && f.c.txn == c.txn && f.c.hasProcessListEntry == c.hasProcessListEntry
      && f.c.workerGroup == c.workerGroup
      && f.c.settings == BeforeRouting(c, env).settings
  {
  }

  /**
   * A forwarded query does nothing locally after the proxy returns: the only
   * effects are the implicit commit and the forwarding, the SETTINGS clause is
   * not interpreted, and no transaction, queue slot, process-list entry or
   * callback is created.
   */
  lemma RoutedQueryStaysRemote(c: Ctx, req: Request, env: Environment)
    requires Lifecycle(c, req, env).outcome == RoutedRemote
    ensures var r := Lifecycle(c, req, env);
      (forall e | e in r.events :: IsFrontEffect(e))
      && |r.events| > 0 && r.events[|r.events| - 1] == ForwardedTo(env.route.host)
      && r.c.txn == c.txn && r.c.hasProcessListEntry == c.hasProcessListEntry
      && r.c.workerGroup == c.workerGroup
      && r.c.settings == BeforeRouting(c, env).settings
  {
    RoutedOnlyFromFront(c, req, env);
    ForwardedStaysRemote(c, req.source, env);
  }

  // ---------------------------------------------------------------------------
  // Implicit commit

  lemma FrontCommitsFirst(c: Ctx, src: Source, env: Environment)
    ensures var f := Front(c, src, env);
      CommitOnlyFirst(f.events)
      && (|f.events| > 0 && f.events[0].SessionCommitted? <==>
            ParsedQuery(src).Some? && IsQueryInInteractiveSession(c.session)
            && IsDDLQuery(ParsedQuery(src).value.stmt) && !env.commitFails)
  {
    var c0 := ServerDefaults(c);
    match ParsedQuery(src)
    case None =>
    case Some(q) =>
      var c1 := ApplyWarehouseSettings(c0, env);
      var commit := IsQueryInInteractiveSession(c1.session) && IsDDLQuery(q.stmt);
      if !(commit && env.commitFails) {
        var st := if commit then ImplicitCommit(c1) else Step(c1, []);
        RouteOrInterpretAppends(st, src, q, env);
      }
  }

  /** The routing step adds at most the forwarding to the effects before it. */
  lemma RouteOrInterpretAppends(st: Step, src: Source, q: Query, env: Environment)
    ensures var f := RouteOrInterpret(st, src, q, env);
      f.events == st.events || f.events == st.events + [ForwardedTo(env.route.host)]
  {
  }

  /**
   * A DDL statement in an interactive session commits the session's
   * transaction before anything else happens (before routing and before a new
   * transaction is created), and nothing else ever commits it.
   */
  lemma ImplicitCommitComesFirst(c: Ctx, req: Request, env: Environment)
    ensures var r := Lifecycle(c, req, env);
      CommitOnlyFirst(r.events)
      && (|r.events| > 0 && r.events[0].SessionCommitted? <==>
            ParsedQuery(req.source).Some? && IsQueryInInteractiveSession(c.session)
            && IsDDLQuery(ParsedQuery(req.source).value.stmt) && !env.commitFails)
  {
    FrontCommitsFirst(c, req.source, env);
    var fr := Front(c, req.source, env);
    if fr.Forwarded? {
      assert Lifecycle(c, req, env) == Run(fr.c, fr.events, RoutedRemote);
    } else if fr.FrontFailed? {
      var f := BeforeStartFailure(fr.c, req.internal, env.hasQuota).events;
      assert Local(f);
      CommitOnlyFirstAppend(fr.events, f);
      assert Lifecycle(c, req, env) == FailBeforeStart(fr.c, fr.events, req.internal, env, fr.err);
    } else {
      var l := Launch(fr.c, [], req.internal, fr.query, env);
      LaunchIsLocal(fr.c, req.internal, fr.query, env);
      LaunchAfter(fr.c, fr.events, [], req.internal, fr.query, env);
      assert fr.events + [] == fr.events;
      CommitOnlyFirstAppend(fr.events, l.events);
      assert Lifecycle(c, req, env) == Launch(fr.c, fr.events, req.internal, fr.query, env);
    }
  }

  /** Only DDL commits: a single ATTACH or non-detaching DROP PARTITION never ends the session's transaction. */
  lemma PartitionAlterNeverCommits(c: Ctx, req: Request, env: Environment)
    requires ParsedQuery(req.source).Some?
    requires var stmt := ParsedQuery(req.source).value.stmt;
      stmt.Alter? && stmt.commands.Some? && |stmt.commands.value| == 1
      && (IsAttachCommand(stmt.commands.value[0]) || IsDropPartitionCommand(stmt.commands.value[0]))
    ensures forall e | e in Lifecycle(c, req, env).events :: !e.SessionCommitted?
  {
    var r := Lifecycle(c, req, env);
    ImplicitCommitComesFirst(c, req, env);
    forall e | e in r.events
      ensures !e.SessionCommitted?
    {
      var i :| 0 <= i < |r.events| && r.events[i] == e;
    }
  }
}
