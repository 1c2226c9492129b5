/**
 * What the dispatcher promises, stated over the effects it logs: the routing rules
 * for each outcome, exactly one terminal response per request, the keepalive
 * accounting, the order on worker keys and the registry clean-up.
 */
module Properties {
  import opened Types
  import opened Responses
  import opened Dispatch
  import opened Registry

  /** How many events of `log` satisfy `p`. */
  function Count(log: seq<Event>, p: Event -> bool): nat
  {
    if log == [] then 0 else (if p(log[0]) then 1 else 0) + Count(log[1..], p)
  }

  lemma {:induction false} CountAppend(a: seq<Event>, b: seq<Event>, p: Event -> bool)
    ensures Count(a + b, p) == Count(a, p) + Count(b, p)
  {
    if a == [] {
      assert a + b == b;
    } else {
      assert (a + b)[1..] == a[1..] + b;
      CountAppend(a[1..], b, p);
    }
  }

  lemma CountOfThree(a: Event, b: Event, c: Event, p: Event -> bool)
    ensures Count([a, b, c], p) == (if p(a) then 1 else 0) + (if p(b) then 1 else 0) + (if p(c) then 1 else 0)
  {
    assert [a, b, c][1..] == [b, c];
    assert [b, c][1..] == [c];
    assert [c][1..] == [];
    assert Count([c], p) == if p(c) then 1 else 0;
    assert Count([b, c], p) == (if p(b) then 1 else 0) + Count([c], p);
  }

  /** The handler ran (asynchronously or in sync mode). */
  predicate IsRun(e: Event) { e.Executed? || e.RanSync? }
  predicate IsNotify(e: Event) { e.NotifyActivity? }
  predicate IsAssess(e: Event) { e.Assessed? }
  predicate IsQuotaExceeded(e: Event) { e.QuotaExceeded? }
  /** A response message went out. */
  predicate IsResponse(e: Event) { e.Send? }
  /** The request reached its end: a response, a kill, or the host aborting. */
  predicate IsTerminal(e: Event) { e.Send? || e.Kill? || e.AbortHost? }

  /** Keepalive increments minus decrements for one extension. */
  function Balance(log: seq<Event>, id: string): int
  {
    if log == [] then 0
    else
      (if log[0] == KeepaliveInc(id) then 1 else if log[0] == KeepaliveDec(id) then -1 else 0)
      + Balance(log[1..], id)
  }

  lemma {:induction false} BalanceAppend(a: seq<Event>, b: seq<Event>, id: string)
    ensures Balance(a + b, id) == Balance(a, id) + Balance(b, id)
  {
    if a == [] {
      assert a + b == b;
    } else {
      assert (a + b)[1..] == a[1..] + b;
      BalanceAppend(a[1..], b, id);
    }
  }

  lemma BalanceOfThree(a: Event, b: Event, c: Event, id: string)
    requires a.Assessed? && b.NotifyActivity? && IsRun(c)
    ensures Balance([a, b, c], id) == 0
  {
    assert [a, b, c][1..] == [b, c];
    assert [b, c][1..] == [c];
    assert [c][1..] == [];
    assert Balance([c], id) == 0;
    assert Balance([b, c], id) == 0;
  }

  /** None of the handler's business happened: no assessment, notification, run or keepalive. */
  predicate HandlerUntouched(events: seq<Event>)
  {
    forall e <- events :: !IsRun(e) && !IsAssess(e) && !IsNotify(e) && !IsQuotaExceeded(e) && !e.KeepaliveInc?
  }

  // ---------------------------------------------------------------------------
  // Worker keys

  /** operator< on WorkerResponseCallbackMapKey is a strict total order, as std::map needs. */
  lemma KeyLessIsStrictTotalOrder(a: WorkerKey, b: WorkerKey, c: WorkerKey)
    ensures !KeyLess(a, a)
    ensures KeyLess(a, b) ==> !KeyLess(b, a)
    ensures KeyLess(a, b) && KeyLess(b, c) ==> KeyLess(a, c)
    ensures a != b ==> KeyLess(a, b) || KeyLess(b, a)
    ensures (!KeyLess(a, b) && !KeyLess(b, a)) <==> a == b
  {
  }

  // ---------------------------------------------------------------------------
  // Routing of one UI-thread dispatch

  /**
   * A name with no handler: no function is created and nothing runs; the callback is
   * run once with FAILED, no results, the access-denied error and histogram UNKNOWN.
   */
  lemma UnknownFunctionIsDenied(env: Env, req: Request, rpid: int, cb: Callback, live: set<nat>, sync: bool)
    requires env.hasProcessMap && req.name !in env.handlers
    ensures var r := DispatchWithCallbackInternal(env, req, rpid, cb, live, sync);
      && r.reply.None?
      && r.events == RunCallback(env, cb, live, Failed, [], ACCESS_DENIED, UNKNOWN_HISTOGRAM)
      && HandlerUntouched(r.events)
      && (Bound(env, cb, live) ==> r.events == [Send(TargetOf(cb), cb.requestId, false, [], ACCESS_DENIED)])
  {
  }

  /**
   * HasPermission() false: the same access-denied response, tagged with the handler's
   * own histogram value, and no quota assessment or execution.
   */
  lemma PermissionDeniedIsDenied(env: Env, req: Request, rpid: int, cb: Callback, live: set<nat>, sync: bool)
    requires env.hasProcessMap && req.name in env.handlers
    requires env.handlers[req.name].thread == UIThread
    requires !env.hasPermission(NewFunction(req, env.handlers[req.name], ResolveExtension(env, req), rpid))
    ensures var r := DispatchWithCallbackInternal(env, req, rpid, cb, live, sync);
      && r.reply.None?
      && r.events == RunCallback(env, cb, live, Failed, [], ACCESS_DENIED, env.handlers[req.name].histogram)
      && HandlerUntouched(r.events)
      && (Bound(env, cb, live) ==> r.events == [Send(TargetOf(cb), cb.requestId, false, [], ACCESS_DENIED)])
  {
  }

  /** The same on the IO thread: the IO filter gets the denial, nothing else happens. */
  lemma IOPermissionDeniedIsDenied(env: Env, req: Request, rpid: int, sender: IOSender, routingId: int)
    requires req.name in env.handlers && env.handlers[req.name].thread == IOThread
    requires var ext := if req.extensionId in env.ioExtensions then Some(req.extensionId) else None;
      !env.hasPermission(NewFunction(req, env.handlers[req.name], ext, rpid))
    ensures var r := DispatchOnIOThread(env, req, rpid, sender, routingId);
      && HandlerUntouched(r)
      && (sender.id in env.liveSenders ==>
            r == [Send(ToIOFilter(sender.id, routingId), req.requestId, false, [], ACCESS_DENIED)])
      && (sender.id !in env.liveSenders ==> r == [])
  {
  }

  /**
   * No extension resolves: the handler runs at once, exactly once, with no assessment,
   * no activity notification and no keepalive change; in sync mode the output slots
   * receive RunNWSync's result (and did_respond_ is set).
   */
  lemma AnonymousCallerRunsDirectly(env: Env, req: Request, rpid: int, cb: Callback, live: set<nat>, sync: bool, id: string)
    requires ClassifyUI(env, req, rpid) == Anonymous
    ensures var r := DispatchWithCallbackInternal(env, req, rpid, cb, live, sync);
      var f := NewFunction(req, env.handlers[req.name], None, rpid);
      && Count(r.events, IsRun) == 1
      && Count(r.events, IsAssess) == 0
      && Count(r.events, IsNotify) == 0
      && Balance(r.events, id) == 0
      && (sync ==> r.reply == Some(env.runSync(f)))
      && (!sync ==> r.reply.None?)
  {
  }

  /**
   * A non-empty quota violation: the handler never runs, OnQuotaExceeded gets exactly
   * that message, and no activity is notified.
   */
  lemma QuotaViolationBlocksHandler(env: Env, req: Request, rpid: int, cb: Callback, live: set<nat>, sync: bool)
    requires ClassifyUI(env, req, rpid).QuotaViolation?
    ensures var r := DispatchWithCallbackInternal(env, req, rpid, cb, live, sync);
      var ext := ResolveExtension(env, req).value;
      var v := env.assess(ext, NewFunction(req, env.handlers[req.name], Some(ext), rpid));
      && v != ""
      && ClassifyUI(env, req, rpid) == QuotaViolation(v)
      && Count(r.events, IsRun) == 0
      && Count(r.events, IsNotify) == 0
      && Count(r.events, IsQuotaExceeded) == 1
      && r.events[1] == QuotaExceeded(req.requestId, v)
      && r.reply.None?
  {
    var r := DispatchWithCallbackInternal(env, req, rpid, cb, live, sync);
    var ext := ResolveExtension(env, req);
    var head := [Assessed(ext.value, req.name), QuotaExceeded(req.requestId, ClassifyUI(env, req, rpid).violation)];
    CountAppend(head, KeepaliveStep(env, req, ext), IsRun);
    CountAppend(head, KeepaliveStep(env, req, ext), IsNotify);
    CountAppend(head, KeepaliveStep(env, req, ext), IsQuotaExceeded);
  }

  /** An empty violation: the assessment, then the notification, then exactly one run. */
  lemma AdmittedNotifiesThenRunsOnce(env: Env, req: Request, rpid: int, cb: Callback, live: set<nat>, sync: bool)
    requires ClassifyUI(env, req, rpid) == Admitted
    ensures var r := DispatchWithCallbackInternal(env, req, rpid, cb, live, sync);
      var ext := ResolveExtension(env, req).value;
      && |r.events| >= 3
      && r.events[0] == Assessed(ext, req.name)
      && r.events[1] == NotifyActivity(ext, req.name)
      && IsRun(r.events[2]) && r.events[2].requestId == req.requestId
      && Count(r.events, IsRun) == 1
      && Count(r.events, IsNotify) == 1
      && Count(r.events, IsQuotaExceeded) == 0
      && (sync <==> r.reply.Some?)
  {
    var ext := ResolveExtension(env, req);
    var f := NewFunction(req, env.handlers[req.name], ext, rpid);
    var head := [Assessed(ext.value, req.name), NotifyActivity(ext.value, req.name), RunEvent(f, sync)];
    CountOfThree(head[0], head[1], head[2], IsRun);
    CountOfThree(head[0], head[1], head[2], IsNotify);
    CountOfThree(head[0], head[1], head[2], IsQuotaExceeded);
    CountAppend(head, KeepaliveStep(env, req, ext), IsRun);
    CountAppend(head, KeepaliveStep(env, req, ext), IsNotify);
    CountAppend(head, KeepaliveStep(env, req, ext), IsQuotaExceeded);
  }

  /**
   * After an attributed dispatch (admitted or over quota alike) the resolved
   * extension's keepalive count rises by one exactly when the request's extension id
   * is still enabled; no other extension's count moves.
   */
  lemma KeepaliveIncrementedOnce(env: Env, req: Request, rpid: int, cb: Callback, live: set<nat>, sync: bool, id: string)
    requires ClassifyUI(env, req, rpid) == Admitted || ClassifyUI(env, req, rpid).QuotaViolation?
    ensures var r := DispatchWithCallbackInternal(env, req, rpid, cb, live, sync);
      var ext := ResolveExtension(env, req).value;
      Balance(r.events, id) == if id == ext && req.extensionId in env.enabledAfter then 1 else 0
  {
    var ext := ResolveExtension(env, req);
    var f := NewFunction(req, env.handlers[req.name], ext, rpid);
    var v := env.assess(ext.value, f);
    var head := if v == "" then [Assessed(ext.value, req.name), NotifyActivity(ext.value, req.name), RunEvent(f, sync)]
                else [Assessed(ext.value, req.name), QuotaExceeded(req.requestId, v)];
    if v == "" {
      BalanceOfThree(head[0], head[1], head[2], id);
    }
    BalanceAppend(head, KeepaliveStep(env, req, ext), id);
  }

  /**
   * The keepalive count over a whole request: the completion of an attributed
   * request decrements once, so a request whose extension id stays enabled leaves
   * every count where it was.
   */
  lemma KeepaliveBalancedOverRequest(env: Env, req: Request, rpid: int, cb: Callback, live: set<nat>, sync: bool, id: string)
    requires ClassifyUI(env, req, rpid) == Admitted || ClassifyUI(env, req, rpid).QuotaViolation?
    requires req.extensionId in env.enabledAfter
    ensures var r := DispatchWithCallbackInternal(env, req, rpid, cb, live, sync);
      var ext := ResolveExtension(env, req);
      Balance(r.events + [KeepaliveDec(ext.value)], id) == 0
  {
    var r := DispatchWithCallbackInternal(env, req, rpid, cb, live, sync);
    var ext := ResolveExtension(env, req);
    KeepaliveIncrementedOnce(env, req, rpid, cb, live, sync, id);
    BalanceAppend(r.events, [KeepaliveDec(ext.value)], id);
  }

  /**
   * The other side of line 571: when the request's own extension id is not enabled
   * once the handler has returned (it was uninstalled meanwhile, or the caller is a
   * hosted app resolved by URL), dispatch adds no increment but the completion still
   * decrements, so the resolved extension's count ends one lower than it started.
   */
  lemma KeepaliveLostWhenIdNotEnabled(env: Env, req: Request, rpid: int, cb: Callback, live: set<nat>, sync: bool)
    requires ClassifyUI(env, req, rpid) == Admitted || ClassifyUI(env, req, rpid).QuotaViolation?
    requires req.extensionId !in env.enabledAfter
    ensures var r := DispatchWithCallbackInternal(env, req, rpid, cb, live, sync);
      var ext := ResolveExtension(env, req).value;
      Balance(r.events + [KeepaliveDec(ext)], ext) == -1
  {
    var r := DispatchWithCallbackInternal(env, req, rpid, cb, live, sync);
    var ext := ResolveExtension(env, req);
    KeepaliveIncrementedOnce(env, req, rpid, cb, live, sync, ext.value);
    BalanceAppend(r.events, [KeepaliveDec(ext.value)], ext.value);
  }

  /**
   * DispatchSync as the source writes it (line 412): the callback is default-constructed
   * and bound to nothing, so an unknown name or a denied permission makes
   * SendAccessDenied run a null callback; the slots stay untouched.
   */
  lemma SyncDenialRunsNullCallback(env: Env, req: Request, rpid: int, live: set<nat>)
    requires var o := ClassifyUI(env, req, rpid); o == UnknownFunction || o.PermissionDenied?
    ensures DispatchWithCallbackInternal(env, req, rpid, NullCallback, live, true)
            == InternalResult([NullCallbackRun], None)
  {
  }

  /**
   * An illustration of SyncDenialRunsNullCallback on one concrete input: a sync
   * request for a name no handler is registered for.
   */
  lemma SyncUnknownNameRunsNullCallback()
    ensures var env := Env(map[], true, {}, map[], {}, (f: Function) => true,
                           (id: string, f: Function) => "", (f: Function) => SyncReply(true, [], ""),
                           {}, false, {}, {});
      var req := Request("ext", "no.such.function", [], 1, false, false, "", -1, -1, 0);
      DispatchWithCallbackInternal(env, req, 7, NullCallback, {}, true).events == [NullCallbackRun]
  {
  }

  /**
   * DispatchSync with the callback `DummyCallback` evidently stands for: it makes the
   * same decision as Dispatch, with no sync-capability check; the slots are written
   * exactly when the handler runs; nothing is ever sent, killed or run through a null
   * callback, so a denied sync request is answered only by the untouched slots.
   */
  lemma SyncDispatchFollowsSameRoute(env: Env, req: Request, rpid: int, live: set<nat>)
    ensures var r := DispatchWithCallbackInternal(env, req, rpid, DummyCallback, live, true);
      var o := ClassifyUI(env, req, rpid);
      && (r.reply.Some? <==> o == Anonymous || o == Admitted)
      && (o == UnknownFunction || o.PermissionDenied? ==> r.events == [])
      && (o == Anonymous || o == Admitted ==> Count(r.events, IsRun) == 1)
      && (o.QuotaViolation? ==> Count(r.events, IsRun) == 0)
      && Count(r.events, IsTerminal) == 0
      && NullCallbackRun !in r.events
  {
    var r := DispatchWithCallbackInternal(env, req, rpid, DummyCallback, live, true);
    var o := ClassifyUI(env, req, rpid);
    var ext := ResolveExtension(env, req);
    if o == Admitted {
      AdmittedNotifiesThenRunsOnce(env, req, rpid, DummyCallback, live, true);
      var f := NewFunction(req, env.handlers[req.name], ext, rpid);
      var head := [Assessed(ext.value, req.name), NotifyActivity(ext.value, req.name), RunEvent(f, true)];
      CountOfThree(head[0], head[1], head[2], IsTerminal);
      CountAppend(head, KeepaliveStep(env, req, ext), IsTerminal);
    } else if o.QuotaViolation? {
      QuotaViolationBlocksHandler(env, req, rpid, DummyCallback, live, true);
      var head := [Assessed(ext.value, req.name), QuotaExceeded(req.requestId, o.violation)];
      CountAppend(head, KeepaliveStep(env, req, ext), IsTerminal);
    }
  }

  // ---------------------------------------------------------------------------
  // Completion

  /**
   * Running a bound callback: a tag other than BAD_MESSAGE gives exactly one response
   * and no kill; BAD_MESSAGE gives no response and at most one kill or abort (none only
   * when the origin's process handle is already invalid).
   */
  lemma CompletionIsExactlyOnce(env: Env, cb: Callback, live: set<nat>, t: ResponseType,
                                results: ListValue, error: string, histogram: int)
    requires Bound(env, cb, live)
    ensures var r := RunCallback(env, cb, live, t, results, error, histogram);
      && Count(r, IsResponse) == (if t == BadMessage then 0 else 1)
      && Count(r, IsTerminal) ==
         (if t != BadMessage || env.singleProcess || IsValid(env, OriginProcess(cb)) then 1 else 0)
      && (t == BadMessage && !env.singleProcess && IsValid(env, OriginProcess(cb)) ==>
            r == [Kill(OriginProcess(cb), histogram)])
  {
  }

  /**
   * A whole request whose callback stays bound ends in exactly one terminal event:
   * the denial produced by dispatch itself, or else the function's own completion
   * (its response, or its kill for a bad message when the origin's handle is valid);
   * dispatch itself never responds on the paths where the function will.
   */
  lemma ExactlyOneTerminalPerRequest(env: Env, req: Request, rpid: int, cb: Callback, live: set<nat>,
                                     t: ResponseType, results: ListValue, error: string, histogram: int)
    requires Bound(env, cb, live)
    requires var o := ClassifyUI(env, req, rpid); o != NoProcessMap && o != WrongThread
    requires t == BadMessage ==> env.singleProcess || IsValid(env, OriginProcess(cb))
    ensures var o := ClassifyUI(env, req, rpid);
      var dispatched := DispatchWithCallbackInternal(env, req, rpid, cb, live, false).events;
      var completed := if o == UnknownFunction || o.PermissionDenied? then []
                       else RunCallback(env, cb, live, t, results, error, histogram);
      && Count(dispatched + completed, IsTerminal) == 1
      && (o == UnknownFunction || o.PermissionDenied? || Count(dispatched, IsTerminal) == 0)
  {
    var o := ClassifyUI(env, req, rpid);
    var dispatched := DispatchWithCallbackInternal(env, req, rpid, cb, live, false).events;
    var completed := if o == UnknownFunction || o.PermissionDenied? then []
                     else RunCallback(env, cb, live, t, results, error, histogram);
    CountAppend(dispatched, completed, IsTerminal);
    CompletionIsExactlyOnce(env, cb, live, t, results, error, histogram);
    var ext := ResolveExtension(env, req);
    if o.QuotaViolation? {
      CountAppend([Assessed(ext.value, req.name), QuotaExceeded(req.requestId, o.violation)],
                  KeepaliveStep(env, req, ext), IsTerminal);
    } else if o == Admitted {
      var f := NewFunction(req, env.handlers[req.name], ext, rpid);
      CountOfThree(Assessed(ext.value, req.name), NotifyActivity(ext.value, req.name), RunEvent(f, false), IsTerminal);
      CountAppend([Assessed(ext.value, req.name), NotifyActivity(ext.value, req.name), RunEvent(f, false)],
                  KeepaliveStep(env, req, ext), IsTerminal);
    }
  }

  /**
   * An illustration of FrameWrapper.CreateCallback's contract applied twice: one
   * wrapper multiplexes many requests, and two callbacks it handed out deliver to the
   * same origin, each with its own request id and its own result.
   */
  lemma OneWrapperManyRequests(env: Env, w: FrameWrapper, live: set<nat>, id1: int, id2: int,
                               t1: ResponseType, res1: ListValue, err1: string,
                               t2: ResponseType, res2: ListValue, err2: string, histogram: int)
    requires w.id in live && t1 != BadMessage && t2 != BadMessage
    ensures RunCallback(env, w.CreateCallback(id1), live, t1, res1, err1, histogram)
            == [Send(ToFrame(w.frame), id1, t1 == Succeeded, res1, err1)]
    ensures RunCallback(env, w.CreateCallback(id2), live, t2, res2, err2, histogram)
            == [Send(ToFrame(w.frame), id2, t2 == Succeeded, res2, err2)]
  {
  }

  /** A callback of a deleted wrapper, or of a gone IO filter, does nothing at all. */
  lemma StaleCallbackIsNoOp(env: Env, cb: Callback, live: set<nat>, t: ResponseType,
                            results: ListValue, error: string, histogram: int)
    requires !cb.NullCallback? && !Bound(env, cb, live)
    ensures RunCallback(env, cb, live, t, results, error, histogram) == []
  {
  }

  // ---------------------------------------------------------------------------
  // Registry clean-up

  /** Erasing a process's worker entries twice (process exit, then host destroyed) is erasing them once. */
  lemma RemoveWorkerCallbacksIdempotent(m: map<WorkerKey, WorkerWrapper>, p: int)
    ensures WithoutProcess(WithoutProcess(m, p), p) == WithoutProcess(m, p)
  {
  }

  /** Erasing two processes' entries does not depend on the order. */
  lemma RemoveWorkerCallbacksCommute(m: map<WorkerKey, WorkerWrapper>, p: int, q: int)
    ensures WithoutProcess(WithoutProcess(m, p), q) == WithoutProcess(WithoutProcess(m, q), p)
  {
  }
}
