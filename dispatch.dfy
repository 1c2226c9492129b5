/**
 * The dispatch algorithm shared by the UI-thread entry points (Dispatch and
 * DispatchSync) and by DispatchOnIOThread: resolve the caller, create the handler,
 * check permission, assess quota, run the handler, adjust the keepalive count.
 */
module Dispatch {
  import opened Types
  import opened Responses

  /** The fixed set of outcomes one dispatch can have. */
  datatype Outcome =
    | NoProcessMap                       // no process map for the browser context
    | UnknownFunction                    // the registry has no handler for the name
    | WrongThread                        // the handler is not of the kind this path runs
    | PermissionDenied(histogram: int)   // HasPermission() is false
    | Anonymous                          // no extension resolved: run, no quota
    | QuotaViolation(violation: string)  // Assess returned a non-empty message
    | Admitted                           // Assess returned "": notify and run

  /** The extension a UI-thread request is attributed to: by id, then as a hosted app by URL. */
  function ResolveExtension(env: Env, req: Request): (r: Option<string>)
    ensures req.extensionId in env.enabled ==> r == Some(req.extensionId)
    ensures req.extensionId !in env.enabled ==>
      (r.Some? <==> req.sourceUrl in env.hostedApps) &&
      (r.Some? ==> r.value == env.hostedApps[req.sourceUrl])
  {
    if req.extensionId in env.enabled then Some(req.extensionId)
    else if req.sourceUrl in env.hostedApps then Some(env.hostedApps[req.sourceUrl])
    else None
  }

  /** A function object reflecting the request, as CreateExtensionFunction sets it up. */
  function NewFunction(req: Request, h: Handler, extension: Option<string>,
                       requestingProcessId: int): Function
  {
    Function(req.name, h.histogram, h.thread, req.args, req.sourceUrl, req.requestId,
             req.hasCallback, req.userGesture, extension, req.sourceTabId, requestingProcessId)
  }

  /** SendAccessDenied: run the callback once with FAILED, no results and the fixed error. */
  function SendAccessDenied(env: Env, cb: Callback, live: set<nat>, histogram: int): (r: seq<Event>)
    ensures cb.NullCallback? ==> r == [NullCallbackRun]
    ensures cb.DummyCallback? ==> r == []
    ensures HasOrigin(cb) && !Bound(env, cb, live) ==> r == []
    ensures Bound(env, cb, live) ==> r == [Send(TargetOf(cb), cb.requestId, false, [], ACCESS_DENIED)]
  {
    RunCallback(env, cb, live, Failed, [], ACCESS_DENIED, histogram)
  }

  /**
   * CreateExtensionFunction: for a name the registry does not know, no function and an
   * access-denied response tagged UNKNOWN; otherwise a function carrying the request's
   * name, arguments, request id, source and caller, and no effect.
   */
  function CreateExtensionFunction(env: Env, req: Request, extension: Option<string>,
                                   requestingProcessId: int, cb: Callback,
                                   live: set<nat>): (r: (Option<Function>, seq<Event>))
    ensures req.name !in env.handlers ==>
      r.0.None? && r.1 == SendAccessDenied(env, cb, live, UNKNOWN_HISTOGRAM)
    ensures req.name in env.handlers ==> r.1 == [] && r.0.Some?
    ensures r.0.Some? ==>
      var f := r.0.value;
      && f.name == req.name && f.args == req.args && f.requestId == req.requestId
      && f.sourceUrl == req.sourceUrl && f.extension == extension
      && f.hasCallback == req.hasCallback && f.userGesture == req.userGesture
      && f.sourceTabId == req.sourceTabId
      && f.sourceProcessId == requestingProcessId
      && f.histogram == env.handlers[req.name].histogram
      && f.thread == env.handlers[req.name].thread
  {
    if req.name !in env.handlers then (None, SendAccessDenied(env, cb, live, UNKNOWN_HISTOGRAM))
    else (Some(NewFunction(req, env.handlers[req.name], extension, requestingProcessId)), [])
  }

  /** CheckPermissions: false exactly when HasPermission() is, with an access-denied response. */
  function CheckPermissions(env: Env, f: Function, cb: Callback, live: set<nat>): (r: (bool, seq<Event>))
    ensures r.0 == env.hasPermission(f)
    ensures r.0 ==> r.1 == []
    ensures !r.0 ==> r.1 == SendAccessDenied(env, cb, live, f.histogram)
  {
    if !env.hasPermission(f) then (false, SendAccessDenied(env, cb, live, f.histogram))
    else (true, [])
  }

  /** Running the handler: Execute() asynchronously, RunNWSync in sync mode. */
  function RunEvent(f: Function, sync: bool): Event
  {
    if sync then RanSync(f.requestId, f.name) else Executed(f.requestId, f.name)
  }

  /** What the sync output slots receive when the handler runs. */
  function SyncSlots(env: Env, f: Function, sync: bool): Option<SyncReply>
  {
    if sync then Some(env.runSync(f)) else None
  }

  /** Lines 570-580: increment once for the resolved extension if the request's id is still enabled. */
  function KeepaliveStep(env: Env, req: Request, extension: Option<string>): (r: seq<Event>)
    requires extension.Some?
    ensures |r| <= 1 && forall e <- r :: e == KeepaliveInc(extension.value)
    ensures |r| == 1 <==> req.extensionId in env.enabledAfter
  {
    if req.extensionId in env.enabledAfter then [KeepaliveInc(extension.value)] else []
  }

  /** The outcome of a UI-thread dispatch, as a flat decision table. */
  function ClassifyUI(env: Env, req: Request, requestingProcessId: int): (o: Outcome)
    ensures o == NoProcessMap <==> !env.hasProcessMap
    ensures o == UnknownFunction <==> env.hasProcessMap && req.name !in env.handlers
    ensures o == WrongThread <==>
      env.hasProcessMap && req.name in env.handlers && env.handlers[req.name].thread != UIThread
    ensures o.PermissionDenied? <==>
      && env.hasProcessMap && req.name in env.handlers && env.handlers[req.name].thread == UIThread
      && !env.hasPermission(NewFunction(req, env.handlers[req.name], ResolveExtension(env, req), requestingProcessId))
    ensures o.PermissionDenied? ==> req.name in env.handlers && o.histogram == env.handlers[req.name].histogram
    ensures o == Anonymous || o.PermissionDenied? || o.QuotaViolation? || o == Admitted ==>
      req.name in env.handlers && env.handlers[req.name].thread == UIThread
    ensures o == Anonymous <==> o != NoProcessMap && o != UnknownFunction && o != WrongThread
                                && !o.PermissionDenied? && ResolveExtension(env, req).None?
    ensures o.QuotaViolation? ==> o.violation != "" && ResolveExtension(env, req).Some?
    ensures o.QuotaViolation? ==>
      var ext := ResolveExtension(env, req);
      o.violation == env.assess(ext.value, NewFunction(req, env.handlers[req.name], ext, requestingProcessId))
    ensures o == Admitted ==> ResolveExtension(env, req).Some?
    ensures o == Admitted ==>
      var ext := ResolveExtension(env, req);
      env.assess(ext.value, NewFunction(req, env.handlers[req.name], ext, requestingProcessId)) == ""
  {
    if !env.hasProcessMap then NoProcessMap
    else if req.name !in env.handlers then UnknownFunction
    else
      var h := env.handlers[req.name];
      var ext := ResolveExtension(env, req);
      var f := NewFunction(req, h, ext, requestingProcessId);
      if h.thread != UIThread then WrongThread
      else if !env.hasPermission(f) then PermissionDenied(h.histogram)
      else if ext.None? then Anonymous
      else if env.assess(ext.value, f) != "" then QuotaViolation(env.assess(ext.value, f))
      else Admitted
  }

  /** The outcome of an IO-thread dispatch: no process-map check, no hosted-app lookup. */
  function ClassifyIO(env: Env, req: Request, requestingProcessId: int): (o: Outcome)
    ensures o != NoProcessMap
    ensures o == UnknownFunction <==> req.name !in env.handlers
    ensures o == WrongThread <==> req.name in env.handlers && env.handlers[req.name].thread != IOThread
    ensures o.PermissionDenied? <==>
      var ext := if req.extensionId in env.ioExtensions then Some(req.extensionId) else None;
      && req.name in env.handlers && env.handlers[req.name].thread == IOThread
      && !env.hasPermission(NewFunction(req, env.handlers[req.name], ext, requestingProcessId))
    ensures o == Anonymous <==>
      && req.name in env.handlers && env.handlers[req.name].thread == IOThread
      && env.hasPermission(NewFunction(req, env.handlers[req.name], None, requestingProcessId))
      && req.extensionId !in env.ioExtensions
    ensures o.PermissionDenied? ==> req.name in env.handlers && o.histogram == env.handlers[req.name].histogram
    ensures o == Anonymous || o.PermissionDenied? || o.QuotaViolation? || o == Admitted ==>
      req.name in env.handlers && env.handlers[req.name].thread == IOThread
    ensures o.QuotaViolation? ==> o.violation != "" && req.extensionId in env.ioExtensions
    ensures o.QuotaViolation? ==>
      o.violation == env.assess(req.extensionId,
                                NewFunction(req, env.handlers[req.name], Some(req.extensionId), requestingProcessId))
    ensures o == Admitted ==> req.extensionId in env.ioExtensions
    ensures o == Admitted ==>
      env.assess(req.extensionId,
                 NewFunction(req, env.handlers[req.name], Some(req.extensionId), requestingProcessId)) == ""
  {
    if req.name !in env.handlers then UnknownFunction
    else
      var h := env.handlers[req.name];
      var ext := if req.extensionId in env.ioExtensions then Some(req.extensionId) else None;
      var f := NewFunction(req, h, ext, requestingProcessId);
      if h.thread != IOThread then WrongThread
      else if !env.hasPermission(f) then PermissionDenied(h.histogram)
      else if ext.None? then Anonymous
      else if env.assess(ext.value, f) != "" then QuotaViolation(env.assess(ext.value, f))
      else Admitted
  }

  /** The effects of a UI-thread dispatch and what it wrote into the sync output slots. */
  datatype InternalResult = InternalResult(events: seq<Event>, reply: Option<SyncReply>)

  /**
   * DispatchWithCallbackInternal. `live` is the set of wrappers not yet deleted when
   * the request arrives. Each outcome of ClassifyUI has exactly the effects below.
   */
  function DispatchWithCallbackInternal(env: Env, req: Request, requestingProcessId: int,
                                        cb: Callback, live: set<nat>, sync: bool): (r: InternalResult)
    ensures ClassifyUI(env, req, requestingProcessId) in {NoProcessMap, WrongThread} ==>
      r == InternalResult([], None)
    ensures ClassifyUI(env, req, requestingProcessId) == UnknownFunction ==>
      r == InternalResult(SendAccessDenied(env, cb, live, UNKNOWN_HISTOGRAM), None)
    ensures ClassifyUI(env, req, requestingProcessId).PermissionDenied? ==>
      r == InternalResult(SendAccessDenied(env, cb, live, env.handlers[req.name].histogram), None)
    ensures ClassifyUI(env, req, requestingProcessId) == Anonymous ==>
      var f := NewFunction(req, env.handlers[req.name], None, requestingProcessId);
      r == InternalResult([RunEvent(f, sync)], SyncSlots(env, f, sync))
    ensures ClassifyUI(env, req, requestingProcessId).QuotaViolation? ==>
      var ext := ResolveExtension(env, req);
      r == InternalResult([Assessed(ext.value, req.name),
                           QuotaExceeded(req.requestId, ClassifyUI(env, req, requestingProcessId).violation)]
                          + KeepaliveStep(env, req, ext), None)
    ensures ClassifyUI(env, req, requestingProcessId) == Admitted ==>
      var ext := ResolveExtension(env, req);
      var f := NewFunction(req, env.handlers[req.name], ext, requestingProcessId);
      r == InternalResult([Assessed(ext.value, req.name), NotifyActivity(ext.value, req.name), RunEvent(f, sync)]
                          + KeepaliveStep(env, req, ext), SyncSlots(env, f, sync))
  {
    if !env.hasProcessMap then InternalResult([], None)
    else
      var extension := ResolveExtension(env, req);
      var (created, createEvents) := CreateExtensionFunction(env, req, extension, requestingProcessId, cb, live);
      if created.None? then InternalResult(createEvents, None)
      else
        var f := created.value;
        if f.thread != UIThread then InternalResult([], None)
        else
          var (permitted, denied) := CheckPermissions(env, f, cb, live);
          if !permitted then InternalResult(denied, None)
          else if extension.None? then InternalResult([RunEvent(f, sync)], SyncSlots(env, f, sync))
          else
            var violation := env.assess(extension.value, f);
            var ran :=
              if violation == "" then
                InternalResult([Assessed(extension.value, req.name), NotifyActivity(extension.value, req.name),
                                RunEvent(f, sync)], SyncSlots(env, f, sync))
              else
                InternalResult([Assessed(extension.value, req.name), QuotaExceeded(req.requestId, violation)], None);
            InternalResult(ran.events + KeepaliveStep(env, req, extension), ran.reply)
  }

  /**
   * DispatchOnIOThread: the same algorithm behind an IO-filter callback, for
   * IO-thread functions, with neither a sync mode nor a keepalive count.
   */
  function DispatchOnIOThread(env: Env, req: Request, renderProcessId: int,
                              sender: IOSender, routingId: int): (r: seq<Event>)
    ensures ClassifyIO(env, req, renderProcessId) == WrongThread ==> r == []
    ensures ClassifyIO(env, req, renderProcessId) == UnknownFunction ==>
      r == SendAccessDenied(env, IOCallback(sender, routingId, req.requestId), {}, UNKNOWN_HISTOGRAM)
    ensures ClassifyIO(env, req, renderProcessId).PermissionDenied? ==>
      r == SendAccessDenied(env, IOCallback(sender, routingId, req.requestId), {}, env.handlers[req.name].histogram)
    ensures ClassifyIO(env, req, renderProcessId) == Anonymous ==>
      r == [Executed(req.requestId, req.name)]
    ensures ClassifyIO(env, req, renderProcessId).QuotaViolation? ==>
      r == [Assessed(req.extensionId, req.name),
            QuotaExceeded(req.requestId, ClassifyIO(env, req, renderProcessId).violation)]
    ensures ClassifyIO(env, req, renderProcessId) == Admitted ==>
      r == [Assessed(req.extensionId, req.name), NotifyActivity(req.extensionId, req.name),
            Executed(req.requestId, req.name)]
  {
    var extension := if req.extensionId in env.ioExtensions then Some(req.extensionId) else None;
    var cb := IOCallback(sender, routingId, req.requestId);
    var (created, createEvents) := CreateExtensionFunction(env, req, extension, renderProcessId, cb, {});
    if created.None? then createEvents
    else
      var f := created.value;
      if f.thread != IOThread then []
      else
        var (permitted, denied) := CheckPermissions(env, f, cb, {});
        if !permitted then denied
        else if extension.None? then [RunEvent(f, false)]
        else
          var violation := env.assess(extension.value, f);
          if violation == "" then
            [Assessed(extension.value, req.name), NotifyActivity(extension.value, req.name), RunEvent(f, false)]
          else
            [Assessed(extension.value, req.name), QuotaExceeded(req.requestId, violation)]
  }
}
