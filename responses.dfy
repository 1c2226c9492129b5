/**
 * Response routing: the per-origin callback wrappers, the callbacks they hand out
 * (bound through weak pointers), and what running such a callback does once a
 * handler has produced its response tag.
 */
module Responses {
  import opened Types

  /** base::Process::IsValid: the browser's own process always is. */
  predicate IsValid(env: Env, p: Process)
  {
    p.CurrentProcess? || p.pid in env.liveProcesses
  }

  /**
   * KillBadMessageSender: in single-process mode the host aborts; otherwise the
   * sender is terminated, provided its handle still refers to a process.
   */
  function KillBadMessageSender(env: Env, process: Process, histogram: int): (r: seq<Event>)
    ensures env.singleProcess ==> r == [AbortHost]
    ensures !env.singleProcess && IsValid(env, process) ==> r == [Kill(process, histogram)]
    ensures !env.singleProcess && !IsValid(env, process) ==> r == []
    ensures forall e <- r :: !e.Send?
  {
    if env.singleProcess then [AbortHost]
    else if IsValid(env, process) then [Kill(process, histogram)]
    else []
  }

  /** KillBadMessageSenderRPH: the process behind a render process host. */
  function KillBadMessageSenderRPH(env: Env, processId: int, histogram: int): (r: seq<Event>)
    ensures env.singleProcess ==> r == [AbortHost]
    ensures !env.singleProcess ==> r == KillBadMessageSender(env, Peer(processId), histogram)
  {
    KillBadMessageSender(env, if env.singleProcess then CurrentProcess else Peer(processId), histogram)
  }

  /**
   * CommonResponseCallback: a BAD_MESSAGE tag turns into a kill and nothing is sent;
   * any other tag sends exactly one response that echoes the request id, reports
   * success exactly for SUCCEEDED and carries results and error unchanged.
   */
  function CommonResponseCallback(env: Env, to: Target, process: Process, requestId: int,
                                  t: ResponseType, results: ListValue, error: string,
                                  histogram: int): (r: seq<Event>)
    ensures t == BadMessage ==> r == KillBadMessageSender(env, process, histogram)
    ensures t == BadMessage ==> forall e <- r :: !e.Send?
    ensures t != BadMessage ==> r == [Send(to, requestId, t == Succeeded, results, error)]
  {
    if t == BadMessage then KillBadMessageSender(env, process, histogram)
    else [Send(to, requestId, t == Succeeded, results, error)]
  }

  /** IOThreadResponseCallback: nothing at all once the IO filter is gone. */
  function IOThreadResponseCallback(env: Env, sender: IOSender, routingId: int, requestId: int,
                                    t: ResponseType, results: ListValue, error: string,
                                    histogram: int): (r: seq<Event>)
    ensures sender.id !in env.liveSenders ==> r == []
    ensures sender.id in env.liveSenders ==>
      r == CommonResponseCallback(env, ToIOFilter(sender.id, routingId), Peer(sender.peerProcess),
                                  requestId, t, results, error, histogram)
  {
    if sender.id !in env.liveSenders then []
    else CommonResponseCallback(env, ToIOFilter(sender.id, routingId), Peer(sender.peerProcess),
                                requestId, t, results, error, histogram)
  }

  /** UIThreadResponseCallbackWrapper: `id` stands for the wrapper's identity. */
  datatype FrameWrapper = FrameWrapper(id: nat, frame: Frame)
  {
    /**
     * CreateCallback: a callback bound weakly to this wrapper and to one request. While
     * the wrapper lives it answers that request at this frame; once deleted, nothing.
     */
    function CreateCallback(requestId: int): (cb: Callback)
      ensures forall env, live, t, results, error, histogram | this.id in live && t != BadMessage ::
        RunCallback(env, cb, live, t, results, error, histogram)
          == [Send(ToFrame(frame), requestId, t == Succeeded, results, error)]
      ensures forall env, live, t, results, error, histogram | this.id !in live ::
        RunCallback(env, cb, live, t, results, error, histogram) == []
    {
      FrameCallback(this, requestId)
    }

    /**
     * OnExtensionFunctionCompleted: the response goes to this frame; a bad message
     * kills the frame's process (or the browser's, in single-process mode).
     */
    function OnExtensionFunctionCompleted(env: Env, requestId: int, t: ResponseType,
                                          results: ListValue, error: string,
                                          histogram: int): (r: seq<Event>)
      ensures t != BadMessage ==> r == [Send(ToFrame(frame), requestId, t == Succeeded, results, error)]
      ensures t == BadMessage && env.singleProcess ==> r == [AbortHost]
      ensures t == BadMessage && !env.singleProcess ==>
        r == KillBadMessageSender(env, Peer(frame.processId), histogram)
    {
      var process := if env.singleProcess then CurrentProcess else Peer(frame.processId);
      CommonResponseCallback(env, ToFrame(frame), process, requestId, t, results, error, histogram)
    }
  }

  /**
   * UIThreadWorkerResponseCallbackWrapper: the worker thread id is the one of the
   * request that created the wrapper.
   */
  datatype WorkerWrapper = WorkerWrapper(id: nat, processId: int, workerThreadId: int)
  {
    /**
     * CreateCallback: a callback bound weakly to this wrapper and to one request. While
     * the wrapper lives it answers that request at this worker thread; once deleted,
     * nothing.
     */
    function CreateCallback(requestId: int): (cb: Callback)
      ensures forall env, live, t, results, error, histogram | this.id in live && t != BadMessage ::
        RunCallback(env, cb, live, t, results, error, histogram)
          == [Send(ToWorker(processId, workerThreadId), requestId, t == Succeeded, results, error)]
      ensures forall env, live, t, results, error, histogram | this.id !in live ::
        RunCallback(env, cb, live, t, results, error, histogram) == []
    {
      WorkerCallback(this, requestId)
    }

    /** OnExtensionFunctionCompleted: as for frames, addressed to the worker thread. */
    function OnExtensionFunctionCompleted(env: Env, requestId: int, t: ResponseType,
                                          results: ListValue, error: string,
                                          histogram: int): (r: seq<Event>)
      ensures t != BadMessage ==>
        r == [Send(ToWorker(processId, workerThreadId), requestId, t == Succeeded, results, error)]
      ensures t == BadMessage ==> r == KillBadMessageSenderRPH(env, processId, histogram)
    {
      if t == BadMessage then KillBadMessageSenderRPH(env, processId, histogram)
      else [Send(ToWorker(processId, workerThreadId), requestId, t == Succeeded, results, error)]
    }
  }

  /** An ExtensionFunction::ResponseCallback. */
  datatype Callback =
    | FrameCallback(frameWrapper: FrameWrapper, requestId: int)
    | WorkerCallback(workerWrapper: WorkerWrapper, requestId: int)
    | IOCallback(sender: IOSender, routingId: int, requestId: int)
    | NullCallback     // a default-constructed base::Callback, bound to nothing
    | DummyCallback    // a callback bound to DummyCallback, which ignores its response

  /** Whether the weak pointer a callback is bound through is still valid. */
  predicate Bound(env: Env, cb: Callback, live: set<nat>)
  {
    match cb
    case FrameCallback(w, _) => w.id in live
    case WorkerCallback(w, _) => w.id in live
    case IOCallback(s, _, _) => s.id in env.liveSenders
    case NullCallback => false
    case DummyCallback => false
  }

  /** Whether a callback answers an origin (a frame, a worker thread or an IO filter). */
  predicate HasOrigin(cb: Callback)
  {
    cb.FrameCallback? || cb.WorkerCallback? || cb.IOCallback?
  }

  /** Where a bound callback sends its response. */
  function TargetOf(cb: Callback): Target
    requires HasOrigin(cb)
  {
    match cb
    case FrameCallback(w, _) => ToFrame(w.frame)
    case WorkerCallback(w, _) => ToWorker(w.processId, w.workerThreadId)
    case IOCallback(s, routingId, _) => ToIOFilter(s.id, routingId)
  }

  /** The process a bound callback kills on a bad message, outside single-process mode. */
  function OriginProcess(cb: Callback): Process
    requires HasOrigin(cb)
  {
    match cb
    case FrameCallback(w, _) => Peer(w.frame.processId)
    case WorkerCallback(w, _) => Peer(w.processId)
    case IOCallback(s, _, _) => Peer(s.peerProcess)
  }

  /**
   * Running a response callback. `live` is the set of wrappers not yet deleted.
   * A callback whose wrapper or IO filter is gone does nothing; a bound one sends
   * exactly one response to its own origin with its own request id, or, for a bad
   * message, kills the origin's process and sends nothing. Running the null callback
   * is a call through no function at all, which the browser does not survive; it is
   * logged as NullCallbackRun. The dummy callback does nothing.
   */
  function RunCallback(env: Env, cb: Callback, live: set<nat>, t: ResponseType,
                       results: ListValue, error: string, histogram: int): (r: seq<Event>)
    ensures cb.NullCallback? ==> r == [NullCallbackRun]
    ensures cb.DummyCallback? ==> r == []
    ensures HasOrigin(cb) && !Bound(env, cb, live) ==> r == []
    ensures Bound(env, cb, live) && t != BadMessage ==>
      r == [Send(TargetOf(cb), cb.requestId, t == Succeeded, results, error)]
    ensures Bound(env, cb, live) && t == BadMessage ==>
      r == KillBadMessageSender(env, OriginProcess(cb), histogram)
  {
    match cb
    case FrameCallback(w, requestId) =>
      if w.id in live then w.OnExtensionFunctionCompleted(env, requestId, t, results, error, histogram)
      else []
    case WorkerCallback(w, requestId) =>
      if w.id in live then w.OnExtensionFunctionCompleted(env, requestId, t, results, error, histogram)
      else []
    case IOCallback(s, routingId, requestId) =>
      IOThreadResponseCallback(env, s, routingId, requestId, t, results, error, histogram)
    case NullCallback => [NullCallbackRun]
    case DummyCallback => []
  }
}
