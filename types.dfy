/**
 * Values exchanged between the extension function dispatcher, the handlers it runs
 * and the collaborators it consults (handler registry, permission check, quota
 * service, extension registry, process and IPC layer).
 */
module Types {

  datatype Option<+T> = None | Some(value: T)

  /** An opaque serialized argument or result list (base::ListValue). */
  type ListValue = seq<string>

  /** ExtensionFunction::ResponseType. */
  datatype ResponseType = Succeeded | Failed | BadMessage

  /** functions::UNKNOWN, the histogram value reported for a name with no handler. */
  const UNKNOWN_HISTOGRAM: int := 0

  /** The fixed error text of every access-denied response. */
  const ACCESS_DENIED: string := "Access to extension API denied."

  /** ExtensionHostMsg_Request_Params: one named-function invocation from a renderer. */
  datatype Request = Request(
    extensionId: string,
    name: string,
    args: ListValue,
    requestId: int,
    hasCallback: bool,
    userGesture: bool,
    sourceUrl: string,
    sourceTabId: int,
    embeddedWorkerId: int,   // -1 when the request does not come from a service worker
    workerThreadId: int)

  /** A render frame host, identified by its process and its routing id. */
  datatype Frame = Frame(processId: int, routingId: int)

  /** WorkerResponseCallbackMapKey: the key of the worker wrapper registry. */
  datatype WorkerKey = WorkerKey(renderProcessId: int, embeddedWorkerId: int)

  /**
   * WorkerResponseCallbackMapKey::operator<: std::tie comparison, that is,
   * lexicographic on (renderProcessId, embeddedWorkerId).
   */
  predicate KeyLess(a: WorkerKey, b: WorkerKey): (r: bool)
    ensures a.renderProcessId < b.renderProcessId ==> r
    ensures a.renderProcessId > b.renderProcessId ==> !r
    ensures a.renderProcessId == b.renderProcessId ==> (r <==> a.embeddedWorkerId < b.embeddedWorkerId)
  {
    a.renderProcessId < b.renderProcessId
    || (a.renderProcessId == b.renderProcessId && a.embeddedWorkerId < b.embeddedWorkerId)
  }

  /** Which kind of ExtensionFunction a factory produces. */
  datatype ThreadKind = UIThread | IOThread

  /** What the handler registry knows about a name: its histogram value and its kind. */
  datatype Handler = Handler(histogram: int, thread: ThreadKind)

  /** An ExtensionFunction once CreateExtensionFunction has set it up. */
  datatype Function = Function(
    name: string,
    histogram: int,
    thread: ThreadKind,
    args: ListValue,
    sourceUrl: string,
    requestId: int,
    hasCallback: bool,
    userGesture: bool,
    extension: Option<string>,
    sourceTabId: int,
    sourceProcessId: int)

  /** What RunNWSync writes into the caller's output slots. */
  datatype SyncReply = SyncReply(success: bool, response: ListValue, error: string)

  /** A base::Process: the browser's own, or the one behind a renderer's handle. */
  datatype Process = CurrentProcess | Peer(pid: int)

  /** The IPC endpoint a response is addressed to. */
  datatype Target =
    | ToFrame(frame: Frame)                              // ExtensionMsg_Response via the frame
    | ToWorker(processId: int, workerThreadId: int)      // ExtensionMsg_ResponseWorker
    | ToIOFilter(sender: nat, routingId: int)            // ExtensionMsg_Response via the IO filter

  /** An IOThreadExtensionMessageFilter, with the process at its other end. */
  datatype IOSender = IOSender(id: nat, peerProcess: int)

  /** The observable effects of dispatching and completing requests. */
  datatype Event =
    | Send(to: Target, requestId: int, succeeded: bool, results: ListValue, error: string)
    | Kill(process: Process, histogram: int)   // Terminate(RESULT_CODE_KILLED_BAD_MESSAGE)
    | AbortHost                                // CHECK(false) in single-process mode
    | NullCallbackRun                          // a null base::Callback was run: a crash
    | Assessed(extensionId: string, name: string)
    | NotifyActivity(extensionId: string, name: string)
    | Executed(requestId: int, name: string)   // RunWithValidation()->Execute()
    | RanSync(requestId: int, name: string)    // RunNWSync, then did_respond_ = true
    | QuotaExceeded(requestId: int, violation: string)
    | KeepaliveInc(extensionId: string)
    | KeepaliveDec(extensionId: string)

  /**
   * The collaborators, as seen by one call. Permission and quota are uninterpreted
   * functions; what a handler does to the extension registry while it runs is the set
   * `enabledAfter` of extensions still enabled when it returns.
   */
  datatype Env = Env(
    handlers: map<string, Handler>,          // ExtensionFunctionRegistry
    hasProcessMap: bool,                     // ProcessMap::Get(...) != null
    enabled: set<string>,                    // enabled_extensions() by id
    hostedApps: map<string, string>,         // GetHostedAppByURL, URL -> enabled app id
    ioExtensions: set<string>,               // extension_info_map->extensions()
    hasPermission: Function -> bool,         // ExtensionFunction::HasPermission
    assess: (string, Function) -> string,    // QuotaService::Assess ("" when admitted)
    runSync: Function -> SyncReply,          // ExtensionFunction::RunNWSync
    enabledAfter: set<string>,               // enabled_extensions() once the handler returned
    singleProcess: bool,                     // RenderProcessHost::run_renderer_in_process()
    liveProcesses: set<int>,                 // processes whose handle is valid
    liveSenders: set<nat>)                   // IO filters whose weak pointer is valid
}
