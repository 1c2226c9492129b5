# Extension function dispatcher, modelled in Dafny

This project models the extension API request dispatcher of the browser's extensions
layer (`ExtensionFunctionDispatcher`). A renderer, frame or service worker asks for a
named API function to run. The dispatcher decides which of a fixed set of outcomes
happens:

- unknown function: access denied;
- permission denied: access denied;
- no owning extension: the handler runs with no quota check;
- quota violation: `OnQuotaExceeded` is called and the handler does not run;
- admitted: the activity monitor is notified, the handler runs, and the lazy keepalive
  count goes up.

When the handler completes, its response callback either sends one response to the
origin or, for `BAD_MESSAGE`, kills the sending process. The dispatcher keeps two
registries of per-origin callback wrappers. One is keyed by frame. The other is keyed
by `(render process id, embedded worker id)`. Callbacks are bound to their wrapper
through a weak pointer, so once the wrapper is erased they do nothing.

Files:

- `types.dfy` (module `Types`): requests, frames, worker keys and their order,
  handlers, function objects, events, and the collaborators (`Env`).
- `responses.dfy` (module `Responses`): the kill policy, the response callbacks, the
  two wrapper kinds and what running a callback does.
- `dispatch.dfy` (module `Dispatch`): the shared dispatch algorithm
  (`DispatchWithCallbackInternal`, `DispatchOnIOThread` and their helpers). It also
  holds the flat decision tables `ClassifyUI` and `ClassifyIO` that these are proved
  against.
- `registry.dfy` (module `Registry`): the `Dispatcher` class. It holds the two wrapper
  maps and the event log, and has the entry points that change them.
- `properties.dfy` (module `Properties`): event counting, keepalive balance, and the
  lemmas that state the routing rules, exactly-once delivery and registry clean-up.

How the model is built:

- Every observable effect is an `Event` appended to `Dispatcher.log`: a response
  (`Send`), a process kill (`Kill`), the host aborting (`AbortHost`), a quota
  assessment, an activity notification, a handler run, a quota-exceeded call, or a
  keepalive increment or decrement. The keepalive count is not stored. It is the
  balance of increments and decrements in the log (`Properties.Balance`).
- The collaborators are inputs, gathered in one `Env` value per call:
  - the handler registry (a map from name to handler);
  - `HasPermission` and `QuotaService::Assess` (uninterpreted functions);
  - `RunNWSync`;
  - the enabled-extension set, hosted apps by URL, and the set still enabled once the
    handler has returned (line 571 reads it then);
  - single-process mode, and which process handles and IO filters are still valid.
- A wrapper is a value with an identity `id`. Identities come from a counter and are
  never reused. A weak pointer to a wrapper is valid when its identity is in
  `Dispatcher.Live()`, the set of wrappers the registries still hold.
- A handler's response is always logged after the dispatch's own events:
  `Dispatcher.Complete` models the handler running its response callback once
  dispatch has returned. In the source some handlers respond inline, during
  `Execute()` or `OnQuotaExceeded` (see "## Left out").

Two behaviours of the code are kept:

- The keepalive increment (line 580) happens after the quota-exceeded branch too. Its
  only conditions are that an extension was resolved and that the request's
  extension id is still enabled (line 571).
- Sync dispatch runs the same algorithm in sync mode, with no sync-capability check.
  When the handler runs, `RunNWSync`'s result is written into the output slots.
- Sync dispatch's callback:
  - The source passes a default-constructed callback (line 412), which is bound to
    nothing. On the two denial paths `SendAccessDenied` runs it (line 674), which is a
    call through a null callback.
  - That as-written behaviour is kept as `DispatchWithCallbackInternal(…, NullCallback,
    …, true)`, with the event `NullCallbackRun` (see
    `Properties.SyncDenialRunsNullCallback` and "## Findings").
  - `Dispatcher.DispatchSync` is the corrected version. It uses a callback bound to
    `DummyCallback` (lines 106-111), which ignores its response.

Two consequences of the code are worth stating:

- Some requests get no answer at all. Without a process map (lines 474-475), or for a
  function that is not a UI-thread function (lines 496-499), dispatch returns with no
  response and no kill, even when the callback is bound. Likewise a `BAD_MESSAGE`
  completion whose origin process handle is no longer valid terminates nothing (lines
  92-93), outside single-process mode.
- Line 571 checks the request's own extension id, not the id of the extension the
  request was resolved to. When that id is no longer enabled after the handler
  returns, there is no increment, but the completion still decrements the resolved
  extension's count. So over the whole request the count ends one lower. This happens
  when the extension was uninstalled meanwhile, or when the caller is a hosted app
  found by URL.
- A worker wrapper keeps the worker thread id of the request that created it (lines
  447-451). The registry key (lines 291-297) has no thread id. So a later request from
  the same (render process, embedded worker) on a different worker thread is answered
  at the first request's thread id. The model does the same
  (`Registry.Dispatcher.FindOrCreateWorkerWrapper`). No contract claims a worker
  response reaches the request's own thread.

## Model

| member | source | states |
|---|---|---|
| `Types.KeyLess` | extensions/browser/extension_function_dispatcher.cc:291-294 | lexicographic on (render process id, embedded worker id), as `std::tie`: the process id decides, and the embedded worker id breaks ties |
| `Properties.KeyLessIsStrictTotalOrder` | extensions/browser/extension_function_dispatcher.cc:291-294 | the worker-key order is irreflexive, asymmetric, transitive and total, and two keys are equivalent under it exactly when they are equal |
| `Responses.KillBadMessageSender` | extensions/browser/extension_function_dispatcher.cc:75-94 | single-process mode aborts the host; otherwise the given process is terminated exactly when its handle is valid; nothing is ever sent |
| `Responses.KillBadMessageSenderRPH` | extensions/browser/extension_function_dispatcher.cc:96-104 | the kill is aimed at the render process host's process, or aborts the host in single-process mode |
| `Responses.CommonResponseCallback` | extensions/browser/extension_function_dispatcher.cc:113-131 | `BAD_MESSAGE` becomes a kill with no response; any other tag becomes exactly one response with the same request id, success exactly for `SUCCEEDED`, and results and error unchanged |
| `Responses.IOThreadResponseCallback` | extensions/browser/extension_function_dispatcher.cc:133-148 | nothing happens once the IO filter is gone; otherwise the common routing applies, addressed to the filter and its routing id |
| `Responses.FrameWrapper.CreateCallback` | extensions/browser/extension_function_dispatcher.cc:182-187 | while the wrapper lives, the callback answers its own request id at the wrapper's frame; once the wrapper is deleted it does nothing |
| `Responses.FrameWrapper.OnExtensionFunctionCompleted` | extensions/browser/extension_function_dispatcher.cc:190-204 | the response goes to the frame; a bad message kills the frame's process, or aborts the host in single-process mode |
| `Responses.WorkerWrapper.CreateCallback` | extensions/browser/extension_function_dispatcher.cc:244-248 | while the wrapper lives, the callback answers its own request id at the wrapper's worker thread; once deleted it does nothing |
| `Responses.WorkerWrapper.OnExtensionFunctionCompleted` | extensions/browser/extension_function_dispatcher.cc:258-273 | a bad message kills the worker's process with no response; otherwise exactly one worker response to (process, worker thread) |
| `Responses.RunCallback` | extensions/browser/extension_function_dispatcher.cc:141-142 | a callback whose wrapper or IO filter is gone does nothing; a bound one sends exactly one response to its own origin with its own request id, or performs the kill policy on the origin's process; running the null callback is logged as `NullCallbackRun`, a call the browser does not survive; the `DummyCallback` callback does nothing |
| `Dispatch.ResolveExtension` | extensions/browser/extension_function_dispatcher.cc:477-483 | the enabled extension with the request's id wins; failing that, the hosted app for the source URL; no extension exactly when neither exists |
| `Dispatch.SendAccessDenied` | extensions/browser/extension_function_dispatcher.cc:670-676 | a bound callback yields exactly one failed response with no results and the text "Access to extension API denied."; a stale one yields nothing |
| `Dispatch.CreateExtensionFunction` | extensions/browser/extension_function_dispatcher.cc:637-667 | an unknown name gives no function and an access-denied response tagged `UNKNOWN`; a known name gives a function that carries the request's name, arguments, request id, callback and user-gesture flags, source URL, source tab, caller and process, and has no effect |
| `Dispatch.CheckPermissions` | extensions/browser/extension_function_dispatcher.cc:624-634 | passes exactly when `HasPermission()` holds; on failure the only effect is the access-denied response tagged with the function's histogram |
| `Dispatch.KeepaliveStep` | extensions/browser/extension_function_dispatcher.cc:570-580 | at most one increment, always for the resolved extension, and one exactly when the request's own extension id is still enabled |
| `Dispatch.ClassifyUI` | extensions/browser/extension_function_dispatcher.cc:461-581 | the decision table of a UI-thread dispatch: no process map first, then an unknown name; a denial carries the handler's histogram; every outcome past the thread check needs a UI-thread handler; anonymous exactly when no extension resolves; a violation exactly for a non-empty `Assess` message |
| `Dispatch.ClassifyIO` | extensions/browser/extension_function_dispatcher.cc:322-396 | the IO-thread decision table: never a process-map outcome; an IO-thread handler for every outcome past the thread check; the extension comes only from the info map |
| `Dispatch.DispatchWithCallbackInternal` | extensions/browser/extension_function_dispatcher.cc:461-581 | each outcome of the decision table has exactly its listed effects and sync-slot writes: nothing without a process map or for a non-UI function; a denial; a direct run; assess plus `OnQuotaExceeded(v)` plus the keepalive step; or assess, notify, run plus the keepalive step |
| `Dispatch.DispatchOnIOThread` | extensions/browser/extension_function_dispatcher.cc:322-396 | the same outcome table on the IO thread, answering through the IO filter, with no keepalive step |
| `Registry.WithoutProcess` | extensions/browser/extension_function_dispatcher.cc:583-595 | keeps exactly the worker entries of other processes, with their wrappers unchanged |
| `Registry.Dispatcher.constructor` | extensions/browser/extension_function_dispatcher.cc:398-400 | a new dispatcher has empty registries and an empty log |
| `Registry.Dispatcher.Dispatch` | extensions/browser/extension_function_dispatcher.cc:418-459 | afterwards exactly one wrapper exists for the frame, or for (render process id, embedded worker id); an existing one is reused and never replaced; a new one gets a fresh identity; the log grows by the internal dispatch's effects with a callback bound to that wrapper; no deleted wrapper comes back |
| `Registry.Dispatcher.FindOrCreateFrameWrapper` | extensions/browser/extension_function_dispatcher.cc:425-435 | returns the frame's registered wrapper, inserting a fresh one only when there was none |
| `Registry.Dispatcher.FindOrCreateWorkerWrapper` | extensions/browser/extension_function_dispatcher.cc:444-454 | returns the key's registered wrapper, inserting a fresh one with the request's worker thread id only when there was none |
| `Registry.Dispatcher.DispatchSync` | extensions/browser/extension_function_dispatcher.cc:405-416 | runs the internal dispatch in sync mode with the callback bound to `DummyCallback`, creates no wrapper, and returns what was written into the output slots |
| `Registry.Dispatcher.Complete` | extensions/browser/extension_function_dispatcher.cc:182-187 | running a callback later appends exactly what the callback does given the wrappers still alive at that moment |
| `Registry.Dispatcher.OnExtensionFunctionCompleted` | extensions/browser/extension_function_dispatcher.cc:597-605 | one keepalive decrement for the extension when there is one, nothing otherwise |
| `Registry.Dispatcher.RenderFrameDeleted` | extensions/browser/extension_function_dispatcher.cc:168-180 | a deletion of another frame changes nothing; the wrapper's own frame erases exactly its entry, and exactly its identity stops being live |
| `Registry.Dispatcher.RemoveWorkerCallbacksForProcess` | extensions/browser/extension_function_dispatcher.cc:583-595 | the erase loop leaves exactly the entries of other processes, untouched |
| `Registry.Dispatcher.CleanUp` | extensions/browser/extension_function_dispatcher.cc:233-256 | process exit or host destruction erases every worker wrapper of that process, this one included |
| `Properties.UnknownFunctionIsDenied` | extensions/browser/extension_function_dispatcher.cc:645-650 | with no handler, nothing is assessed, notified or run, and the sync slots stay untouched; the callback runs once with `FAILED`, no results, the access-denied text and histogram `UNKNOWN` |
| `Properties.PermissionDeniedIsDenied` | extensions/browser/extension_function_dispatcher.cc:513-514 | without permission, the same access-denied response, tagged with the handler's histogram, and no assessment, notification, run or keepalive change |
| `Properties.IOPermissionDeniedIsDenied` | extensions/browser/extension_function_dispatcher.cc:360-361 | on the IO thread a denied request gets the access-denied response through a live IO filter, nothing through a gone one, and the handler is untouched |
| `Properties.AnonymousCallerRunsDirectly` | extensions/browser/extension_function_dispatcher.cc:516-526 | with no resolved extension the handler runs exactly once, with no assessment, no notification and no keepalive change; in sync mode the slots receive `RunNWSync`'s result |
| `Properties.QuotaViolationBlocksHandler` | extensions/browser/extension_function_dispatcher.cc:533-565 | a non-empty violation means the handler never runs, nothing is notified, and `OnQuotaExceeded` is called once with exactly that message |
| `Properties.AdmittedNotifiesThenRunsOnce` | extensions/browser/extension_function_dispatcher.cc:538-554 | an empty violation means assess, then notify, then exactly one run of this request; the sync slots are written exactly in sync mode |
| `Properties.KeepaliveIncrementedOnce` | extensions/browser/extension_function_dispatcher.cc:570-580 | an attributed dispatch, admitted or over quota, raises the resolved extension's count by one exactly when the request's extension id is still enabled, and no other count moves |
| `Properties.KeepaliveLostWhenIdNotEnabled` | extensions/browser/extension_function_dispatcher.cc:570-605 | when the request's own extension id is no longer enabled after the handler returns, dispatch plus completion leave the resolved extension's count one lower |
| `Properties.KeepaliveBalancedOverRequest` | extensions/browser/extension_function_dispatcher.cc:597-605 | the increment of a still-enabled attributed request and its completion's decrement cancel out |
| `Properties.SyncDispatchFollowsSameRoute` | extensions/browser/extension_function_dispatcher.cc:405-416 | with the `DummyCallback` callback, sync dispatch makes the same decision as async: the slots are written exactly when the handler runs, over-quota requests do not run, and nothing is ever sent, killed or run through a null callback; a denial only leaves the slots untouched |
| `Properties.SyncDenialRunsNullCallback` | extensions/browser/extension_function_dispatcher.cc:412-415 | with the default-constructed callback the source passes, an unknown name or a denied permission runs the null callback and writes no slots |
| `Properties.SyncUnknownNameRunsNullCallback` | extensions/browser/extension_function_dispatcher.cc:670-676 | a concrete sync request for an unregistered name, with the null callback, reaches the `callback.Run` of `SendAccessDenied` |
| `Properties.CompletionIsExactlyOnce` | extensions/browser/extension_function_dispatcher.cc:258-273 | a bound callback gives exactly one response for any tag but `BAD_MESSAGE`; for `BAD_MESSAGE` it gives no response and one kill or abort, unless the origin's handle is already invalid |
| `Properties.ExactlyOneTerminalPerRequest` | extensions/browser/extension_function_dispatcher.cc:513-565 | a request whose callback stays bound, and that gets past the process-map check (474-475) and the thread-kind check (496-499), and, for a `BAD_MESSAGE` completion, whose origin process handle is still valid or whose browser runs in single-process mode, ends in exactly one terminal event: the dispatcher's own denial, or the function's completion, never both. The excluded cases end with no terminal event |
| `Properties.OneWrapperManyRequests` | extensions/browser/extension_function_dispatcher.cc:182-187 | two requests answered through the same live wrapper each get their own request id and result at the same frame |
| `Properties.StaleCallbackIsNoOp` | extensions/browser/extension_function_dispatcher.cc:141-142 | a callback whose wrapper or IO filter is gone has no effect |
| `Properties.RemoveWorkerCallbacksIdempotent` | extensions/browser/extension_function_dispatcher.cc:233-242 | erasing a process's worker entries twice, on process exit then on host destruction, is the same as erasing them once |
| `Properties.RemoveWorkerCallbacksCommute` | extensions/browser/extension_function_dispatcher.cc:587-594 | erasing two processes' entries gives the same registry in either order |

## Left out

- IPC message construction and sending, and `base::Process` handle lookup: these are
  events with abstract targets and process ids. Handle validity is an input set.
- UMA histograms, `RecordAction`, `ScopedProfile`, `ElapsedTimer` and `LOG`: metrics and
  logging, with no effect on behaviour. The histogram value is kept only as the
  diagnostic key of kills and access-denied responses.
- Threads: the `DCHECK`s, the UI and IO lanes, and how weak pointers behave across
  threads. A weak pointer is a validity check only. `NOTREACHED()` is treated as the
  no-op it is in release builds. `CHECK(false)` is the `AbortHost` event.
- Destruction of the dispatcher itself: the `dispatcher_` weak-pointer checks at lines
  174 and 253 are always taken. Frame wrappers outliving the dispatcher are not
  modelled.
- `g_global_io_data`, `ExtensionAPI`, `ProcessMap::GetMostLikelyContextType`,
  `CanExtensionCrossIncognito`, `PermitExternalProtocolHandler`, `OverrideFunction`, the
  IO filter and info-map setters, and the delegate getters (lines 300-319, 607-621):
  foreign singletons and collaborators. Their effects reach the model only through the
  per-call inputs, which are left arbitrary:
  - `OverrideFunction` replaces the factory for a name. That choice decides unknown
    name versus handler, and the handler's histogram and thread kind. It shows up only
    through `env.handlers`.
  - The context type (lines 662-663) and the incognito flag (lines 356-358, 507-511)
    are set on the function, and `HasPermission` may read them. They show up only
    through `env.hasPermission` and `env.assess`.
  - The frame or service-worker marking of the function is not modelled.
    `DispatchSync`'s frame argument only feeds these.
- The bodies of `ExtensionFunction` (`RunWithValidation`, `Execute`, `OnQuotaExceeded`,
  `RunNWSync`) and the quota buckets: these are not part of this model. A run is an
  event, and `OnQuotaExceeded(v)` is the `QuotaExceeded` event. The function's own
  response, including the one `OnQuotaExceeded` produces, comes through
  `Dispatcher.Complete`.
- Inline responses: a response produced during `Execute()` (line 550) or
  `OnQuotaExceeded` (line 564) comes before the enabled check and the keepalive
  increment (lines 571-580) in the source. The model logs it after them, through
  `Dispatcher.Complete`. Only the order of events is lost. The counts proved
  (responses, terminal events, keepalive balance) do not depend on it. A crash from an
  inline null-callback run at line 564 also means the increment would not happen in
  the browser.
- The time stamp passed to `Assess`: the quota answer is an uninterpreted function of
  the extension and the function.
- Responses.RunCallback: `NullCallbackRun` stands for running a null `base::Callback`.
  The source does not survive that call. The model only records it and goes on, so
  nothing after it in the log would happen in the browser.
- Registry iteration order: the worker registry is a Dafny `map`. The order `KeyLess`
  (the source's `operator<`) is proved to be a strict total order, which is what
  `std::map` needs, but the erase loop picks the entries in no fixed order.

## Findings

| source | as written | input that shows it | evidently intended | confidence | as-written member | corrected member |
|---|---|---|---|---|---|---|
| extensions/browser/extension_function_dispatcher.cc:412 | `DispatchSync` passes a default-constructed `base::Callback<decltype(DummyCallback)>`. On the denial paths (lines 630 and 649), `SendAccessDenied` runs it (line 674), which calls through a null callback | a sync request whose name has no registered handler, or whose permission check fails; also an over-quota sync request, whose later response from `OnQuotaExceeded` runs the same null callback (that call happens in the function's own code, outside this file; in the model it is `Dispatcher.Complete` with the null callback) | a callback bound to `DummyCallback` (lines 106-111), which ignores its response, so a denied sync request simply leaves the output slots untouched | not executed; high, since `DummyCallback` has the matching signature and is never bound anywhere | `Properties.SyncDenialRunsNullCallback`, `Properties.SyncUnknownNameRunsNullCallback` | `Properties.SyncDispatchFollowsSameRoute`, used by `Registry.Dispatcher.DispatchSync` |
