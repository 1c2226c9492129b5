/**
 * ExtensionFunctionDispatcher as an object: the two registries of callback wrappers it
 * keeps (one per frame, one per (process, embedded worker)), and the log of observable
 * effects its entry points produce.
 */
module Registry {
  import opened Types
  import opened Responses
  import opened Dispatch

  /** The worker registry once every entry of process `p` is erased. */
  function WithoutProcess(m: map<WorkerKey, WorkerWrapper>, p: int): (r: map<WorkerKey, WorkerWrapper>)
    ensures forall k :: k in r <==> k in m && k.renderProcessId != p
    ensures forall k | k in r :: r[k] == m[k]
  {
    map k | k in m && k.renderProcessId != p :: m[k]
  }

  class Dispatcher {
    /** ui_thread_response_callback_wrappers_ */
    var frameWrappers: map<Frame, FrameWrapper>
    /** ui_thread_response_callback_wrappers_for_worker_ */
    var workerWrappers: map<WorkerKey, WorkerWrapper>
    /** The identity the next wrapper gets; identities are never reused. */
    var nextWrapperId: nat
    /** Every observable effect so far, in order. */
    var log: seq<Event>

    /**
     * Each entry's wrapper belongs to its key, every wrapper identity was handed out
     * before, and no two entries share a wrapper.
     */
    ghost predicate Valid()
      reads this
    {
      && (forall f | f in frameWrappers ::
            frameWrappers[f].frame == f && frameWrappers[f].id < nextWrapperId)
      && (forall k | k in workerWrappers ::
            workerWrappers[k].processId == k.renderProcessId && workerWrappers[k].id < nextWrapperId)
      && (forall f, g | f in frameWrappers && g in frameWrappers && f != g ::
            frameWrappers[f].id != frameWrappers[g].id)
      && (forall k, l | k in workerWrappers && l in workerWrappers && k != l ::
            workerWrappers[k].id != workerWrappers[l].id)
      && (forall f, k | f in frameWrappers && k in workerWrappers ::
            frameWrappers[f].id != workerWrappers[k].id)
    }

    /** The wrappers not yet deleted: exactly those the registries hold. */
    function Live(): set<nat>
      reads this
    {
      (set f | f in frameWrappers :: frameWrappers[f].id) + (set k | k in workerWrappers :: workerWrappers[k].id)
    }

    constructor ()
      ensures Valid()
      ensures frameWrappers == map[] && workerWrappers == map[] && log == []
    {
      frameWrappers, workerWrappers := map[], map[];
      nextWrapperId := 0;
      log := [];
    }

    /**
     * Dispatch: find or create the wrapper of the request's origin (the frame, or
     * (renderProcessId, embeddedWorkerId) for a service worker), then dispatch with a
     * callback bound to that wrapper. An existing wrapper is reused, never replaced.
     */
    method Dispatch(env: Env, req: Request, frame: Option<Frame>, renderProcessId: int)
      requires Valid()
      modifies this
      ensures Valid()
      ensures old(Live()) <= Live()
      ensures forall id | id < old(nextWrapperId) && id !in old(Live()) :: id !in Live()
      ensures frame.Some? ==>
        && workerWrappers == old(workerWrappers)
        && frame.value in frameWrappers
        && (frame.value in old(frameWrappers) ==>
              frameWrappers == old(frameWrappers) && nextWrapperId == old(nextWrapperId))
        && (frame.value !in old(frameWrappers) ==>
              && frameWrappers == old(frameWrappers)[frame.value := FrameWrapper(old(nextWrapperId), frame.value)]
              && nextWrapperId == old(nextWrapperId) + 1)
        && log == old(log) + DispatchWithCallbackInternal(
             env, req, renderProcessId, frameWrappers[frame.value].CreateCallback(req.requestId), Live(), false).events
      ensures frame.None? ==>
        var key := WorkerKey(renderProcessId, req.embeddedWorkerId);
        && frameWrappers == old(frameWrappers)
        && key in workerWrappers
        && (key in old(workerWrappers) ==>
              workerWrappers == old(workerWrappers) && nextWrapperId == old(nextWrapperId))
        && (key !in old(workerWrappers) ==>
              && workerWrappers == old(workerWrappers)[key := WorkerWrapper(old(nextWrapperId), renderProcessId, req.workerThreadId)]
              && nextWrapperId == old(nextWrapperId) + 1)
        && log == old(log) + DispatchWithCallbackInternal(
             env, req, renderProcessId, workerWrappers[key].CreateCallback(req.requestId), Live(), false).events
    {
      if frame.Some? {
        var wrapper := FindOrCreateFrameWrapper(frame.value);
        var result := DispatchWithCallbackInternal(
          env, req, renderProcessId, wrapper.CreateCallback(req.requestId), Live(), false);
        log := log + result.events;
      } else {
        var wrapper := FindOrCreateWorkerWrapper(WorkerKey(renderProcessId, req.embeddedWorkerId), req.workerThreadId);
        var result := DispatchWithCallbackInternal(
          env, req, renderProcessId, wrapper.CreateCallback(req.requestId), Live(), false);
        log := log + result.events;
      }
    }

    /** The lookup-or-insert on ui_thread_response_callback_wrappers_ in Dispatch. */
    method FindOrCreateFrameWrapper(frame: Frame) returns (wrapper: FrameWrapper)
      requires Valid()
      modifies this`frameWrappers, this`nextWrapperId
      ensures Valid()
      ensures frame in frameWrappers && wrapper == frameWrappers[frame]
      ensures frame in old(frameWrappers) ==>
        frameWrappers == old(frameWrappers) && nextWrapperId == old(nextWrapperId) && Live() == old(Live())
      ensures frame !in old(frameWrappers) ==>
        && wrapper == FrameWrapper(old(nextWrapperId), frame)
        && frameWrappers == old(frameWrappers)[frame := wrapper]
        && nextWrapperId == old(nextWrapperId) + 1
        && Live() == old(Live()) + {wrapper.id}
    {
      if frame in frameWrappers {
        wrapper := frameWrappers[frame];
        return;
      }
      wrapper := FrameWrapper(nextWrapperId, frame);
      frameWrappers := frameWrappers[frame := wrapper];
      nextWrapperId := nextWrapperId + 1;
      assert Live() == old(Live()) + {wrapper.id} by {
        assert frame in frameWrappers && frameWrappers[frame].id == wrapper.id;
        forall id | id in Live() && id != wrapper.id ensures id in old(Live()) {
          if f :| f in frameWrappers && frameWrappers[f].id == id {
            assert f in old(frameWrappers);
          }
        }
        forall id | id in old(Live()) ensures id in Live() {
          if f :| f in old(frameWrappers) && old(frameWrappers)[f].id == id {
            assert frameWrappers[f] == old(frameWrappers)[f];
          }
        }
      }
    }

    /** The lookup-or-insert on ui_thread_response_callback_wrappers_for_worker_ in Dispatch. */
    method FindOrCreateWorkerWrapper(key: WorkerKey, workerThreadId: int) returns (wrapper: WorkerWrapper)
      requires Valid()
      modifies this`workerWrappers, this`nextWrapperId
      ensures Valid()
      ensures key in workerWrappers && wrapper == workerWrappers[key]
      ensures key in old(workerWrappers) ==>
        workerWrappers == old(workerWrappers) && nextWrapperId == old(nextWrapperId) && Live() == old(Live())
      ensures key !in old(workerWrappers) ==>
        && wrapper == WorkerWrapper(old(nextWrapperId), key.renderProcessId, workerThreadId)
        && workerWrappers == old(workerWrappers)[key := wrapper]
        && nextWrapperId == old(nextWrapperId) + 1
        && Live() == old(Live()) + {wrapper.id}
    {
      if key in workerWrappers {
        wrapper := workerWrappers[key];
        return;
      }
      wrapper := WorkerWrapper(nextWrapperId, key.renderProcessId, workerThreadId);
      workerWrappers := workerWrappers[key := wrapper];
      nextWrapperId := nextWrapperId + 1;
      assert Live() == old(Live()) + {wrapper.id} by {
        assert key in workerWrappers && workerWrappers[key].id == wrapper.id;
        forall id | id in Live() && id != wrapper.id ensures id in old(Live()) {
          if k :| k in workerWrappers && workerWrappers[k].id == id {
            assert k in old(workerWrappers);
          }
        }
        forall id | id in old(Live()) ensures id in Live() {
          if k :| k in old(workerWrappers) && old(workerWrappers)[k].id == id {
            assert workerWrappers[k] == old(workerWrappers)[k];
          }
        }
      }
    }

    /**
     * DispatchSync: the same algorithm in sync mode with a callback that ignores its
     * response; no wrapper is created. The result is what was written into the output
     * slots (None when they were left untouched). The source passes a null callback
     * instead (see Properties.SyncDenialRunsNullCallback); this is the intended one.
     */
    method DispatchSync(env: Env, req: Request, frame: Option<Frame>, renderProcessId: int)
      returns (reply: Option<SyncReply>)
      requires Valid()
      modifies this`log
      ensures Valid()
      ensures var r := DispatchWithCallbackInternal(env, req, renderProcessId, DummyCallback, Live(), true);
        log == old(log) + r.events && reply == r.reply
    {
      var result := DispatchWithCallbackInternal(env, req, renderProcessId, DummyCallback, Live(), true);
      log := log + result.events;
      reply := result.reply;
    }

    /** A handler's response callback is run with the handler's response. */
    method Complete(env: Env, cb: Callback, t: ResponseType, results: ListValue, error: string,
                    histogram: int)
      requires Valid()
      modifies this`log
      ensures Valid()
      ensures log == old(log) + RunCallback(env, cb, Live(), t, results, error, histogram)
    {
      log := log + RunCallback(env, cb, Live(), t, results, error, histogram);
    }

    /** OnExtensionFunctionCompleted: decrement the keepalive count of an attributed request. */
    method OnExtensionFunctionCompleted(extension: Option<string>)
      requires Valid()
      modifies this`log
      ensures Valid()
      ensures extension.Some? ==> log == old(log) + [KeepaliveDec(extension.value)]
      ensures extension.None? ==> log == old(log)
    {
      if extension.Some? {
        log := log + [KeepaliveDec(extension.value)];
      }
    }

    /**
     * UIThreadResponseCallbackWrapper::RenderFrameDeleted, delivered to the live wrapper
     * `w`: a different frame is ignored; its own frame erases its entry and deletes it.
     */
    method RenderFrameDeleted(w: FrameWrapper, renderFrameHost: Frame)
      requires Valid()
      requires w.frame in frameWrappers && frameWrappers[w.frame] == w
      modifies this`frameWrappers
      ensures Valid()
      ensures renderFrameHost != w.frame ==> frameWrappers == old(frameWrappers)
      ensures renderFrameHost == w.frame ==>
        frameWrappers == old(frameWrappers) - {renderFrameHost} && Live() == old(Live()) - {w.id}
    {
      if renderFrameHost != w.frame {
        return;
      }
      frameWrappers := frameWrappers - {renderFrameHost};
      assert Live() == old(Live()) - {w.id} by {
        forall id | id in old(Live()) && id != w.id ensures id in Live() {
          if f :| f in old(frameWrappers) && old(frameWrappers)[f].id == id {
            assert f != renderFrameHost;
            assert f in frameWrappers;
          }
        }
      }
    }

    /**
     * RemoveWorkerCallbacksForProcess: erase exactly the worker entries whose key has
     * this render process id, leaving every other entry as it was.
     */
    method RemoveWorkerCallbacksForProcess(renderProcessId: int)
      requires Valid()
      modifies this`workerWrappers
      ensures Valid()
      ensures workerWrappers == WithoutProcess(old(workerWrappers), renderProcessId)
    {
      ghost var before := workerWrappers;
      var pending := workerWrappers.Keys;
      while pending != {}
        invariant pending <= before.Keys
        invariant forall k :: k in workerWrappers <==> k in before && (k in pending || k.renderProcessId != renderProcessId)
        invariant forall k | k in workerWrappers :: workerWrappers[k] == before[k]
        decreases pending
      {
        var k :| k in pending;
        if k.renderProcessId == renderProcessId {
          workerWrappers := workerWrappers - {k};
        }
        pending := pending - {k};
      }
      assert workerWrappers.Keys == WithoutProcess(before, renderProcessId).Keys;
    }

    /**
     * UIThreadWorkerResponseCallbackWrapper::CleanUp, run on RenderProcessExited and on
     * RenderProcessHostDestroyed: every wrapper of the wrapper's process is erased.
     */
    method CleanUp(w: WorkerWrapper)
      requires Valid()
      modifies this`workerWrappers
      ensures Valid()
      ensures workerWrappers == WithoutProcess(old(workerWrappers), w.processId)
      ensures forall k | k in old(workerWrappers) && old(workerWrappers)[k] == w :: w.id !in Live()
    {
      RemoveWorkerCallbacksForProcess(w.processId);
      forall k | k in old(workerWrappers) && old(workerWrappers)[k] == w ensures w.id !in Live() {
        forall l | l in workerWrappers ensures workerWrappers[l].id != w.id {
          assert l != k;
        }
      }
    }
  }
}
