/** MediaServer2Service as a sequential state machine: the request queue, the
    `stopped` flag, the worker thread's position in its loop, the discovery
    threads not yet run, and the log of emitted `media-retrieved` batches. */
module Worker {
  import opened Values
  import opened MediaObjects
  import opened Retrieval

  /** One queued `(media_obj, tree_iter)` pair; `None` is a falsy object. */
  datatype Request = Request(obj: Option<MediaObject>, treeIter: Option<TreeIter>)

  /** Where the worker thread is in `while True: if self.stopped: return; ... get() ...`. */
  datatype WorkerPhase =
    | AtStopCheck      // at the top of the loop, about to read `stopped`
    | AwaitingRequest  // past the check, blocked in `get()` until the queue is non-empty
    | Exited           // returned from the loop; the thread is gone

  /** What serving one dequeued request emits: a falsy object is dropped, a
      non-container is not expanded, a container is expanded. */
  function Serve(bus: Bus, req: Request): Option<seq<MediaObject>>
  {
    match req.obj
    case None => None
    case Some(m) => if m.objType == CONTAINER_TYPE then ContainerChildren(bus, m, req.treeIter) else None
  }

  /** The batches one emission adds to the log: one, or none. */
  function Emission(batch: Option<seq<MediaObject>>): seq<seq<MediaObject>>
  {
    match batch
    case Some(b) => [b]
    case None => []
  }

  /** Only a container request can emit, and then only what its expansion emits. */
  lemma ServeEmitsOnlyForContainers(bus: Bus, req: Request)
    ensures Serve(bus, req).Some? ==>
              req.obj.Some? && req.obj.value.objType == CONTAINER_TYPE &&
              forall c :: c in Serve(bus, req).value ==> c.parentIter == req.treeIter
    ensures req.obj.None? ==> Emission(Serve(bus, req)) == []
  {
    if Serve(bus, req).Some? {
      ContainerChildrenOutcome(bus, req.obj.value, req.treeIter);
    }
  }

  /** What serving one dequeued request does in the source as written, where the
      expansion of a container whose server has left the bus raises out of the
      worker loop. */
  function ServeAsWritten(bus: Bus, req: Request): Outcome
  {
    match req.obj
    case None => Silent
    case Some(m) => if m.objType == CONTAINER_TYPE then ContainerChildrenAsWritten(bus, m, req.treeIter) else Silent
  }

  /** The batches an outcome adds to the log: one when it emitted, else none. */
  function OutcomeEmission(o: Outcome): seq<seq<MediaObject>>
  {
    match o
    case Emitted(b) => [b]
    case _ => []
  }

  /** Serving raises exactly for a container whose proxy cannot be made; in every
      other case the written and the corrected worker log the same batches. */
  lemma ServeAsWrittenAgrees(bus: Bus, req: Request)
    ensures ServeAsWritten(bus, req) == Raised <==>
              req.obj.Some? && req.obj.value.objType == CONTAINER_TYPE && !bus.getObject(RefOf(req.obj.value))
    ensures ServeAsWritten(bus, req) != Raised ==>
              OutcomeEmission(ServeAsWritten(bus, req)) == Emission(Serve(bus, req))
  {
    if req.obj.Some? && req.obj.value.objType == CONTAINER_TYPE {
      AsWrittenRaisesOnVanishedService(bus, req.obj.value, req.treeIter);
    }
  }

  class MediaServer2Service {
    const bus: Bus
    var stopped: bool
    var queue: seq<Request>
    var phase: WorkerPhase
    /** Discovery threads started by `get_media(None, ...)` that have not run yet. */
    var pendingDiscoveries: nat
    /** Every `media-retrieved` emission, in order. */
    var log: seq<seq<MediaObject>>

    /** `__init__`: an empty queue, not stopped, the worker thread started. */
    constructor(bus: Bus)
      ensures this.bus == bus
      ensures !stopped && queue == [] && phase == AtStopCheck
      ensures pendingDiscoveries == 0 && log == []
    {
      this.bus := bus;
      stopped := false;
      queue := [];
      phase := AtStopCheck;
      pendingDiscoveries := 0;
      log := [];
    }

    /** `get_media`: an object is queued at the back for the worker; None starts
        a discovery thread and leaves the queue alone. Neither blocks. */
    method GetMedia(obj: Option<MediaObject>, treeIter: Option<TreeIter>)
      modifies this
      ensures obj.Some? ==> queue == old(queue) + [Request(obj, treeIter)]
                            && pendingDiscoveries == old(pendingDiscoveries)
      ensures obj.None? ==> queue == old(queue) && pendingDiscoveries == old(pendingDiscoveries) + 1
      ensures stopped == old(stopped) && phase == old(phase) && log == old(log)
    {
      if obj.Some? {
        queue := queue + [Request(obj, treeIter)];
        return;
      }
      pendingDiscoveries := pendingDiscoveries + 1;
    }

    /** One move of the worker thread `_media_retriever_worker`. The flag is read
        only at the top of the loop; once past it the worker waits for a request
        and serves it in full, whatever `stopped` has become meanwhile. Requests
        are served from the front of the queue. */
    method WorkerStep()
      modifies this
      ensures old(phase) == Exited ==> unchanged(this)
      ensures old(phase) == AtStopCheck ==>
                queue == old(queue) && log == old(log) &&
                phase == (if old(stopped) then Exited else AwaitingRequest)
      ensures old(phase) == AwaitingRequest && old(queue) == [] ==> unchanged(this)
      ensures old(phase) == AwaitingRequest && old(queue) != [] ==>
                queue == old(queue)[1..] && phase == AtStopCheck &&
                log == old(log) + Emission(Serve(bus, old(queue)[0]))
      ensures stopped == old(stopped) && pendingDiscoveries == old(pendingDiscoveries)
      ensures phase == Exited ==> old(phase) == Exited || old(stopped)
    {
      match phase {
        case Exited =>
        case AtStopCheck =>
          if stopped {
            phase := Exited;
          } else {
            phase := AwaitingRequest;
          }
        case AwaitingRequest =>
          if queue != [] {
            var req := queue[0];
            queue := queue[1..];
            if req.obj.Some? {
              var batch := GetMediaAsync(bus, req.obj.value, req.treeIter);
              log := log + Emission(batch);
            }
            phase := AtStopCheck;
          }
      }
    }

    /** One move of the worker thread as written: like `WorkerStep`, except that an
        expansion which raises (line 124) ends the thread with the rest of the
        queue left unserved and `stopped` still unset. */
    method WorkerStepAsWritten()
      modifies this
      ensures old(phase) == Exited ==> unchanged(this)
      ensures old(phase) == AtStopCheck ==>
                queue == old(queue) && log == old(log) &&
                phase == (if old(stopped) then Exited else AwaitingRequest)
      ensures old(phase) == AwaitingRequest && old(queue) == [] ==> unchanged(this)
      ensures old(phase) == AwaitingRequest && old(queue) != [] ==>
                queue == old(queue)[1..] &&
                log == old(log) + OutcomeEmission(ServeAsWritten(bus, old(queue)[0])) &&
                phase == (if ServeAsWritten(bus, old(queue)[0]) == Raised then Exited else AtStopCheck)
      ensures stopped == old(stopped) && pendingDiscoveries == old(pendingDiscoveries)
    {
      match phase {
        case Exited =>
        case AtStopCheck =>
          if stopped {
            phase := Exited;
          } else {
            phase := AwaitingRequest;
          }
        case AwaitingRequest =>
          if queue != [] {
            var req := queue[0];
            queue := queue[1..];
            var outcome := Silent;
            if req.obj.Some? && req.obj.value.objType == CONTAINER_TYPE {
              outcome := ContainerChildrenAsWritten(bus, req.obj.value, req.treeIter);
            }
            log := log + OutcomeEmission(outcome);
            phase := if outcome == Raised then Exited else AtStopCheck;
          }
      }
    }

    /** One discovery thread runs `_get_services_media_objects` to the end. Discovery
        threads do not look at `stopped`. */
    method DiscoveryStep()
      modifies this
      ensures old(pendingDiscoveries) == 0 ==> unchanged(this)
      ensures old(pendingDiscoveries) > 0 ==>
                pendingDiscoveries == old(pendingDiscoveries) - 1 &&
                log == old(log) + Emission(Discovery(bus))
      ensures stopped == old(stopped) && queue == old(queue) && phase == old(phase)
    {
      if pendingDiscoveries > 0 {
        pendingDiscoveries := pendingDiscoveries - 1;
        var batch := GetServicesMediaObjects(bus);
        log := log + Emission(batch);
      }
    }
  }

  /** Two objects queued one after the other are served in that order: the first
      batch is in the log before the second request is taken. */
  method FifoScenario(bus: Bus, a: MediaObject, b: MediaObject, ia: TreeIter, ib: TreeIter)
    returns (afterFirst: seq<seq<MediaObject>>, afterSecond: seq<seq<MediaObject>>)
    ensures afterFirst == Emission(Serve(bus, Request(Some(a), Some(ia))))
    ensures afterSecond == afterFirst + Emission(Serve(bus, Request(Some(b), Some(ib))))
  {
    var service := new MediaServer2Service(bus);
    service.GetMedia(Some(a), Some(ia));
    service.GetMedia(Some(b), Some(ib));
    service.WorkerStep();
    service.WorkerStep();
    afterFirst := service.log;
    service.WorkerStep();
    service.WorkerStep();
    afterSecond := service.log;
  }

  /** The flag is not read while the worker waits for a request: a worker that
      passed the check before `stopped` was set still serves the next request
      queued, and only then exits. */
  method StopWhileWaitingScenario(bus: Bus, m: MediaObject, it: TreeIter)
    returns (emitted: seq<seq<MediaObject>>, exited: bool)
    ensures emitted == Emission(Serve(bus, Request(Some(m), Some(it))))
    ensures exited
  {
    var service := new MediaServer2Service(bus);
    service.WorkerStep();
    service.stopped := true;
    service.GetMedia(Some(m), Some(it));
    service.WorkerStep();
    emitted := service.log;
    service.WorkerStep();
    exited := service.phase == Exited;
  }

  /** A flag set while the worker is at the top of its loop stops it before it
      takes anything: requests queued afterwards are never served. */
  method StopAtCheckScenario(bus: Bus, m: MediaObject, it: TreeIter)
    returns (emitted: seq<seq<MediaObject>>, pending: nat)
    ensures emitted == [] && pending == 1
  {
    var service := new MediaServer2Service(bus);
    service.stopped := true;
    service.WorkerStep();
    service.GetMedia(Some(m), Some(it));
    service.WorkerStep();
    service.WorkerStep();
    emitted := service.log;
    pending := |service.queue|;
  }

  /** A container whose server has left the bus ends the written worker: the
      request queued behind it is never served although `stopped` was never set.
      The corrected worker serves that request. */
  method VanishedServiceScenario(bus: Bus, a: MediaObject, b: MediaObject, ia: TreeIter, ib: TreeIter)
    returns (emitted: seq<seq<MediaObject>>, unserved: seq<Request>, stopped: bool, exited: bool,
             emittedCorrected: seq<seq<MediaObject>>)
    requires a.objType == CONTAINER_TYPE && !bus.getObject(RefOf(a))
    ensures emitted == [] && unserved == [Request(Some(b), Some(ib))]
    ensures !stopped && exited
    ensures emittedCorrected == Emission(Serve(bus, Request(Some(b), Some(ib))))
  {
    var service := new MediaServer2Service(bus);
    service.GetMedia(Some(a), Some(ia));
    service.GetMedia(Some(b), Some(ib));
    service.WorkerStepAsWritten();
    service.WorkerStepAsWritten();
    service.WorkerStepAsWritten();
    service.WorkerStepAsWritten();
    emitted, unserved, stopped := service.log, service.queue, service.stopped;
    exited := service.phase == Exited;

    var corrected := new MediaServer2Service(bus);
    corrected.GetMedia(Some(a), Some(ia));
    corrected.GetMedia(Some(b), Some(ib));
    corrected.WorkerStep();
    corrected.WorkerStep();
    corrected.WorkerStep();
    corrected.WorkerStep();
    emittedCorrected := corrected.log;
  }
}
