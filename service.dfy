/**
  `DocumentService`: the object that owns the admission fields and runs a
  create request through the gate, the mapping and the repository.

  The monitor (`synchronized`, `wait`, `notify`) is not modelled: each
  method is one sequential step taken while holding the lock. A call that
  would park in `lock.wait()` returns `Waiting`, and its later wake-up is a
  separate call of `ResumeCreateDocument`.
*/
module Service {
  import opened Nullable
  import opened Mapping
  import opened Admission

  /** Why an admitted request did not end in a saved document. */
  datatype Failure = MappingFailed(site: NullSite) | StorageFailed

  /** What one step of a create request leads to. */
  datatype Submission = Waiting(sampledTime: int) | Created(document: Document) | Failed(failure: Failure)

  class DocumentService {
    var lastRequestTime: int
    var requestCounter: int
    /** The documents handed to `DocumentRepository.save`, in order. */
    var saved: seq<Document>

    /** The counter starts at 0 and is only reset to 0 or incremented. */
    ghost predicate Valid()
      reads this
    {
      0 <= requestCounter
    }

    /** `lastRequestTime` starts at the clock reading taken when the service is built. */
    constructor (startTime: int)
      ensures Valid()
      ensures lastRequestTime == startTime && requestCounter == 0 && saved == []
    {
      lastRequestTime := startTime;
      requestCounter := 0;
      saved := [];
    }

    /** The admission fields as a value. */
    function State(): GateState
      reads this
    {
      GateState(lastRequestTime, requestCounter)
    }

    /**
      The admission block on entry: reset the counter if the window is
      over, then admit or report that the caller would wait.
    */
    method Enter(currentTime: int, interval: int, requestLimit: int) returns (o: Outcome)
      requires Valid()
      modifies this`lastRequestTime, this`requestCounter
      ensures Valid()
      ensures Step(o, State()) == Admission.Enter(old(State()), currentTime, interval, requestLimit)
    {
      if currentTime - lastRequestTime >= interval {
        requestCounter := 0;
      }
      if requestCounter >= requestLimit {
        return Blocked;
      }
      lastRequestTime := currentTime;
      requestCounter := requestCounter + 1;
      o := Admitted;
    }

    /**
      One more turn of the wait loop after a wake-up: the counter alone is
      tested, and an admission stores the time sampled on entry.
    */
    method Recheck(sampledTime: int, requestLimit: int) returns (o: Outcome)
      requires Valid()
      modifies this`lastRequestTime, this`requestCounter
      ensures Valid()
      ensures Step(o, State()) == Admission.Recheck(old(State()), sampledTime, requestLimit)
      ensures o == Blocked ==> lastRequestTime == old(lastRequestTime) && requestCounter == old(requestCounter)
    {
      if requestCounter >= requestLimit {
        return Blocked;
      }
      lastRequestTime := sampledTime;
      requestCounter := requestCounter + 1;
      o := Admitted;
    }

    /**
      The wake-up as evidently intended: sample the clock again and redo the
      whole entry, window reset included.
    */
    method Retry(wokenAt: int, interval: int, requestLimit: int) returns (o: Outcome)
      requires Valid()
      modifies this`lastRequestTime, this`requestCounter
      ensures Valid()
      ensures Step(o, State()) == Admission.Enter(old(State()), wokenAt, interval, requestLimit)
      ensures 0 < requestLimit && wokenAt - old(lastRequestTime) >= interval ==> o == Admitted
    {
      o := Enter(wokenAt, interval, requestLimit);
    }

    /**
      The work after admission: build the document and hand it to the
      repository. The admission fields are not touched, so a failure here
      does not give the slot back.
    */
    method Persist(request: DocumentRequest, saveSucceeds: bool) returns (r: Submission)
      modifies this`saved
      ensures !r.Waiting?
      ensures BuildDocument(request).Err? ==>
        r == Failed(MappingFailed(BuildDocument(request).error)) && saved == old(saved)
      ensures BuildDocument(request).Ok? && saveSucceeds ==>
        r == Created(BuildDocument(request).value) && saved == old(saved) + [BuildDocument(request).value]
      ensures BuildDocument(request).Ok? && !saveSucceeds ==> r == Failed(StorageFailed) && saved == old(saved)
    {
      var document := BuildDocument(request);
      if document.Err? {
        return Failed(MappingFailed(document.error));
      }
      if !saveSucceeds {
        return Failed(StorageFailed);
      }
      saved := saved + [document.value];
      r := Created(document.value);
    }

    /**
      `createDocument` with the clock read at `currentTime`, the configured
      unit and limit, and whether the repository's save succeeds.
    */
    method CreateDocument(request: DocumentRequest, timeUnit: TimeUnit, requestLimit: int,
                          currentTime: int, saveSucceeds: bool) returns (r: Submission)
      requires Valid()
      modifies this
      ensures Valid()
      ensures State() == Admission.Enter(old(State()), currentTime, IntervalMillis(timeUnit), requestLimit).next
      ensures r.Waiting? <==>
        Admission.Enter(old(State()), currentTime, IntervalMillis(timeUnit), requestLimit).outcome == Blocked
      // once admitted, the result is the mapping's error, the created document, or the failed save
      ensures !r.Waiting? ==>
        r == if BuildDocument(request).Err? then Failed(MappingFailed(BuildDocument(request).error))
             else if saveSucceeds then Created(BuildDocument(request).value)
             else Failed(StorageFailed)
      ensures r.Waiting? ==> r.sampledTime == currentTime && saved == old(saved)
      ensures r.Created? ==> saved == old(saved) + [r.document] && BuildDocument(request) == Ok(r.document)
      ensures r.Failed? ==> saved == old(saved)
    {
      var o := Enter(currentTime, IntervalMillis(timeUnit), requestLimit);
      if o == Blocked {
        return Waiting(currentTime);
      }
      r := Persist(request, saveSucceeds);
    }

    /** A parked `createDocument` call after it is woken, as the code does it. */
    method ResumeCreateDocument(request: DocumentRequest, sampledTime: int, requestLimit: int,
                                saveSucceeds: bool) returns (r: Submission)
      requires Valid()
      modifies this
      ensures Valid()
      ensures State() == Admission.Recheck(old(State()), sampledTime, requestLimit).next
      ensures r.Waiting? <==> old(requestCounter) >= requestLimit
      // once admitted, the result is the mapping's error, the created document, or the failed save
      ensures !r.Waiting? ==>
        r == if BuildDocument(request).Err? then Failed(MappingFailed(BuildDocument(request).error))
             else if saveSucceeds then Created(BuildDocument(request).value)
             else Failed(StorageFailed)
      ensures r.Waiting? ==> r.sampledTime == sampledTime && saved == old(saved)
      ensures r.Created? ==> saved == old(saved) + [r.document] && BuildDocument(request) == Ok(r.document)
      ensures r.Failed? ==> saved == old(saved)
    {
      var o := Recheck(sampledTime, requestLimit);
      if o == Blocked {
        return Waiting(sampledTime);
      }
      r := Persist(request, saveSucceeds);
    }
  }
}
