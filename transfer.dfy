/**
 * The resumable download task. Each network callback the task registers is a
 * method here that the environment calls with what the service answered;
 * the HEAD and GET requests themselves are recorded in fields rather than sent.
 */
module Transfer {
  import opened Wrappers
  import opened JavaText
  import opened DownloadPlan

  datatype TransferState = Waiting | InProgress | Paused | Canceled | Failed | Completed | ResumedWaiting

  /** The exception kept as the task's last error. */
  datatype TaskException = ClientException(message: string) | ServiceException(message: string)

  /** One call into the task's listeners, in the order they happened. */
  datatype Notice =
    | Progress(complete: Long, target: Long)                // progress listener
    | Success                                               // result listener, onSuccess
    | Failure(client: Option<string>, service: Option<string>) // result listener, onFail

  /** The task's result after a successful GET. */
  datatype TaskResult = TaskResult(httpCode: int, eTag: Option<string>)

  /** `checkParameters` throws when there is no directory to save into. */
  datatype ParameterError = LocalSaveDirPathNull

  /** The exception kept for a failed request: the client exception if any, else the service one. */
  function Chosen(client: Option<string>, service: Option<string>): (e: Option<TaskException>)
    ensures client.Some? ==> e == Some(ClientException(client.value))
    ensures client.None? && service.Some? ==> e == Some(ServiceException(service.value))
    ensures client.None? && service.None? ==> e.None?
  {
    if client.Some? then Some(ClientException(client.value))
    else if service.Some? then Some(ServiceException(service.value))
    else None
  }

  const PAUSED_MESSAGE := "paused by user"
  const CANCELED_MESSAGE := "cancelled by user"

  class DownloadTask {
    const region: Option<string>
    const bucket: Option<string>
    const cosPath: Option<string>
    const localSaveDirPath: Option<string>
    const localSaveFileName: Option<string>
    const rangeStart: Long
    const rangeEnd: Long
    const fileOffset: Long
    /** Whether a Context gave the task a resume store. */
    const hasStore: bool
    /** The digest of the key source (SHA-1 in the source). */
    const digest: string -> string
    /** Whether the task's state gate accepts a move from the first state to the second. */
    const legal: (TransferState, TransferState) -> bool
    const hasProgressListener: bool
    const hasResultListener: bool

    var eTag: Option<string>
    var hasWriteDataLen: Long
    var state: TransferState
    /** Whether the task holds a HEAD request. */
    var headRequest: bool
    /** The ranged GET the task holds, if any. */
    var getRequest: Option<GetRange>
    /** The resume store's contents. */
    var prefs: map<string, string>
    var notices: seq<Notice>
    var exception: Option<TaskException>
    var result: Option<TaskResult>

    /** A task with the given identity; the store starts with what earlier tasks left in it. */
    constructor (region: Option<string>, bucket: Option<string>, cosPath: Option<string>,
                 localSaveDirPath: Option<string>, localSaveFileName: Option<string>,
                 rangeStart: Long, rangeEnd: Long, fileOffset: Long,
                 hasStore: bool, prefs: map<string, string>,
                 digest: string -> string, legal: (TransferState, TransferState) -> bool,
                 hasProgressListener: bool, hasResultListener: bool)
      ensures this.region == region && this.bucket == bucket && this.cosPath == cosPath
      ensures this.localSaveDirPath == localSaveDirPath && this.localSaveFileName == localSaveFileName
      ensures this.rangeStart == rangeStart && this.rangeEnd == rangeEnd && this.fileOffset == fileOffset
      ensures this.hasStore == hasStore && this.prefs == prefs
      ensures this.digest == digest && this.legal == legal
      ensures this.hasProgressListener == hasProgressListener && this.hasResultListener == hasResultListener
      ensures eTag.None? && hasWriteDataLen == 0 && state == Waiting
      ensures !headRequest && getRequest.None? && notices == [] && exception.None? && result.None?
    {
      this.region, this.bucket, this.cosPath := region, bucket, cosPath;
      this.localSaveDirPath, this.localSaveFileName := localSaveDirPath, localSaveFileName;
      this.rangeStart, this.rangeEnd, this.fileOffset := rangeStart, rangeEnd, fileOffset;
      this.hasStore, this.prefs := hasStore, prefs;
      this.digest, this.legal := digest, legal;
      this.hasProgressListener, this.hasResultListener := hasProgressListener, hasResultListener;
      eTag, hasWriteDataLen, state := None, 0, Waiting;
      headRequest, getRequest := false, None;
      notices, exception, result := [], None, None;
    }

    /**
     * A task for a GET request: the byte range comes from the request's
     * `Range` header values and the file offset from the request; a header
     * the range parsing rejects means no task.
     */
    static method FromGetObjectRequest(region: Option<string>, bucket: Option<string>, cosPath: Option<string>,
                                       localSaveDirPath: Option<string>, localSaveFileName: Option<string>,
                                       rangeHeader: Option<seq<string>>, fileOffset: Long,
                                       hasStore: bool, prefs: map<string, string>,
                                       digest: string -> string, legal: (TransferState, TransferState) -> bool,
                                       hasProgressListener: bool, hasResultListener: bool)
      returns (r: Result<DownloadTask, RangeError>)
      ensures r.Err? <==> ParseRangeHeader(rangeHeader).Err?
      ensures r.Err? ==> r.error == ParseRangeHeader(rangeHeader).error
      ensures r.Ok? ==>
                fresh(r.value)
                && r.value.rangeStart == ParseRangeHeader(rangeHeader).value.0
                && r.value.rangeEnd == ParseRangeHeader(rangeHeader).value.1
                && r.value.fileOffset == fileOffset
                && r.value.region == region && r.value.bucket == bucket && r.value.cosPath == cosPath
                && r.value.localSaveDirPath == localSaveDirPath && r.value.localSaveFileName == localSaveFileName
                && r.value.hasStore == hasStore && r.value.prefs == prefs
                && r.value.digest == digest && r.value.legal == legal
                && r.value.hasProgressListener == hasProgressListener
                && r.value.hasResultListener == hasResultListener
                && r.value.eTag.None? && r.value.hasWriteDataLen == 0 && r.value.state == Waiting
                && !r.value.headRequest && r.value.getRequest.None? && r.value.notices == []
                && r.value.exception.None? && r.value.result.None?
    {
      match ParseRangeHeader(rangeHeader)
      case Err(e) =>
        r := Err(e);
      case Ok(range) =>
        var task := new DownloadTask(region, bucket, cosPath, localSaveDirPath, localSaveFileName,
                                     range.0, range.1, fileOffset, hasStore, prefs, digest, legal,
                                     hasProgressListener, hasResultListener);
        r := Ok(task);
    }

    /** The fields the resume key is built from, with the current ETag. */
    function KeyIdentity(): Identity
      reads this
    {
      Identity(region, bucket, cosPath, rangeStart, rangeEnd, fileOffset,
                            localSaveDirPath, localSaveFileName, eTag)
    }

    /** `getKey()`. */
    function GetKey(): (r: string)
      reads this
      ensures Injective(digest) ==>
                forall t: Option<string> :: Show(t) != Show(eTag) ==> Key(digest, KeyIdentity().(eTag := t)) != r
    {
      var k := Key(digest, KeyIdentity());
      assert Injective(digest) ==>
               forall t: Option<string> :: Show(t) != Show(eTag) ==> Key(digest, KeyIdentity().(eTag := t)) != k
      by {
        forall t: Option<string> | Injective(digest) && Show(t) != Show(eTag)
          ensures Key(digest, KeyIdentity().(eTag := t)) != k
        {
          KeyDiffersOnETag(digest, KeyIdentity(), t);
        }
      }
      k
    }

    /** `hasExisted()`. */
    function HasExisted(): (r: Option<string>)
      reads this
      ensures !hasStore ==> r.None?
      ensures hasStore ==> (r.Some? <==> GetKey() in prefs)
    {
      Lookup(hasStore, prefs, GetKey())
    }

    /** `getDownloadPath()`. */
    function GetDownloadPath(): (r: Option<string>)
      ensures r.None? <==> localSaveDirPath.None?
    {
      DownloadPath(localSaveDirPath, localSaveFileName, cosPath)
    }

    /** The gate every transition goes through. */
    method UpdateState(target: TransferState) returns (accepted: bool)
      modifies this`state
      ensures accepted == legal(old(state), target)
      ensures state == if accepted then target else old(state)
    {
      accepted := legal(state, target);
      if accepted {
        state := target;
      }
    }

    /** `save(path)`. */
    method Save(path: Option<string>)
      modifies this`prefs
      ensures prefs == Put(hasStore, old(prefs), GetKey(), path)
      ensures HasExisted() == if hasStore then path else None
    {
      prefs := Put(hasStore, prefs, GetKey(), path);
    }

    /** `clear()`. */
    method Clear()
      modifies this`prefs
      ensures prefs == Remove(hasStore, old(prefs), GetKey())
      ensures HasExisted().None?
    {
      prefs := Remove(hasStore, prefs, GetKey());
    }

    method NotifyProgress(complete: Long, target: Long)
      modifies this`notices
      ensures notices == old(notices) + if hasProgressListener then [Progress(complete, target)] else []
    {
      if hasProgressListener {
        notices := notices + [Progress(complete, target)];
      }
    }

    method NotifySuccess()
      modifies this`notices
      ensures notices == old(notices) + if hasResultListener then [Success] else []
    {
      if hasResultListener {
        notices := notices + [Success];
      }
    }

    method NotifyFailure(client: Option<string>, service: Option<string>)
      modifies this`notices
      ensures notices == old(notices) + if hasResultListener then [Failure(client, service)] else []
    {
      if hasResultListener {
        notices := notices + [Failure(client, service)];
      }
    }

    /** `download()`: check the parameters, move to Waiting and issue the HEAD probe. */
    method Download() returns (r: Outcome<ParameterError>)
      modifies this`state, this`headRequest
      ensures localSaveDirPath.None? ==>
                r == Fail(LocalSaveDirPathNull) && state == old(state) && headRequest == old(headRequest)
      ensures localSaveDirPath.Some? ==>
                r == Pass && headRequest && state == if legal(old(state), Waiting) then Waiting else old(state)
    {
      if localSaveDirPath.None? {
        return Fail(LocalSaveDirPathNull);
      }
      var _ := UpdateState(Waiting);
      headRequest := true;
      r := Pass;
    }

    /** The HEAD request has started executing. */
    method OnHeadExecuting()
      modifies this`state
      ensures state == if legal(old(state), InProgress) then InProgress else old(state)
    {
      var _ := UpdateState(InProgress);
    }

    /** `realDownload(start, end, offset)`: issue the ranged GET. */
    method RealDownload(get: GetRange)
      modifies this`getRequest
      ensures getRequest == Some(get)
    {
      getRequest := Some(get);
    }

    /**
     * What carrying out a HEAD-success decision does, from the given earlier
     * store, written count, GET, state and notices to the current ones.
     */
    predicate HeadEffects(plan: HeadPlan, prefs0: map<string, string>, written0: Long,
                          get0: Option<GetRange>, state0: TransferState, notices0: seq<Notice>)
      reads this
    {
      match plan
      case BadContentLength =>
        // `Long.valueOf` threw: nothing after it runs
        prefs == prefs0 && hasWriteDataLen == written0 && getRequest == get0
        && state == state0 && notices == notices0
      case Stalled =>
        prefs == prefs0 && hasWriteDataLen == written0 && getRequest == get0
        && state == state0 && notices == notices0
      case FreshStart(path, get) =>
        prefs == Put(hasStore, prefs0, GetKey(), path) && hasWriteDataLen == 0
        && getRequest == Some(get) && state == state0 && notices == notices0
      case Resume(written, get) =>
        prefs == prefs0 && hasWriteDataLen == written
        && getRequest == Some(get) && state == state0 && notices == notices0
      case AlreadyComplete(length) =>
        prefs == Remove(hasStore, prefs0, GetKey()) && hasWriteDataLen == written0 && getRequest == get0
        && (legal(state0, Completed) ==>
              state == Completed
              && notices == notices0
                            + (if hasProgressListener then [Progress(length, length)] else [])
                            + (if hasResultListener then [Success] else []))
        && (!legal(state0, Completed) ==> state == state0 && notices == notices0)
    }

    /** Carry out a HEAD-success decision. */
    method ApplyPlan(plan: HeadPlan)
      modifies this`prefs, this`hasWriteDataLen, this`getRequest, this`state, this`notices
      ensures HeadEffects(plan, old(prefs), old(hasWriteDataLen), old(getRequest), old(state), old(notices))
      ensures plan.AlreadyComplete? ==> HasExisted().None?
    {
      match plan
      case BadContentLength =>
      case Stalled =>
      case FreshStart(path, get) =>
        Save(path);
        hasWriteDataLen := 0;
        RealDownload(get);
      case Resume(written, get) =>
        hasWriteDataLen := written;
        RealDownload(get);
      case AlreadyComplete(length) =>
        var accepted := UpdateState(Completed);
        if accepted {
          NotifyProgress(length, length);
          NotifySuccess();
        }
        Clear();
    }

    /**
     * The HEAD probe answered with these ETag and Content-Length values, and
     * the file at the recorded path exists (or not) with this length. The
     * task decides as the source does (`PlanAsWritten`): a file as long as
     * the Content-Length is complete and reported as (L, L), and a record
     * whose file is missing leaves everything as it was. Returns whether
     * `Long.valueOf` threw on the Content-Length.
     */
    method OnHeadSuccess(eTags: Option<seq<string>>, contentLengths: Option<seq<string>>,
                         fileExists: bool, fileLength: Long) returns (thrown: bool)
      modifies this`eTag, this`prefs, this`hasWriteDataLen, this`getRequest, this`state, this`notices
      ensures eTag == if eTags.Some? && |eTags.value| > 0 then Some(eTags.value[0]) else old(eTag)
      ensures var plan := PlanAsWritten(Probe(Lookup(hasStore, old(prefs), GetKey()), fileExists, fileLength, contentLengths),
                                        rangeStart, rangeEnd, fileOffset, GetDownloadPath());
              thrown == plan.BadContentLength?
              && HeadEffects(plan, old(prefs), old(hasWriteDataLen), old(getRequest), old(state), old(notices))
      ensures Lookup(hasStore, old(prefs), GetKey()).Some? && !fileExists ==>
                prefs == old(prefs) && hasWriteDataLen == old(hasWriteDataLen) && getRequest == old(getRequest)
                && state == old(state) && notices == old(notices)
      ensures var record := Lookup(hasStore, old(prefs), GetKey());
              record.Some? && fileExists && contentLengths.Some? && |contentLengths.value| > 0
              && ParseLong(contentLengths.value[0]) == Some(fileLength) ==>
                getRequest == old(getRequest) && HasExisted().None?
                && (legal(old(state), Completed) ==>
                      notices == old(notices)
                                 + (if hasProgressListener then [Progress(fileLength, fileLength)] else [])
                                 + (if hasResultListener then [Success] else []))
    {
      if eTags.Some? && |eTags.value| > 0 {
        eTag := Some(eTags.value[0]);
      }
      var plan := PlanAsWritten(Probe(HasExisted(), fileExists, fileLength, contentLengths),
                                rangeStart, rangeEnd, fileOffset, GetDownloadPath());
      thrown := plan.BadContentLength?;
      ApplyPlan(plan);
    }

    /**
     * The same callback with the evidently intended decision (`Plan`):
     * complete only when every requested byte is in the file, and a fresh
     * start when the recorded file is missing.
     */
    method OnHeadSuccessCorrected(eTags: Option<seq<string>>, contentLengths: Option<seq<string>>,
                                  fileExists: bool, fileLength: Long) returns (thrown: bool)
      modifies this`eTag, this`prefs, this`hasWriteDataLen, this`getRequest, this`state, this`notices
      ensures eTag == if eTags.Some? && |eTags.value| > 0 then Some(eTags.value[0]) else old(eTag)
      ensures var plan := Plan(Probe(Lookup(hasStore, old(prefs), GetKey()), fileExists, fileLength, contentLengths),
                               rangeStart, rangeEnd, fileOffset, GetDownloadPath());
              thrown == plan.BadContentLength?
              && HeadEffects(plan, old(prefs), old(hasWriteDataLen), old(getRequest), old(state), old(notices))
      ensures Lookup(hasStore, old(prefs), GetKey()).Some? && !fileExists ==>
                prefs == Put(hasStore, old(prefs), GetKey(), GetDownloadPath()) && hasWriteDataLen == 0
                && getRequest == Some(GetRange(rangeStart, rangeEnd, fileOffset))
    {
      if eTags.Some? && |eTags.value| > 0 {
        eTag := Some(eTags.value[0]);
      }
      var plan := Plan(Probe(HasExisted(), fileExists, fileLength, contentLengths),
                       rangeStart, rangeEnd, fileOffset, GetDownloadPath());
      thrown := plan.BadContentLength?;
      ApplyPlan(plan);
    }

    /** The HEAD probe failed. */
    method OnHeadFail(client: Option<string>, service: Option<string>)
      modifies this`state, this`exception, this`notices
      ensures prefs == old(prefs)
      ensures legal(old(state), Failed) ==>
                state == Failed && exception == Chosen(client, service)
                && notices == old(notices) + if hasResultListener then [Failure(client, service)] else []
      ensures !legal(old(state), Failed) ==>
                state == old(state) && exception == old(exception) && notices == old(notices)
    {
      var accepted := UpdateState(Failed);
      if accepted {
        exception := Chosen(client, service);
        NotifyFailure(client, service);
      }
    }

    /** The GET reported `(complete, target)` for the bytes it is fetching. */
    method OnGetProgress(complete: Long, target: Long)
      modifies this`notices
      ensures var forwarded := ForwardProgress(hasWriteDataLen, complete, target);
              notices == old(notices) + if hasProgressListener then [Progress(forwarded.0, forwarded.1)] else []
    {
      var forwarded := ForwardProgress(hasWriteDataLen, complete, target);
      NotifyProgress(forwarded.0, forwarded.1);
    }

    /** The GET succeeded with this HTTP status. */
    method OnGetSuccess(httpCode: int)
      modifies this`state, this`result, this`notices, this`prefs
      ensures legal(old(state), Completed) ==>
                state == Completed && result == Some(TaskResult(httpCode, eTag))
                && notices == old(notices) + (if hasResultListener then [Success] else [])
                && prefs == Remove(hasStore, old(prefs), GetKey()) && HasExisted().None?
      ensures !legal(old(state), Completed) ==>
                state == old(state) && result == old(result) && notices == old(notices) && prefs == old(prefs)
    {
      var accepted := UpdateState(Completed);
      if accepted {
        result := Some(TaskResult(httpCode, eTag));
        NotifySuccess();
        Clear();
      }
    }

    /** The GET failed. */
    method OnGetFail(client: Option<string>, service: Option<string>)
      modifies this`state, this`exception, this`notices, this`prefs
      ensures legal(old(state), Failed) ==>
                state == Failed && exception == Chosen(client, service)
                && notices == old(notices) + (if hasResultListener then [Failure(client, service)] else [])
                && prefs == Remove(hasStore, old(prefs), GetKey()) && HasExisted().None?
      ensures !legal(old(state), Failed) ==>
                state == old(state) && exception == old(exception) && notices == old(notices) && prefs == old(prefs)
    {
      var accepted := UpdateState(Failed);
      if accepted {
        exception := Chosen(client, service);
        NotifyFailure(client, service);
        Clear();
      }
    }

    /** `pause()`: report the pause as a failure and drop both requests; the record stays. */
    method Pause()
      modifies this`state, this`exception, this`notices, this`headRequest, this`getRequest
      ensures prefs == old(prefs)
      ensures legal(old(state), Paused) ==>
                state == Paused && exception == Some(ClientException(PAUSED_MESSAGE))
                && notices == old(notices) + (if hasResultListener then [Failure(Some(PAUSED_MESSAGE), None)] else [])
                && !headRequest && getRequest.None?
      ensures !legal(old(state), Paused) ==>
                state == old(state) && exception == old(exception) && notices == old(notices)
                && headRequest == old(headRequest) && getRequest == old(getRequest)
    {
      var accepted := UpdateState(Paused);
      if accepted {
        exception := Some(ClientException(PAUSED_MESSAGE));
        NotifyFailure(Some(PAUSED_MESSAGE), None);
        headRequest := false;
        getRequest := None;
      }
    }

    /** `cancel()`: clear the record, report the cancellation as a failure and drop both requests. */
    method Cancel()
      modifies this`state, this`exception, this`notices, this`headRequest, this`getRequest, this`prefs
      ensures legal(old(state), Canceled) ==>
                state == Canceled && exception == Some(ClientException(CANCELED_MESSAGE))
                && prefs == Remove(hasStore, old(prefs), GetKey()) && HasExisted().None?
                && notices == old(notices) + (if hasResultListener then [Failure(Some(CANCELED_MESSAGE), None)] else [])
                && !headRequest && getRequest.None?
      ensures !legal(old(state), Canceled) ==>
                state == old(state) && exception == old(exception) && notices == old(notices)
                && prefs == old(prefs) && headRequest == old(headRequest) && getRequest == old(getRequest)
    {
      var accepted := UpdateState(Canceled);
      if accepted {
        exception := Some(ClientException(CANCELED_MESSAGE));
        Clear();
        NotifyFailure(Some(CANCELED_MESSAGE), None);
        headRequest := false;
        getRequest := None;
      }
    }

    /** `resume()`: move to ResumedWaiting and run `download()` again. */
    method Resume() returns (r: Outcome<ParameterError>)
      modifies this`state, this`headRequest
      ensures prefs == old(prefs)
      ensures !legal(old(state), ResumedWaiting) ==>
                r == Pass && state == old(state) && headRequest == old(headRequest)
      ensures legal(old(state), ResumedWaiting) && localSaveDirPath.None? ==>
                r == Fail(LocalSaveDirPathNull) && state == ResumedWaiting && headRequest == old(headRequest)
      ensures legal(old(state), ResumedWaiting) && localSaveDirPath.Some? ==>
                r == Pass && headRequest
                && state == if legal(ResumedWaiting, Waiting) then Waiting else ResumedWaiting
    {
      r := Pass;
      var accepted := UpdateState(ResumedWaiting);
      if accepted {
        r := Download();
      }
    }
  }
}
