/**
 * The streaming resource loader: `StreamResourceLoaderDelegate`, which
 * AVFoundation asks to load byte ranges of a `ctls…` URL, and
 * `StreamUrlSessionDataDelegate`, which receives the URLSession callbacks
 * of the ranged requests it issues and feeds the bytes back to the player.
 *
 * The platform objects (AVAssetResourceLoadingRequest, URLSessionDataTask,
 * URLSession) are classes holding just the state the loader reads and
 * writes. Every `fatalError()` on a modelled path, and the trap of an
 * overflowing Swift `Int` addition, is a `Fatal` outcome: the process stops
 * there, and the state is left as it was at that point.
 */
module StreamLoader {
  import opened Wrappers
  import opened Decimal
  import opened HttpRange
  import opened UrlScheme
  import Auth

  newtype Byte = b: int | 0 <= b < 256

  /** `NSURLErrorCancelled`. */
  const NSURL_ERROR_CANCELLED: int := -999

  /** The error a URLSession task completes with. */
  datatype TransportError = UrlError(errorCode: int) | OtherError(description: string)

  /** `(error as? URLError)?.errorCode == NSURLErrorCancelled`. */
  function IsCancellation(e: TransportError): (b: bool)
    ensures b <==> e == UrlError(NSURL_ERROR_CANCELLED)
  {
    e.UrlError? && e.errorCode == NSURL_ERROR_CANCELLED
  }

  /** What a loading request is finished with: `TlsLoaderError.runtimeError` or the transport's own error. */
  datatype LoadError = RuntimeError(message: string) | TransportFailure(cause: TransportError)

  const BAD_STATUS_MESSAGE := "bad status/response"
  const NO_MIME_TYPE_MESSAGE := "no mime type"

  datatype FatalReason =
    | UnknownTask                 // no registry entry for a task's callback
    | UnexpectedError             // a completion error other than cancellation
    | AllowedContentTypesPreset   // the player pre-set the allowed content types
    | MissingTask                 // a cancelled loading request with no task
    | ArithmeticOverflow          // a Swift `Int` addition left 64 bits
    | UnsupportedCallback         // a callback whose whole body is `fatalError()`

  datatype Outcome<T> = Done(value: T) | Fatal(reason: FatalReason)

  /** `AVAssetResourceLoadingDataRequest`: the byte range the player wants. */
  datatype DataRequest = DataRequest(requestedOffset: Int64, requestedLength: Int64)

  /** The fields of `AVAssetResourceLoadingContentInformationRequest`. */
  datatype ContentInformation = ContentInformation(
    contentType: Option<string>,
    contentLength: int,
    isByteRangeAccessSupported: bool,
    allowedContentTypes: Option<seq<string>>)

  /** A uniform type identifier, the result of `UTType(mimeType:)`. */
  datatype UTType = UTType(identifier: string)

  /** A `URLResponse`, which is an `HTTPURLResponse` for HTTP(S) traffic. */
  datatype UrlResponse =
    | HttpUrlResponse(
        statusCode: int,
        mimeType: Option<string>,
        acceptRanges: Option<string>,   // value(forHTTPHeaderField: "Accept-Ranges")
        contentRange: Option<string>)   // value(forHTTPHeaderField: "Content-Range")
    | OtherUrlResponse(mimeType: Option<string>)

  datatype ResponseDisposition = Cancel | Allow | BecomeDownload | BecomeStream

  /** `AVAssetResourceLoadingRequest`, as far as the loader reads and writes it. */
  class LoadingRequest {
    const url: Option<Url>
    const dataRequest: Option<DataRequest>
    /** None when the request has no content-information part. */
    var contentInformation: Option<ContentInformation>
    /** Everything handed to `dataRequest.respond(with:)`, in order. */
    var received: seq<Byte>
    var finished: bool
    var error: Option<LoadError>
    /** How often `finishLoading` was called. */
    ghost var finishCount: nat

    constructor (url: Option<Url>, dataRequest: Option<DataRequest>, contentInformation: Option<ContentInformation>)
      ensures this.url == url && this.dataRequest == dataRequest
      ensures this.contentInformation == contentInformation
      ensures received == [] && !finished && error == None && finishCount == 0
    {
      this.url := url;
      this.dataRequest := dataRequest;
      this.contentInformation := contentInformation;
      received := [];
      finished := false;
      error := None;
      finishCount := 0;
    }

    /** `dataRequest.respond(with:)`. */
    method Respond(data: seq<Byte>)
      modifies this
      ensures received == old(received) + data
      ensures contentInformation == old(contentInformation)
      ensures finished == old(finished) && error == old(error) && finishCount == old(finishCount)
    {
      received := received + data;
    }

    /** `finishLoading()` for None, `finishLoading(with:)` otherwise. */
    method FinishLoading(e: Option<LoadError>)
      modifies this
      ensures finished && error == e && finishCount == old(finishCount) + 1
      ensures received == old(received) && contentInformation == old(contentInformation)
    {
      finished := true;
      error := e;
      finishCount := finishCount + 1;
    }
  }

  /** `RequestData`: one registry entry. */
  class RequestData {
    // A `var` in the source that nothing reassigns.
    const loadingRequest: LoadingRequest
    var dataCount: int
    var utType: Option<UTType>

    constructor (loadingRequest: LoadingRequest)
      ensures this.loadingRequest == loadingRequest && dataCount == 0 && utType == None
    {
      this.loadingRequest := loadingRequest;
      dataCount := 0;
      utType := None;
    }
  }

  /** Why a response is refused, checked in the source's order: status first, then MIME type. */
  function Rejection(response: UrlResponse): (e: Option<LoadError>)
    ensures e.None? <==> response.HttpUrlResponse? && 200 <= response.statusCode <= 299 && response.mimeType.Some?
    ensures !(response.HttpUrlResponse? && 200 <= response.statusCode <= 299) ==>
              e == Some(RuntimeError(BAD_STATUS_MESSAGE))
    ensures response.HttpUrlResponse? && 200 <= response.statusCode <= 299 && response.mimeType.None? ==>
              e == Some(RuntimeError(NO_MIME_TYPE_MESSAGE))
  {
    match response
    case OtherUrlResponse(_) => Some(RuntimeError(BAD_STATUS_MESSAGE))
    case HttpUrlResponse(status, mime, _, _) =>
      if !(200 <= status <= 299) then Some(RuntimeError(BAD_STATUS_MESSAGE))
      else if mime.None? then Some(RuntimeError(NO_MIME_TYPE_MESSAGE))
      else None
  }

  /** A bad status is refused even when a MIME type is present: the status check comes first. */
  lemma StatusDominatesMimeType(status: int, mime: string, acceptRanges: Option<string>, contentRange: Option<string>)
    requires !(200 <= status <= 299)
    ensures Rejection(HttpUrlResponse(status, Some(mime), acceptRanges, contentRange)) ==
            Some(RuntimeError(BAD_STATUS_MESSAGE))
  {
  }

  /** `UTType(mimeType:)`, a partial function the platform supplies as a table. */
  function TypeForMime(platformTypes: map<string, UTType>, mime: string): Option<UTType> {
    if mime in platformTypes then Some(platformTypes[mime]) else None
  }

  function IdentifierOf(t: Option<UTType>): Option<string> {
    match t
    case None => None
    case Some(u) => Some(u.identifier)
  }

  /** The content length a response leaves: the parsed `Content-Range` total, or else the old value. */
  function ContentLengthAfter(previous: int, contentRange: Option<string>): (r: int)
    ensures contentRange.Some? && ParseContentRange(contentRange.value).Some? ==>
              r == ParseContentRange(contentRange.value).value
    ensures contentRange.None? || ParseContentRange(contentRange.value).None? ==> r == previous
  {
    match contentRange
    case None => previous
    case Some(h) =>
      match ParseContentRange(h)
      case None => previous
      case Some(total) => total
  }

  /**
   * The session-level challenge route of `StreamUrlSessionDataDelegate`:
   * the configured auth delegate answers it, and without one the session
   * performs default handling.
   */
  function RouteSessionChallenge(authDelegate: Option<Auth.AuthDelegate>, c: Auth.Challenge)
    : (r: (Auth.Disposition, Option<Auth.Credential>))
    ensures r.0 == Auth.UseCredential <==> authDelegate.Some? && Auth.Answers(authDelegate.value, c)
    ensures r.0 != Auth.UseCredential ==> r == (Auth.PerformDefaultHandling, None)
    ensures r.0 == Auth.UseCredential ==>
              r.1 == Some(Auth.ClientCredential(authDelegate.value.identity.value, Auth.ForSession))
  {
    match authDelegate
    case None => (Auth.PerformDefaultHandling, None)
    case Some(d) => Auth.HandleChallenge(d, c)
  }

  /** Having no auth delegate and having one without an identity are indistinguishable. */
  lemma NoDelegateIsEmptyIdentity(c: Auth.Challenge)
    ensures RouteSessionChallenge(None, c) == RouteSessionChallenge(Some(Auth.AuthDelegate(None)), c)
  {
  }

  /** `StreamUrlSessionDataDelegate`: the registry of live tasks, keyed by task identifier. */
  class SessionDataDelegate {
    var taskRequestMap: map<int, RequestData>
    const authDelegate: Option<Auth.AuthDelegate>

    /** Every task has a registry entry of its own. */
    ghost predicate Valid()
      reads this
    {
      forall i, j :: i in taskRequestMap && j in taskRequestMap && i != j ==> taskRequestMap[i] != taskRequestMap[j]
    }

    /** The objects a callback for `taskId` may change: its entry and its loading request. */
    ghost function Entry(taskId: int): set<object>
      reads this
    {
      if taskId in taskRequestMap then {taskRequestMap[taskId], taskRequestMap[taskId].loadingRequest} else {}
    }

    constructor (authDelegate: Option<Auth.AuthDelegate>)
      ensures Valid() && taskRequestMap == map[] && this.authDelegate == authDelegate
    {
      taskRequestMap := map[];
      this.authDelegate := authDelegate;
    }

    /** `urlSession(_:dataTask:didReceive:)` with a chunk of data. */
    method DidReceiveData(taskId: int, data: seq<Byte>) returns (o: Outcome<()>)
      requires Valid()
      modifies Entry(taskId)
      ensures Valid()
      ensures o.Fatal? <==> taskId !in taskRequestMap
      ensures o.Fatal? ==> o.reason == UnknownTask
      ensures taskId in taskRequestMap ==>
                var rd := taskRequestMap[taskId];
                var lr := rd.loadingRequest;
                && rd.dataCount == old(rd.dataCount) + |data|
                && rd.utType == old(rd.utType)
                && lr.received == (if lr.dataRequest.Some? then old(lr.received) + data else old(lr.received))
                && lr.contentInformation == old(lr.contentInformation)
                && lr.finished == old(lr.finished) && lr.error == old(lr.error)
                && lr.finishCount == old(lr.finishCount)
      ensures forall j :: j in taskRequestMap && j != taskId ==>
                taskRequestMap[j].dataCount == old(taskRequestMap[j].dataCount)
                && taskRequestMap[j].utType == old(taskRequestMap[j].utType)
    {
      if taskId !in taskRequestMap {
        return Fatal(UnknownTask);
      }
      var requestData := taskRequestMap[taskId];
      if requestData.loadingRequest.dataRequest.Some? {
        requestData.loadingRequest.Respond(data);
      }
      requestData.dataCount := requestData.dataCount + |data|;
      return Done(());
    }

    /**
     * `urlSession(_:task:didCompleteWithError:)`. A request not yet
     * finished is finished, with the task's error if there is one; any
     * error but cancellation then stops the process. The entry goes.
     */
    method DidCompleteWithError(taskId: int, error: Option<TransportError>) returns (o: Outcome<()>)
      requires Valid()
      modifies this, Entry(taskId)
      ensures Valid()
      ensures taskId !in old(taskRequestMap) ==> o == Fatal(UnknownTask) && taskRequestMap == old(taskRequestMap)
      ensures taskId in old(taskRequestMap) ==>
                var rd := old(taskRequestMap[taskId]);
                var lr := rd.loadingRequest;
                && rd.dataCount == old(rd.dataCount) && rd.utType == old(rd.utType)
                && lr.received == old(lr.received) && lr.contentInformation == old(lr.contentInformation)
                && (old(lr.finished) ==>
                      && lr.finished && lr.error == old(lr.error) && lr.finishCount == old(lr.finishCount)
                      && o == Done(()) && taskRequestMap == old(taskRequestMap) - {taskId})
                && (!old(lr.finished) ==>
                      && lr.finished && lr.finishCount == old(lr.finishCount) + 1
                      && lr.error == (if error.Some? then Some(TransportFailure(error.value)) else None))
                && (!old(lr.finished) && error.Some? && !IsCancellation(error.value) ==>
                      o == Fatal(UnexpectedError) && taskRequestMap == old(taskRequestMap))
                && (!old(lr.finished) && (error.None? || IsCancellation(error.value)) ==>
                      o == Done(()) && taskRequestMap == old(taskRequestMap) - {taskId})
    {
      if taskId !in taskRequestMap {
        return Fatal(UnknownTask);
      }
      var requestData := taskRequestMap[taskId];
      var loadingRequest := requestData.loadingRequest;
      if !loadingRequest.finished {
        match error {
          case Some(e) =>
            loadingRequest.FinishLoading(Some(TransportFailure(e)));
            if !IsCancellation(e) {
              return Fatal(UnexpectedError);
            }
          case None =>
            loadingRequest.FinishLoading(None);
        }
      }
      taskRequestMap := taskRequestMap - {taskId};
      return Done(());
    }

    /**
     * `urlSession(_:dataTask:didReceive:completionHandler:)` with the
     * response headers: a refused response finishes the request with an
     * error and cancels the task; an accepted one records its type and,
     * for a content-information request, fills in the metadata.
     */
    method DidReceiveResponse(taskId: int, response: UrlResponse, platformTypes: map<string, UTType>)
      returns (o: Outcome<ResponseDisposition>)
      requires Valid()
      modifies Entry(taskId)
      ensures Valid()
      ensures taskId !in taskRequestMap ==> o == Fatal(UnknownTask)
      ensures taskId in taskRequestMap ==>
                var rd := taskRequestMap[taskId];
                var lr := rd.loadingRequest;
                && rd.dataCount == old(rd.dataCount)
                && lr.received == old(lr.received)
                && (Rejection(response).Some? ==>
                      && o == Done(Cancel)
                      && lr.finished && lr.error == Rejection(response)
                      && lr.finishCount == old(lr.finishCount) + 1
                      && rd.utType == old(rd.utType)
                      && lr.contentInformation == old(lr.contentInformation))
                && (Rejection(response).None? ==>
                      && rd.utType == TypeForMime(platformTypes, response.mimeType.value)
                      && lr.finished == old(lr.finished) && lr.error == old(lr.error)
                      && lr.finishCount == old(lr.finishCount))
      ensures taskId in taskRequestMap && Rejection(response).None? ==>
                var lr := taskRequestMap[taskId].loadingRequest;
                && (old(lr.contentInformation).None? ==> o == Done(Allow) && lr.contentInformation == None)
                && (old(lr.contentInformation).Some? && old(lr.contentInformation).value.allowedContentTypes.Some? ==>
                      o == Fatal(AllowedContentTypesPreset) && lr.contentInformation == old(lr.contentInformation))
                && (old(lr.contentInformation).Some? && old(lr.contentInformation).value.allowedContentTypes.None? ==>
                      && o == Done(Allow)
                      && lr.contentInformation.Some?
                      && lr.contentInformation.value.contentType ==
                         IdentifierOf(TypeForMime(platformTypes, response.mimeType.value))
                      && (lr.contentInformation.value.isByteRangeAccessSupported <==> response.acceptRanges == Some("bytes"))
                      && lr.contentInformation.value.contentLength ==
                         ContentLengthAfter(old(lr.contentInformation).value.contentLength, response.contentRange)
                      && lr.contentInformation.value.allowedContentTypes.None?)
    {
      if taskId !in taskRequestMap {
        return Fatal(UnknownTask);
      }
      var requestData := taskRequestMap[taskId];
      var loadingRequest := requestData.loadingRequest;
      var rejection := Rejection(response);
      if rejection.Some? {
        loadingRequest.FinishLoading(rejection);
        return Done(Cancel);
      }
      requestData.utType := TypeForMime(platformTypes, response.mimeType.value);
      match loadingRequest.contentInformation {
        case None =>
        case Some(cir) =>
          if cir.allowedContentTypes.Some? {
            return Fatal(AllowedContentTypesPreset);
          }
          var info := cir.(contentType := IdentifierOf(requestData.utType));
          info := info.(isByteRangeAccessSupported := response.acceptRanges == Some("bytes"));
          info := info.(contentLength := ContentLengthAfter(info.contentLength, response.contentRange));
          loadingRequest.contentInformation := Some(info);
      }
      return Done(Allow);
    }

    /** `urlSession(_:didReceive:completionHandler:)`: the session-level challenge. */
    method DidReceiveChallenge(challenge: Auth.Challenge)
      returns (disposition: Auth.Disposition, credential: Option<Auth.Credential>)
      ensures (disposition, credential) == RouteSessionChallenge(authDelegate, challenge)
    {
      var answer := RouteSessionChallenge(authDelegate, challenge);
      disposition, credential := answer.0, answer.1;
    }

    /** `urlSession(_:task:didReceive:completionHandler:)`: a per-task challenge stops the process. */
    method DidReceiveTaskChallenge(taskId: int, challenge: Auth.Challenge) returns (o: Outcome<()>)
      ensures o == Fatal(UnsupportedCallback)
    {
      return Fatal(UnsupportedCallback);
    }
  }

  datatype TaskState = Suspended | Running | Canceling

  /** A `URLRequest`: the URL and the header fields set on it. */
  datatype UrlRequest = UrlRequest(url: Url, headers: map<string, string>)

  /** `URLSessionDataTask`. */
  class DataTask {
    const taskIdentifier: int
    const originalRequest: UrlRequest
    var state: TaskState

    constructor (taskIdentifier: int, originalRequest: UrlRequest)
      ensures this.taskIdentifier == taskIdentifier && this.originalRequest == originalRequest
      ensures state == Suspended
    {
      this.taskIdentifier := taskIdentifier;
      this.originalRequest := originalRequest;
      state := Suspended;
    }

    method Resume()
      modifies this
      ensures state == if old(state) == Suspended then Running else old(state)
    {
      if state == Suspended {
        state := Running;
      }
    }

    /** Cancellation only asks the transport to stop; completion is reported later. */
    method Cancel()
      modifies this
      ensures state == Canceling
    {
      state := Canceling;
    }
  }

  /** `URLSession`, as a source of task identifiers that are unique within the session. */
  class Session {
    var nextTaskIdentifier: int

    constructor ()
      ensures nextTaskIdentifier == 0
    {
      nextTaskIdentifier := 0;
    }

    /** `dataTask(with:)`. */
    method CreateDataTask(request: UrlRequest) returns (task: DataTask)
      modifies this
      ensures fresh(task)
      ensures task.taskIdentifier == old(nextTaskIdentifier) && task.originalRequest == request
      ensures task.state == Suspended
      ensures nextTaskIdentifier == old(nextTaskIdentifier) + 1
    {
      task := new DataTask(nextTaskIdentifier, request);
      nextTaskIdentifier := nextTaskIdentifier + 1;
    }
  }

  /** The `Range` header field of the request issued for a data request, when its bounds do not overflow. */
  function RangeRequest(url: Url, dr: DataRequest): (r: Option<UrlRequest>)
    ensures r.Some? <==> LastByteIndex(dr.requestedOffset, dr.requestedLength).Some?
    ensures r.Some? ==>
              && r.value.url == TransformUrlScheme(url)
              && r.value.headers.Keys == {"Range"}
              && r.value.headers["Range"] ==
                 RangeHeaderValue(dr.requestedOffset, dr.requestedOffset + dr.requestedLength - 1)
  {
    match LastByteIndex(dr.requestedOffset, dr.requestedLength)
    case None => None
    case Some(upper) =>
      Some(UrlRequest(TransformUrlScheme(url), map["Range" := RangeHeaderValue(dr.requestedOffset, upper)]))
  }

  /** `StreamResourceLoaderDelegate`: the AVFoundation side, keyed by loading request. */
  class ResourceLoaderDelegate {
    const delegate: SessionDataDelegate
    const session: Session
    var requestMap: map<LoadingRequest, DataTask>

    /** The registry is well formed and all its identifiers were issued by the session. */
    ghost predicate Valid()
      reads this, delegate, session
    {
      && delegate.Valid()
      && (forall id :: id in delegate.taskRequestMap ==> id < session.nextTaskIdentifier)
    }

    ghost function TaskOf(loadingRequest: LoadingRequest): set<object>
      reads this
    {
      if loadingRequest in requestMap then {requestMap[loadingRequest]} else {}
    }

    constructor (authDelegate: Option<Auth.AuthDelegate>)
      ensures Valid() && fresh(delegate) && fresh(session)
      ensures requestMap == map[] && delegate.taskRequestMap == map[]
      ensures delegate.authDelegate == authDelegate
    {
      delegate := new SessionDataDelegate(authDelegate);
      session := new Session();
      requestMap := map[];
    }

    /**
     * `resourceLoader(_:shouldWaitForLoadingOfRequestedResource:)`.
     * Without a data request or a URL the answer is no; otherwise a ranged
     * request for exactly the requested bytes is issued and registered
     * under both the loading request and the new task's identifier.
     */
    method ShouldWaitForLoadingOfRequestedResource(loadingRequest: LoadingRequest) returns (o: Outcome<bool>)
      requires Valid()
      modifies this, delegate, session
      ensures Valid()
      ensures loadingRequest.dataRequest.None? || loadingRequest.url.None? ==>
                && o == Done(false)
                && requestMap == old(requestMap)
                && delegate.taskRequestMap == old(delegate.taskRequestMap)
                && session.nextTaskIdentifier == old(session.nextTaskIdentifier)
      ensures loadingRequest.dataRequest.Some? && loadingRequest.url.Some? &&
              RangeRequest(loadingRequest.url.value, loadingRequest.dataRequest.value).None? ==>
                && o == Fatal(ArithmeticOverflow)
                && requestMap == old(requestMap)
                && delegate.taskRequestMap == old(delegate.taskRequestMap)
      ensures loadingRequest.dataRequest.Some? && loadingRequest.url.Some? &&
              RangeRequest(loadingRequest.url.value, loadingRequest.dataRequest.value).Some? ==>
                var id := old(session.nextTaskIdentifier);
                && o == Done(true)
                && loadingRequest in requestMap
                && var task := requestMap[loadingRequest];
                && fresh(task)
                && task.taskIdentifier == id
                && task.originalRequest == RangeRequest(loadingRequest.url.value, loadingRequest.dataRequest.value).value
                && task.state == Running
                && requestMap == old(requestMap)[loadingRequest := task]
                && id !in old(delegate.taskRequestMap)
                && id in delegate.taskRequestMap
                && delegate.taskRequestMap == old(delegate.taskRequestMap)[id := delegate.taskRequestMap[id]]
                && var rd := delegate.taskRequestMap[id];
                && fresh(rd)
                && rd.loadingRequest == loadingRequest && rd.dataCount == 0 && rd.utType == None
    {
      if loadingRequest.dataRequest.None? || loadingRequest.url.None? {
        return Done(false);
      }
      var request := RangeRequest(loadingRequest.url.value, loadingRequest.dataRequest.value);
      if request.None? {
        return Fatal(ArithmeticOverflow);
      }
      var task := session.CreateDataTask(request.value);
      requestMap := requestMap[loadingRequest := task];
      var requestData := new RequestData(loadingRequest);
      delegate.taskRequestMap := delegate.taskRequestMap[task.taskIdentifier := requestData];
      task.Resume();
      return Done(true);
    }

    /**
     * `resourceLoader(_:didCancel:)` for a loading request: its task is
     * taken out of the request map and cancelled; the registry entry stays
     * until the transport reports completion. An unknown request stops the
     * process.
     */
    method DidCancel(loadingRequest: LoadingRequest) returns (o: Outcome<()>)
      requires Valid()
      modifies this, TaskOf(loadingRequest)
      ensures Valid()
      ensures delegate.taskRequestMap == old(delegate.taskRequestMap)
      ensures loadingRequest !in old(requestMap) ==> o == Fatal(MissingTask) && requestMap == old(requestMap)
      ensures loadingRequest in old(requestMap) ==>
                && o == Done(())
                && requestMap == old(requestMap) - {loadingRequest}
                && old(requestMap)[loadingRequest].state == Canceling
    {
      if loadingRequest !in requestMap {
        return Fatal(MissingTask);
      }
      var task := requestMap[loadingRequest];
      requestMap := requestMap - {loadingRequest};
      task.Cancel();
      return Done(());
    }

    /** `resourceLoader(_:shouldWaitForResponseTo:)`: the loader never waits for an authentication challenge. */
    method ShouldWaitForResponseToAuthenticationChallenge(challenge: Auth.Challenge) returns (wait: bool)
      ensures !wait
    {
      return false;
    }

    /** `resourceLoader(_:didCancel:)` for an authentication challenge stops the process. */
    method DidCancelAuthenticationChallenge(challenge: Auth.Challenge) returns (o: Outcome<()>)
      ensures o == Fatal(UnsupportedCallback)
    {
      return Fatal(UnsupportedCallback);
    }

    /** `resourceLoader(_:shouldWaitForRenewalOfRequestedResource:)`: renewal stops the process. */
    method ShouldWaitForRenewalOfRequestedResource(loadingRequest: LoadingRequest) returns (o: Outcome<bool>)
      ensures o == Fatal(UnsupportedCallback)
    {
      return Fatal(UnsupportedCallback);
    }
  }
}
