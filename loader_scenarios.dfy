/**
 * Whole lifecycles of one loading request, driven the way AVFoundation
 * and URLSession drive the loader: registration, then header, data and
 * completion callbacks, with or without a cancellation by the player.
 * Each result is what the callbacks' contracts alone imply.
 */
module LoaderScenarios {
  import opened Wrappers
  import opened Decimal
  import opened UrlScheme
  import opened StreamLoader

  const CANCELLED := UrlError(NSURL_ERROR_CANCELLED)

  /**
   * The player cancels an accepted request and the transport then
   * reports the cancellation: the request is finished once, with the
   * cancellation error, and both maps are empty again.
   */
  method CancelThenComplete(url: Url, range: DataRequest)
    returns (finished: bool, ghost finishCount: nat, error: Option<LoadError>, registryEmpty: bool, requestMapEmpty: bool)
    requires range.requestedOffset >= 0 && range.requestedLength >= 1
    requires range.requestedOffset + range.requestedLength <= INT64_MAX
    ensures finished && finishCount == 1 && error == Some(TransportFailure(CANCELLED))
    ensures registryEmpty && requestMapEmpty
  {
    var loader := new ResourceLoaderDelegate(None);
    var request := new LoadingRequest(Some(url), Some(range), None);
    var accepted := loader.ShouldWaitForLoadingOfRequestedResource(request);
    var id := loader.requestMap[request].taskIdentifier;
    var cancelled := loader.DidCancel(request);
    var completed := loader.delegate.DidCompleteWithError(id, Some(CANCELLED));
    finished := request.finished;
    finishCount := request.finishCount;
    error := request.error;
    registryEmpty := loader.delegate.taskRequestMap == map[];
    requestMapEmpty := loader.requestMap == map[];
  }

  /**
   * A successful fetch: a 2xx response, two chunks, completion without
   * error. The bytes reach the player in order and are counted; the
   * registry entry goes, but the request map keeps its entry, since only
   * cancellation removes it.
   */
  method FetchTwoChunks(url: Url, range: DataRequest, mime: string, first: seq<Byte>, second: seq<Byte>)
    returns (received: seq<Byte>, finishedWithoutError: bool, ghost finishCount: nat, registryEmpty: bool, requestMapKeepsEntry: bool)
    requires range.requestedOffset >= 0 && range.requestedLength >= 1
    requires range.requestedOffset + range.requestedLength <= INT64_MAX
    ensures received == first + second
    ensures finishCount == 1
    ensures finishedWithoutError && registryEmpty && requestMapKeepsEntry
  {
    var loader := new ResourceLoaderDelegate(None);
    var request := new LoadingRequest(Some(url), Some(range), None);
    var accepted := loader.ShouldWaitForLoadingOfRequestedResource(request);
    var id := loader.requestMap[request].taskIdentifier;
    var registryEntry := loader.delegate.taskRequestMap[id];
    var allowed := loader.delegate.DidReceiveResponse(id, HttpUrlResponse(206, Some(mime), None, None), map[]);
    assert allowed == Done(Allow);
    var r1 := loader.delegate.DidReceiveData(id, first);
    var r2 := loader.delegate.DidReceiveData(id, second);
    assert registryEntry.dataCount == |first| + |second|;
    var completed := loader.delegate.DidCompleteWithError(id, None);
    received := request.received;
    finishCount := request.finishCount;
    finishedWithoutError := request.finished && request.error == None;
    registryEmpty := loader.delegate.taskRequestMap == map[];
    requestMapKeepsEntry := request in loader.requestMap;
  }

  /**
   * A 404 that still names a MIME type is refused: the request is
   * finished with the status error and the task cancelled; the
   * completion that follows does not finish the request a second time.
   */
  method RefusedResponse(url: Url, range: DataRequest, mime: string)
    returns (disposition: Outcome<ResponseDisposition>, finished: bool, ghost finishCount: nat, error: Option<LoadError>, registryEmpty: bool)
    requires range.requestedOffset >= 0 && range.requestedLength >= 1
    requires range.requestedOffset + range.requestedLength <= INT64_MAX
    ensures disposition == Done(Cancel)
    ensures finished && finishCount == 1 && error == Some(RuntimeError(BAD_STATUS_MESSAGE))
    ensures registryEmpty
  {
    var loader := new ResourceLoaderDelegate(None);
    var request := new LoadingRequest(Some(url), Some(range), None);
    var accepted := loader.ShouldWaitForLoadingOfRequestedResource(request);
    var id := loader.requestMap[request].taskIdentifier;
    disposition := loader.delegate.DidReceiveResponse(id, HttpUrlResponse(404, Some(mime), None, None), map[]);
    var completed := loader.delegate.DidCompleteWithError(id, Some(CANCELLED));
    finished := request.finished;
    finishCount := request.finishCount;
    error := request.error;
    registryEmpty := loader.delegate.taskRequestMap == map[];
  }

  /** Cancelling the same request twice stops the process on the second call. */
  method CancelTwice(url: Url, range: DataRequest) returns (first: Outcome<()>, second: Outcome<()>)
    requires range.requestedOffset >= 0 && range.requestedLength >= 1
    requires range.requestedOffset + range.requestedLength <= INT64_MAX
    ensures first == Done(()) && second == Fatal(MissingTask)
  {
    var loader := new ResourceLoaderDelegate(None);
    var request := new LoadingRequest(Some(url), Some(range), None);
    var accepted := loader.ShouldWaitForLoadingOfRequestedResource(request);
    first := loader.DidCancel(request);
    second := loader.DidCancel(request);
  }

  /** Two requests get distinct tasks, and data for one leaves the other's count alone. */
  method TwoRequests(url: Url, range: DataRequest, chunk: seq<Byte>)
    returns (distinctTasks: bool, firstCount: int, secondCount: int)
    requires range.requestedOffset >= 0 && range.requestedLength >= 1
    requires range.requestedOffset + range.requestedLength <= INT64_MAX
    ensures distinctTasks && firstCount == |chunk| && secondCount == 0
  {
    var loader := new ResourceLoaderDelegate(None);
    var a := new LoadingRequest(Some(url), Some(range), None);
    var b := new LoadingRequest(Some(url), Some(range), None);
    var acceptedA := loader.ShouldWaitForLoadingOfRequestedResource(a);
    var idA := loader.requestMap[a].taskIdentifier;
    var acceptedB := loader.ShouldWaitForLoadingOfRequestedResource(b);
    var idB := loader.requestMap[b].taskIdentifier;
    distinctTasks := idA != idB && loader.requestMap[a] != loader.requestMap[b];
    var delivered := loader.delegate.DidReceiveData(idA, chunk);
    firstCount := loader.delegate.taskRequestMap[idA].dataCount;
    secondCount := loader.delegate.taskRequestMap[idB].dataCount;
  }
}
