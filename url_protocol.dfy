/**
 * The URL-loading interception layer (`HLSSegmentURLProtocol`): it claims
 * playlist and segment requests that have not been through it yet, serves
 * what the segment store holds, and otherwise fetches the request once more,
 * marked so that the fetch is not claimed again, forwarding what arrives to
 * its client and writing the body through to the store.
 */
module URLProtocolLayer {
  import opened Wrappers
  import opened Text
  import opened Platform
  import opened SegmentStore

  /** A `URLRequest`: its URL, if any, and whether it carries the handled marker. */
  datatype URLRequest = URLRequest(url: Option<Url>, handled: bool)

  /** The extensions the layer claims, compared lower-cased. */
  const InterceptedExtensions: seq<string> := ["ts", "m4s", "aac", "m3u8"]

  /** `canInit(with:)`. */
  function CanInit(f: Foundation, req: URLRequest): (r: bool)
    ensures req.handled ==> !r
    ensures req.url.None? ==> !r
    ensures !req.handled && req.url.Some? ==> (r <==> Lower(f.pathExtension(req.url.value)) in InterceptedExtensions)
  {
    if req.handled then false
    else match req.url
      case None => false
      case Some(u) => Lower(f.pathExtension(u)) in InterceptedExtensions
  }

  const OctetStream: string := "application/octet-stream"

  /** The `Content-Type` of a cache hit, by lower-cased extension. */
  function MimeType(ext: string): (r: string)
    ensures r == OctetStream <==> ext !in InterceptedExtensions
  {
    if ext == "m3u8" then "application/vnd.apple.mpegurl"
    else if ext == "ts" then "video/MP2T"
    else if ext == "m4s" then "video/iso.segment"
    else if ext == "aac" then "audio/aac"
    else OctetStream
  }

  /** Each claimed extension has a MIME type of its own. */
  lemma MimeTypesDistinct(a: string, b: string)
    requires a in InterceptedExtensions && b in InterceptedExtensions && a != b
    ensures MimeType(a) != MimeType(b)
  {
  }

  /** The response handed to the client: its URL, status code and `Content-Type`, where known. */
  datatype UrlResponse = UrlResponse(url: Url, status: Option<nat>, contentType: Option<string>)

  /** The error a transfer ends with. */
  datatype NetError = NetError(code: int)

  /** What the layer tells its `URLProtocolClient`, in order. */
  datatype ClientEvent =
    | ReceivedResponse(response: UrlResponse)
    | LoadedData(data: Bytes)
    | FinishedLoading
    | FailedWithError(error: NetError)

  /** An event that ends the load. */
  predicate Terminal(e: ClientEvent) {
    e.FinishedLoading? || e.FailedWithError?
  }

  /** A cache hit: a 200 response with the extension's MIME type, the stored bytes, then finish. */
  function HitEvents(f: Foundation, u: Url, data: Bytes): seq<ClientEvent> {
    [ReceivedResponse(UrlResponse(u, Some(200), Some(MimeType(Lower(f.pathExtension(u)))))),
     LoadedData(data), FinishedLoading]
  }

  /**
   * The completion of the fetch on a miss: the response and the body when the
   * transfer brought them, then one terminal event.
   */
  function CompletionEvents(resp: Option<UrlResponse>, data: Option<Bytes>, err: Option<NetError>): seq<ClientEvent> {
    (match resp case None => [] case Some(r) => [ReceivedResponse(r)]) +
    (match data case None => [] case Some(d) => [LoadedData(d)]) +
    [match err case None => FinishedLoading case Some(e) => FailedWithError(e)]
  }

  /**
   * A completion ends with exactly one terminal event, a failure exactly when
   * the transfer reported an error; the body, when there is one, is forwarded
   * before it.
   */
  lemma CompletionEndsOnce(resp: Option<UrlResponse>, data: Option<Bytes>, err: Option<NetError>)
    ensures var es := CompletionEvents(resp, data, err);
      |es| >= 1 && Terminal(es[|es| - 1]) &&
      (forall i :: 0 <= i < |es| - 1 ==> !Terminal(es[i])) &&
      (es[|es| - 1].FailedWithError? <==> err.Some?) &&
      (data.Some? ==> es[|es| - 2] == LoadedData(data.value))
  {
  }

  /** A hit also ends with exactly one terminal event, a finish, after the 200 response and the bytes. */
  lemma HitEndsOnce(f: Foundation, u: Url, data: Bytes)
    ensures var es := HitEvents(f, u, data);
      |es| == 3 && es[2] == FinishedLoading &&
      (forall i :: 0 <= i < 2 ==> !Terminal(es[i])) &&
      es[0].response.status == Some(200) && es[1] == LoadedData(data)
  {
  }

  /** One `HLSSegmentURLProtocol` instance, loading `request` for its client. */
  class SegmentURLProtocol {
    const request: URLRequest
    const store: Store
    var dataTask: DataTask?
    /** What the client has been told so far. */
    var events: seq<ClientEvent>
    /** The request the miss path hands to the shared session, if it did. */
    var outgoing: Option<URLRequest>

    constructor (request: URLRequest, store: Store)
      ensures this.request == request && this.store == store
      ensures dataTask == null && events == [] && outgoing == None
    {
      this.request := request;
      this.store := store;
      dataTask := null;
      events := [];
      outgoing := None;
    }

    /**
     * `startLoading()`. Without a URL nothing happens. A hit is answered from
     * the store at once, with no task; a miss starts a task for a copy of the
     * request that carries the handled marker.
     */
    method StartLoading()
      modifies this
      ensures request.url.None? ==>
        events == old(events) && dataTask == old(dataTask) && outgoing == old(outgoing)
      ensures request.url.Some? && store.Has(request.url.value) ==>
        events == old(events) + HitEvents(store.fnd, request.url.value, store.files[Key(store.fnd, request.url.value)]) &&
        dataTask == old(dataTask) && outgoing == old(outgoing)
      ensures request.url.Some? && !store.Has(request.url.value) ==>
        events == old(events) &&
        dataTask != null && fresh(dataTask) && dataTask.url == request.url.value && dataTask.state == Running &&
        outgoing == Some(URLRequest(request.url, true)) && !CanInit(store.fnd, outgoing.value)
    {
      if request.url.None? {
        return;
      }
      var u := request.url.value;
      var cached := store.Read(u);
      if cached.Some? {
        var mime := MimeType(Lower(store.fnd.pathExtension(u)));
        events := events + [ReceivedResponse(UrlResponse(u, Some(200), Some(mime)))];
        events := events + [LoadedData(cached.value)];
        events := events + [FinishedLoading];
        return;
      }
      var marked := URLRequest(request.url, true);
      outgoing := Some(marked);
      dataTask := new DataTask(u, 0);
    }

    /**
     * The completion handler of the miss's task: the response and the body are
     * forwarded, the body is written to the store under the ORIGINAL URL
     * (`lands` says whether the disk accepted it), and one terminal event follows.
     */
    method Complete(resp: Option<UrlResponse>, data: Option<Bytes>, err: Option<NetError>, lands: bool)
      requires request.url.Some? && outgoing.Some?
      modifies this, store
      ensures events == old(events) + CompletionEvents(resp, data, err)
      ensures store.files == if data.Some? && lands
        then old(store.files)[Key(store.fnd, request.url.value) := data.value]
        else old(store.files)
      ensures dataTask == old(dataTask) && outgoing == old(outgoing)
    {
      var u := request.url.value;
      if resp.Some? {
        events := events + [ReceivedResponse(resp.value)];
      }
      if data.Some? {
        events := events + [LoadedData(data.value)];
        store.Write(data.value, u, lands);
      }
      if err.Some? {
        events := events + [FailedWithError(err.value)];
      } else {
        events := events + [FinishedLoading];
      }
    }

    /** `stopLoading()`: the task, if any, is cancelled and forgotten. */
    method StopLoading()
      modifies this, dataTask
      ensures dataTask == null
      ensures old(dataTask) != null ==> old(dataTask).state == Cancelled
      ensures events == old(events) && outgoing == old(outgoing)
    {
      if dataTask != null {
        dataTask.Cancel();
      }
      dataTask := null;
    }
  }

  /** What a miss sends out is never claimed by the layer again, whatever its extension. */
  lemma MarkedRequestNotClaimed(f: Foundation, req: URLRequest)
    ensures !CanInit(f, req.(handled := true))
  {
  }

  /**
   * A hit answered from the store on a second load: after a miss whose body
   * landed in the store, a fresh load of the same request is served from the
   * store with those bytes and makes no task.
   */
  method MissThenHit(store: Store, u: Url, resp: Option<UrlResponse>, body: Bytes)
    returns (first: seq<ClientEvent>, second: seq<ClientEvent>)
    requires !store.Has(u)
    modifies store
    ensures first == CompletionEvents(resp, Some(body), None)
    ensures second == HitEvents(store.fnd, u, body)
  {
    var req := URLRequest(Some(u), false);
    var p := new SegmentURLProtocol(req, store);
    p.StartLoading();
    p.Complete(resp, Some(body), None, true);
    first := p.events;
    var q := new SegmentURLProtocol(req, store);
    q.StartLoading();
    second := q.events;
    assert q.dataTask == null;
  }
}
