/**
 * The request handler of the local reverse proxy (`HLSProxy.addHandler`): a
 * GET for a proxy URL names its origin in `__origin`; playlists and segments
 * are served from the cache or fetched and cached, anything else is passed
 * through. The cache is a map from key to `HLSCacheItem`; what the network
 * returns for the origin is a parameter.
 */
module Proxy {
  import opened Wrappers
  import opened Text
  import opened Platform
  import opened ProxyUrls
  import opened Rewrite

  /** `HLSCacheItem`: the bytes fetched from `url`, with their MIME type. */
  datatype CacheItem = CacheItem(data: Bytes, url: Url, mimeType: string)

  /** What the handler finishes with: a data response, or an error status. */
  datatype Response = Served(data: Bytes, contentType: string) | Failed(status: nat)

  /** What `fetch(_:completion:)` hands its completion: the body and the response's MIME type. */
  datatype Fetched = Fetched(data: Option<Bytes>, mime: Option<string>)

  /** The extensions cached as segments or keys. */
  const SegmentExtensions: seq<string> := ["ts", "m4s", "m4a", "m4v", "mp4", "aac", "key"]

  /** The origin's path extension, lower-cased. */
  function Extension(f: Foundation, origin: Url): string {
    Lower(f.pathExtension(origin))
  }

  /** What one request does: the response, the cache afterwards, and whether the origin was fetched. */
  datatype Outcome = Outcome(response: Response, cache: map<string, CacheItem>, fetched: bool)

  /** A playlist's bytes rewritten for the proxy, served with `mime`, or 500 when they are not UTF-8. */
  function ServePlaylist(f: Foundation, data: Bytes, origin: Url, mime: string): (r: Response)
    ensures r.Failed? <==> f.decodeUtf8(data).None?
    ensures r.Failed? ==> r.status == 500
    ensures r.Served? ==> r == Served(RewritePlaylistData(f, data, origin).value, mime)
  {
    match RewritePlaylistData(f, data, origin)
    case None => Failed(500)
    case Some(out) => Served(out, mime)
  }

  /** The specification of the handler: what a GET with `req` does, given what a fetch of its origin brings. */
  function Dispatch(f: Foundation, cache: map<string, CacheItem>, req: Request, net: Fetched): (r: Outcome)
    ensures r.response.Failed? ==> r.response.status in {400, 500, 502}
    ensures r.response == Failed(400) <==> ExtractOrigin(f, req).None?
  {
    match ExtractOrigin(f, req)
    case None => Outcome(Failed(400), cache, false)
    case Some(origin) =>
      var ext := Extension(f, origin);
      var key := CacheKey(f, origin);
      if ext == "m3u8" then
        if key in cache then
          Outcome(ServePlaylist(f, cache[key].data, origin, cache[key].mimeType), cache, false)
        else if net.data.None? || net.mime.None? then
          Outcome(Failed(502), cache, true)
        else
          var item := CacheItem(net.data.value, origin, net.mime.value);
          Outcome(ServePlaylist(f, item.data, origin, item.mimeType), cache[key := item], true)
      else if ext in SegmentExtensions then
        if key in cache then
          Outcome(Served(cache[key].data, cache[key].mimeType), cache, false)
        else if net.data.None? || net.mime.None? then
          Outcome(Failed(502), cache, true)
        else
          var forced := if ext == "mp4" then "video/mp4" else net.mime.value;
          var item := CacheItem(net.data.value, origin, forced);
          Outcome(Served(item.data, forced), cache[key := item], true)
      else
        if net.data.None? || net.mime.None? then Outcome(Failed(502), cache, true)
        else Outcome(Served(net.data.value, net.mime.value), cache, true)
  }

  /** `HLSProxy`, reduced to its cache. */
  class HLSProxy {
    const fnd: Foundation
    /** The `Storage<String, HLSCacheItem>`: items by key. */
    var cache: map<string, CacheItem>

    constructor (fnd: Foundation)
      ensures this.fnd == fnd && cache == map[]
    {
      this.fnd := fnd;
      cache := map[];
    }

    /** `read(_:)`: the item stored under the URL's key, if any. */
    function Read(u: Url): (r: Option<CacheItem>)
      reads this
      ensures r.Some? <==> CacheKey(fnd, u) in cache
      ensures r.Some? ==> r.value == cache[CacheKey(fnd, u)]
    {
      if CacheKey(fnd, u) in cache then Some(cache[CacheKey(fnd, u)]) else None
    }

    /** `write(_:)`: the item under the key of its own URL. */
    method Write(item: CacheItem)
      modifies this
      ensures cache == old(cache)[CacheKey(fnd, item.url) := item]
      ensures Read(item.url) == Some(item)
    {
      cache := cache[CacheKey(fnd, item.url) := item];
    }

    /**
     * The GET handler for one request. `net` is what the fetch of the origin
     * brings, used only when the handler fetches; `fetched` says whether it did.
     */
    method Handle(req: Request, net: Fetched) returns (response: Response, fetched: bool)
      modifies this
      ensures Outcome(response, cache, fetched) == Dispatch(fnd, old(cache), req, net)
    {
      fetched := false;
      var origin := ExtractOrigin(fnd, req);
      if origin.None? {
        response := Failed(400);
        return;
      }
      var o := origin.value;
      var ext := Lower(fnd.pathExtension(o));
      if ext == "m3u8" {
        var cached := Read(o);
        if cached.Some? {
          response := ServePlaylist(fnd, cached.value.data, o, cached.value.mimeType);
          return;
        }
        fetched := true;
        if net.data.None? || net.mime.None? {
          response := Failed(502);
          return;
        }
        var item := CacheItem(net.data.value, o, net.mime.value);
        Write(item);
        response := ServePlaylist(fnd, item.data, o, net.mime.value);
        return;
      }
      if ext in SegmentExtensions {
        var cached := Read(o);
        if cached.Some? {
          response := Served(cached.value.data, cached.value.mimeType);
          return;
        }
        fetched := true;
        if net.data.None? || net.mime.None? {
          response := Failed(502);
          return;
        }
        var forced := if ext == "mp4" then "video/mp4" else net.mime.value;
        var item := CacheItem(net.data.value, o, forced);
        Write(item);
        response := Served(net.data.value, forced);
        return;
      }
      fetched := true;
      if net.data.None? || net.mime.None? {
        response := Failed(502);
        return;
      }
      response := Served(net.data.value, net.mime.value);
    }
  }

  // ---------------------------------------------------------------------------
  // Properties of the handler

  /** `req` names `origin` in its `__origin` item. */
  predicate ForOrigin(f: Foundation, req: Request, origin: Url) {
    ExtractOrigin(f, req) == Some(origin)
  }

  /** A cache hit for a playlist or a segment never touches the network or the cache. */
  lemma HitUsesNoNetwork(f: Foundation, cache: map<string, CacheItem>, req: Request, origin: Url, net: Fetched)
    requires ForOrigin(f, req, origin)
    requires Extension(f, origin) == "m3u8" || Extension(f, origin) in SegmentExtensions
    requires CacheKey(f, origin) in cache
    ensures var r := Dispatch(f, cache, req, net);
      !r.fetched && r.cache == cache &&
      r.response == if Extension(f, origin) == "m3u8"
        then ServePlaylist(f, cache[CacheKey(f, origin)].data, origin, cache[CacheKey(f, origin)].mimeType)
        else Served(cache[CacheKey(f, origin)].data, cache[CacheKey(f, origin)].mimeType)
  {
  }

  /** A failed fetch on a miss answers 502 and caches nothing. */
  lemma FailedFetchIs502(f: Foundation, cache: map<string, CacheItem>, req: Request, origin: Url, net: Fetched)
    requires ForOrigin(f, req, origin)
    requires CacheKey(f, origin) !in cache
    requires net.data.None? || net.mime.None?
    ensures var r := Dispatch(f, cache, req, net);
      r.response == Failed(502) && r.cache == cache && r.fetched
  {
  }

  /**
   * A playlist miss caches the RAW bytes from the origin and serves them
   * rewritten; a repeated request is then a hit with the very same response.
   */
  lemma PlaylistMissThenHit(f: Foundation, cache: map<string, CacheItem>, req: Request, origin: Url, data: Bytes, mime: string, net2: Fetched)
    requires ForOrigin(f, req, origin) && Extension(f, origin) == "m3u8"
    requires CacheKey(f, origin) !in cache
    ensures var r := Dispatch(f, cache, req, Fetched(Some(data), Some(mime)));
      r.fetched && r.cache == cache[CacheKey(f, origin) := CacheItem(data, origin, mime)] &&
      r.response == ServePlaylist(f, data, origin, mime) &&
      var again := Dispatch(f, r.cache, req, net2);
      !again.fetched && again.cache == r.cache && again.response == r.response
  {
  }

  /**
   * A segment miss caches the bytes under the origin's key, with `video/mp4`
   * forced for `mp4` and the origin's MIME type otherwise; a repeated request
   * is then a hit with the very same response.
   */
  lemma SegmentMissThenHit(f: Foundation, cache: map<string, CacheItem>, req: Request, origin: Url, data: Bytes, mime: string, net2: Fetched)
    requires ForOrigin(f, req, origin) && Extension(f, origin) in SegmentExtensions
    requires CacheKey(f, origin) !in cache
    ensures var r := Dispatch(f, cache, req, Fetched(Some(data), Some(mime)));
      var forced := if Extension(f, origin) == "mp4" then "video/mp4" else mime;
      r.fetched && r.cache == cache[CacheKey(f, origin) := CacheItem(data, origin, forced)] &&
      r.response == Served(data, forced) &&
      var again := Dispatch(f, r.cache, req, net2);
      !again.fetched && again.cache == r.cache && again.response == r.response
  {
  }

  /** Any other extension is passed through: always fetched, never cached. */
  lemma OtherExtensionsPassThrough(f: Foundation, cache: map<string, CacheItem>, req: Request, origin: Url, net: Fetched)
    requires ForOrigin(f, req, origin)
    requires Extension(f, origin) != "m3u8" && Extension(f, origin) !in SegmentExtensions
    ensures var r := Dispatch(f, cache, req, net);
      r.fetched && r.cache == cache &&
      r.response == if net.data.None? || net.mime.None? then Failed(502) else Served(net.data.value, net.mime.value)
  {
  }

  /** The handler changes the cache only by storing what it fetched for the request's origin. */
  lemma OnlyOriginKeyChanges(f: Foundation, cache: map<string, CacheItem>, req: Request, net: Fetched)
    ensures var r := Dispatch(f, cache, req, net);
      forall k :: k in cache ==> k in r.cache
    ensures var r := Dispatch(f, cache, req, net);
      r.cache != cache ==>
        ExtractOrigin(f, req).Some? && r.fetched &&
        r.cache == cache[CacheKey(f, ExtractOrigin(f, req).value) := r.cache[CacheKey(f, ExtractOrigin(f, req).value)]] &&
        r.cache[CacheKey(f, ExtractOrigin(f, req).value)].url == ExtractOrigin(f, req).value &&
        r.cache[CacheKey(f, ExtractOrigin(f, req).value)].data == net.data.value
  {
  }

  /**
   * A request for the proxy URL of `origin` is handled for `origin` itself,
   * whenever Foundation reads back `origin`'s absolute string.
   */
  lemma ProxyUrlServesOrigin(f: Foundation, cache: map<string, CacheItem>, origin: Url)
    requires f.removingPercentEncoding(f.absoluteString(origin)) == Some(f.absoluteString(origin))
    requires f.parseUrl(f.absoluteString(origin)) == Some(origin)
    ensures ForOrigin(f, RequestFor(ProxyUrl(f, origin)), origin)
  {
    ExtractOriginOfProxyUrl(f, origin);
  }
}
