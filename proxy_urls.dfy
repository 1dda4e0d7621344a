/**
 * The URL side of the local reverse proxy (`HLSProxy`): the proxy URL that
 * stands in for an origin URL, the origin a proxy request carries, the
 * resolution of playlist references against the playlist's own URL, and the
 * cache key of a URL.
 */
module ProxyUrls {
  import opened Wrappers
  import opened Text
  import opened Platform

  const ProxyPort: nat := 12345
  const LocalHost: string := "127.0.0.1"
  /** The query item that carries the origin URL. */
  const OriginKey: string := "__origin"

  // ---------------------------------------------------------------------------
  // Query items sorted by name

  predicate SortedByName(items: seq<QueryItem>) {
    forall i, j :: 0 <= i < j < |items| ==> !Less(items[j].name, items[i].name)
  }

  /** Puts `x` after every item whose name is not greater than its own. */
  function InsertByName(x: QueryItem, sorted: seq<QueryItem>): seq<QueryItem> {
    if sorted == [] || Less(x.name, sorted[0].name) then [x] + sorted
    else [sorted[0]] + InsertByName(x, sorted[1..])
  }

  /** `items.sort { $0.name < $1.name }`, stable. */
  function SortByName(items: seq<QueryItem>): seq<QueryItem> {
    if items == [] then []
    else InsertByName(items[|items| - 1], SortByName(items[..|items| - 1]))
  }

  lemma {:induction false} InsertByNameKeepsItems(x: QueryItem, sorted: seq<QueryItem>)
    ensures multiset(InsertByName(x, sorted)) == multiset(sorted) + multiset{x}
  {
    if sorted != [] && !Less(x.name, sorted[0].name) {
      InsertByNameKeepsItems(x, sorted[1..]);
      assert sorted == [sorted[0]] + sorted[1..];
    }
  }

  lemma {:induction false} InsertByNameSorted(x: QueryItem, sorted: seq<QueryItem>)
    requires SortedByName(sorted)
    ensures SortedByName(InsertByName(x, sorted))
  {
    var r := InsertByName(x, sorted);
    if sorted == [] {
    } else if Less(x.name, sorted[0].name) {
      forall j | 1 <= j < |r|
        ensures !Less(r[j].name, x.name)
      {
        assert r[j] == sorted[j - 1];
        if j == 1 {
          LessAsymmetric(x.name, sorted[0].name);
        } else if Less(r[j].name, x.name) {
          LessTransitive(r[j].name, x.name, sorted[0].name);
          assert false;
        }
      }
    } else {
      var tail := InsertByName(x, sorted[1..]);
      InsertByNameSorted(x, sorted[1..]);
      InsertByNameKeepsItems(x, sorted[1..]);
      forall j | 1 <= j < |r|
        ensures !Less(r[j].name, sorted[0].name)
      {
        assert r[j] in multiset(tail);
        assert r[j] in multiset(sorted[1..]) + multiset{x};
        if r[j] != x {
          assert r[j] in sorted[1..];
        }
      }
    }
  }

  /** Sorting orders the items by name and keeps every item. */
  lemma {:induction false} SortByNameCorrect(items: seq<QueryItem>)
    ensures SortedByName(SortByName(items))
    ensures multiset(SortByName(items)) == multiset(items)
  {
    if items != [] {
      var init := items[..|items| - 1];
      SortByNameCorrect(init);
      InsertByNameSorted(items[|items| - 1], SortByName(init));
      InsertByNameKeepsItems(items[|items| - 1], SortByName(init));
      assert items == init + [items[|items| - 1]];
    }
  }

  // ---------------------------------------------------------------------------
  // proxyURL(for:)

  /**
   * `proxyURL(for:)`: the same path (or `/`) on `http://127.0.0.1:12345`, with
   * the origin's query items sorted by name and the origin's absolute string
   * appended as the last item, `__origin`.
   */
  function ProxyUrl(f: Foundation, origin: Url): Url {
    Url("http", LocalHost, Some(ProxyPort), if origin.path == [] then "/" else origin.path,
        SortByName(origin.query) + [QueryItem(OriginKey, Some(f.absoluteString(origin)))])
  }

  /**
   * The proxy URL points at the local server, keeps the origin's path (a
   * missing one becomes `/`), and carries every origin query item, sorted by
   * name, followed by the origin itself.
   */
  lemma ProxyUrlShape(f: Foundation, origin: Url)
    ensures var p := ProxyUrl(f, origin);
      p.scheme == "http" && p.host == LocalHost && p.port == Some(ProxyPort) &&
      p.path != [] && (origin.path != [] ==> p.path == origin.path) &&
      |p.query| == |origin.query| + 1 &&
      SortedByName(p.query[..|origin.query|]) &&
      multiset(p.query[..|origin.query|]) == multiset(origin.query) &&
      p.query[|origin.query|] == QueryItem(OriginKey, Some(f.absoluteString(origin)))
  {
    SortByNameCorrect(origin.query);
    var sorted := SortByName(origin.query);
    assert |sorted| == |multiset(sorted)| == |multiset(origin.query)| == |origin.query|;
    var p := ProxyUrl(f, origin);
    assert p.query[..|origin.query|] == sorted;
  }

  // ---------------------------------------------------------------------------
  // extractOrigin(from:)

  /**
   * The query dictionary the web server hands to the handler: each item with
   * a value, a later item with the same name replacing an earlier one.
   */
  function ServerQuery(items: seq<QueryItem>): map<string, string> {
    if items == [] then map[]
    else
      var last := items[|items| - 1];
      var earlier := ServerQuery(items[..|items| - 1]);
      match last.value
      case Some(v) => earlier[last.name := v]
      case None => earlier
  }

  /** A request as the handler sees it: its query dictionary, if it has a query. */
  datatype Request = Request(query: Option<map<string, string>>)

  /** The request the server builds for a GET of `u`. */
  function RequestFor(u: Url): Request {
    Request(if u.query == [] then None else Some(ServerQuery(u.query)))
  }

  /**
   * `extractOrigin(from:)`: the `__origin` value, percent-decoded and parsed;
   * nil when any of the three steps fails.
   */
  function ExtractOrigin(f: Foundation, req: Request): (r: Option<Url>)
    ensures r.Some? ==> req.query.Some? && OriginKey in req.query.value
  {
    match req.query
    case None => None
    case Some(q) =>
      if OriginKey !in q then None
      else
        match f.removingPercentEncoding(q[OriginKey])
        case None => None
        case Some(s) => f.parseUrl(s)
  }

  /**
   * The request for a proxy URL carries its origin: the handler gets back the
   * origin's absolute string, whatever query items the origin had (even one
   * named `__origin`, since the appended item comes last).
   */
  lemma ExtractOriginOfProxyUrl(f: Foundation, origin: Url)
    ensures var req := RequestFor(ProxyUrl(f, origin));
      req.query.Some? && req.query.value[OriginKey] == f.absoluteString(origin)
    ensures f.removingPercentEncoding(f.absoluteString(origin)) == Some(f.absoluteString(origin)) &&
            f.parseUrl(f.absoluteString(origin)) == Some(origin)
        ==> ExtractOrigin(f, RequestFor(ProxyUrl(f, origin))) == Some(origin)
  {
    var items := ProxyUrl(f, origin).query;
    assert items[..|items| - 1] == SortByName(origin.query);
  }

  /** A request without `__origin` has no origin. */
  lemma NoOriginKeyNoOrigin(f: Foundation, req: Request)
    requires req.query.None? || OriginKey !in req.query.value
    ensures ExtractOrigin(f, req).None?
  {
  }

  // ---------------------------------------------------------------------------
  // absolute(_:origin:)

  /**
   * `absolute(_:origin:)`, a cut-down reference resolution: full `http://` and
   * `https://` URLs are parsed as they are; a reference starting with `/` is
   * that path on the origin's scheme, host and port; anything else is
   * appended to the origin's parent directory. Both relative forms are
   * standardized.
   */
  function Absolute(f: Foundation, s: string, origin: Url): Option<Url> {
    if HasPrefix(s, "http://") || HasPrefix(s, "https://") then f.parseUrl(s)
    else if HasPrefix(s, "/") then
      match f.componentsUrl(Url(origin.scheme, origin.host, origin.port, s, []))
      case Some(u) => Some(f.standardized(u))
      case None => None
    else Some(f.standardized(f.appendingPathComponent(f.deletingLastPathComponent(origin), s)))
  }

  /** A full URL does not depend on the origin at all. */
  lemma AbsoluteOfFullUrl(f: Foundation, s: string, o1: Url, o2: Url)
    requires HasPrefix(s, "http://") || HasPrefix(s, "https://")
    ensures Absolute(f, s, o1) == Absolute(f, s, o2) == f.parseUrl(s)
  {
  }

  /**
   * A root-relative reference depends only on the origin's scheme, host and
   * port: its path and query are dropped.
   */
  lemma AbsoluteOfRootRelative(f: Foundation, s: string, o1: Url, o2: Url)
    requires HasPrefix(s, "/")
    requires o1.scheme == o2.scheme && o1.host == o2.host && o1.port == o2.port
    ensures Absolute(f, s, o1) == Absolute(f, s, o2)
  {
  }

  /**
   * Any other reference depends only on the origin's parent directory, and
   * always resolves.
   */
  lemma AbsoluteOfRelative(f: Foundation, s: string, o1: Url, o2: Url)
    requires !HasPrefix(s, "/") && !HasPrefix(s, "http://") && !HasPrefix(s, "https://")
    requires f.deletingLastPathComponent(o1) == f.deletingLastPathComponent(o2)
    ensures Absolute(f, s, o1) == Absolute(f, s, o2) && Absolute(f, s, o1).Some?
  {
  }

  // ---------------------------------------------------------------------------
  // key(_:)

  /** `key(_:)`: the SHA-256 of the UTF-8 absolute string, in hexadecimal. */
  function CacheKey(f: Foundation, u: Url): string {
    f.sha256Hex(f.encodeUtf8(f.absoluteString(u)))
  }
}
