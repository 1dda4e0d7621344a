/**
 * The proxy's own warm-up (`HLSProxy.parseSegments` and
 * `HLSProxy.prefetchFirstSeconds`): a naive `#EXTINF` / URI pairing over the
 * playlist text, and requests through the proxy for the first segments until
 * the seconds budget is reached.
 */
module ProxySegments {
  import opened Wrappers
  import opened Text
  import opened Platform
  import opened ProxyUrls
  import opened Budget

  const ExtInfPrefix: string := "#EXTINF:"

  /** `HLSSeg`: a segment found by the naive parser. */
  datatype ProxySegment = ProxySegment(url: Url, duration: real)

  /**
   * The duration an `#EXTINF:` line contributes: the first non-empty
   * comma-separated field after the tag (`"0"` when there is none), when it
   * parses as a number.
   */
  function LineDuration(f: Foundation, line: string): Option<real> {
    if HasPrefix(line, ExtInfPrefix) then f.parseDouble(FirstField(line[|ExtInfPrefix|..], ',').GetOr("0"))
    else None
  }

  /** The URL a non-empty line that is not a tag or comment contributes, when it resolves. */
  function LineUrl(f: Foundation, line: string, origin: Url): Option<Url> {
    if line == [] || HasPrefix(line, "#") then None else Absolute(f, line, origin)
  }

  /** The present value of `o`, as a sequence of zero or one elements. */
  function AsSeq<T>(o: Option<T>): seq<T> {
    match o
    case None => []
    case Some(x) => [x]
  }

  /** The durations collected from `lines`, in order. */
  function Durations(f: Foundation, lines: seq<string>): seq<real> {
    if lines == [] then []
    else Durations(f, lines[..|lines| - 1]) + AsSeq(LineDuration(f, lines[|lines| - 1]))
  }

  /** The URLs collected from `lines`, in order. */
  function Urls(f: Foundation, lines: seq<string>, origin: Url): seq<Url> {
    if lines == [] then []
    else Urls(f, lines[..|lines| - 1], origin) + AsSeq(LineUrl(f, lines[|lines| - 1], origin))
  }

  /** Collecting over one more line appends what that line contributes. */
  lemma CollectSnoc(f: Foundation, lines: seq<string>, x: string, origin: Url)
    ensures Durations(f, lines + [x]) == Durations(f, lines) + AsSeq(LineDuration(f, x))
    ensures Urls(f, lines + [x], origin) == Urls(f, lines, origin) + AsSeq(LineUrl(f, x, origin))
  {
    assert (lines + [x])[..|lines|] == lines;
  }

  /** An `#EXTINF:` line contributes no URL; any other line no duration. */
  lemma LineContributesOne(f: Foundation, line: string, origin: Url)
    ensures HasPrefix(line, ExtInfPrefix) ==> LineUrl(f, line, origin) == None
    ensures !HasPrefix(line, ExtInfPrefix) ==> LineDuration(f, line) == None
  {
    if HasPrefix(line, ExtInfPrefix) {
      assert line[0] == ExtInfPrefix[0] == '#';
      assert HasPrefix(line, "#");
    }
  }

  /** The i-th duration with the i-th URL, as far as both lists reach. */
  function Pair(durs: seq<real>, urls: seq<Url>): (r: seq<ProxySegment>)
    ensures |r| == if |durs| < |urls| then |durs| else |urls|
    ensures forall i :: 0 <= i < |r| ==> r[i] == ProxySegment(urls[i], durs[i])
  {
    var n := if |durs| < |urls| then |durs| else |urls|;
    seq(n, i requires 0 <= i < n => ProxySegment(urls[i], durs[i]))
  }

  /** What `parseSegments(from:origin:)` returns for the lines of a playlist. */
  function SegmentsOf(f: Foundation, lines: seq<string>, origin: Url): seq<ProxySegment> {
    Pair(Durations(f, lines), Urls(f, lines, origin))
  }

  /**
   * `parseSegments(from:origin:)`: the text split at every newline character,
   * durations and URLs collected separately, then paired by position.
   */
  method ParseSegments(f: Foundation, text: string, origin: Url) returns (res: seq<ProxySegment>)
    ensures res == SegmentsOf(f, Split(text, IsNewline), origin)
  {
    var lines := Split(text, IsNewline);
    var durs: seq<real> := [];
    var urls: seq<Url> := [];
    var i := 0;
    while i < |lines|
      invariant i <= |lines|
      invariant durs == Durations(f, lines[..i])
      invariant urls == Urls(f, lines[..i], origin)
    {
      var line := lines[i];
      assert lines[..i + 1] == lines[..i] + [line];
      CollectSnoc(f, lines[..i], line, origin);
      LineContributesOne(f, line, origin);
      if HasPrefix(line, ExtInfPrefix) {
        var num := line[|ExtInfPrefix|..];
        var dur := f.parseDouble(FirstField(num, ',').GetOr("0"));
        if dur.Some? {
          durs := durs + [dur.value];
        }
      } else if line != [] && !HasPrefix(line, "#") {
        var u := Absolute(f, line, origin);
        if u.Some? {
          urls := urls + [u.value];
        }
      }
      i := i + 1;
    }
    assert lines[..i] == lines;
    res := PairUp(durs, urls);
  }

  /** The final loop of `parseSegments`: `res[i]` is the i-th URL with the i-th duration. */
  method PairUp(durs: seq<real>, urls: seq<Url>) returns (res: seq<ProxySegment>)
    ensures res == Pair(durs, urls)
  {
    res := [];
    var k := 0;
    var n := if |durs| < |urls| then |durs| else |urls|;
    while k < n
      invariant k <= n
      invariant |res| == k && forall j :: 0 <= j < k ==> res[j] == ProxySegment(urls[j], durs[j])
    {
      res := res + [ProxySegment(urls[k], durs[k])];
      k := k + 1;
    }
  }

  /** The counts: one duration per parsable `#EXTINF:` line, one URL per resolvable URI line. */
  lemma {:induction false} CountsOfLines(f: Foundation, lines: seq<string>, origin: Url)
    ensures |Durations(f, lines)| <= |lines| && |Urls(f, lines, origin)| <= |lines|
    ensures |Durations(f, lines)| + |Urls(f, lines, origin)| <= |lines|
  {
    if lines != [] {
      var init, last := lines[..|lines| - 1], lines[|lines| - 1];
      CountsOfLines(f, init, origin);
      assert LineDuration(f, last).Some? ==> last[0] == '#';
    }
  }

  /**
   * A well-formed entry, a parsable `#EXTINF:` line followed by a resolvable
   * URI line, appended to lines whose durations and URLs are in step, adds
   * exactly the segment pairing that duration with that URL.
   */
  lemma EntryAppends(f: Foundation, lines: seq<string>, origin: Url, extinf: string, uri: string, d: real, u: Url)
    requires |Durations(f, lines)| == |Urls(f, lines, origin)|
    requires LineDuration(f, extinf) == Some(d) && LineUrl(f, uri, origin) == Some(u)
    ensures SegmentsOf(f, lines + [extinf, uri], origin) == SegmentsOf(f, lines, origin) + [ProxySegment(u, d)]
  {
    LineContributesOne(f, extinf, origin);
    LineContributesOne(f, uri, origin);
    assert HasPrefix(extinf, ExtInfPrefix);
    assert !HasPrefix(uri, ExtInfPrefix);
    CollectSnoc(f, lines, extinf, origin);
    CollectSnoc(f, lines + [extinf], uri, origin);
    assert lines + [extinf] + [uri] == lines + [extinf, uri];
  }

  /**
   * A dropped duration shifts the pairing: with an unparsable first
   * `#EXTINF:`, the second duration is paired with the FIRST URL, and the
   * second URL is left without a segment.
   */
  lemma DroppedDurationShiftsPairing(f: Foundation, e1: string, u1: string, e2: string, u2: string, origin: Url, d2: real, a: Url, b: Url)
    requires HasPrefix(e1, ExtInfPrefix) && LineDuration(f, e1) == None
    requires LineDuration(f, e2) == Some(d2)
    requires LineUrl(f, u1, origin) == Some(a) && LineUrl(f, u2, origin) == Some(b)
    ensures SegmentsOf(f, [e1, u1, e2, u2], origin) == [ProxySegment(a, d2)]
  {
    LineContributesOne(f, e1, origin);
    LineContributesOne(f, e2, origin);
    LineContributesOne(f, u1, origin);
    LineContributesOne(f, u2, origin);
    assert HasPrefix(e2, ExtInfPrefix);
    var l0: seq<string> := [];
    var l1 := l0 + [e1];
    var l2 := l1 + [u1];
    var l3 := l2 + [e2];
    var l4 := l3 + [u2];
    CollectSnoc(f, l0, e1, origin);
    CollectSnoc(f, l1, u1, origin);
    CollectSnoc(f, l2, e2, origin);
    CollectSnoc(f, l3, u2, origin);
    assert Durations(f, l4) == [d2];
    assert Urls(f, l4, origin) == [a, b];
    assert l4 == [e1, u1, e2, u2];
  }

  // ---------------------------------------------------------------------------
  // prefetchFirstSeconds(from:seconds:completion:)

  /** The durations of `segs`, in order. */
  function SegmentDurations(segs: seq<ProxySegment>): (ds: seq<real>)
    ensures |ds| == |segs| && forall k :: 0 <= k < |segs| ==> ds[k] == segs[k].duration
  {
    seq(|segs|, k requires 0 <= k < |segs| => segs[k].duration)
  }

  /** The proxy URLs of the first `n` segments. */
  function ProxyRequests(f: Foundation, segs: seq<ProxySegment>, n: nat): (r: seq<Url>)
    requires n <= |segs|
    ensures |r| == n && forall k :: 0 <= k < n ==> r[k] == ProxyUrl(f, segs[k].url)
  {
    seq(n, k requires 0 <= k < n => ProxyUrl(f, segs[k].url))
  }

  /**
   * `prefetchFirstSeconds(from:seconds:completion:)`. The playlist is first
   * requested through the proxy; `body` is what that request brings back
   * (nil on failure). The segments it lists are then requested through the
   * proxy in order until their durations reach `seconds`. The result is every
   * request made, the playlist's first.
   */
  method PrefetchFirstSeconds(f: Foundation, originPlaylist: Url, seconds: real, body: Option<Bytes>)
    returns (requests: seq<Url>)
    ensures |requests| >= 1 && requests[0] == ProxyUrl(f, originPlaylist)
    ensures body.None? || f.decodeUtf8(body.value).None? ==> requests == [ProxyUrl(f, originPlaylist)]
    ensures body.Some? && f.decodeUtf8(body.value).Some? ==>
      var segs := SegmentsOf(f, Split(f.decodeUtf8(body.value).value, IsNewline), originPlaylist);
      requests == [ProxyUrl(f, originPlaylist)] + ProxyRequests(f, segs, VisitCount(SegmentDurations(segs), seconds))
  {
    requests := [ProxyUrl(f, originPlaylist)];
    if body.None? {
      return;
    }
    var text := f.decodeUtf8(body.value);
    if text.None? {
      return;
    }
    var segments := ParseSegments(f, text.value, originPlaylist);
    var segmentRequests := RequestSegments(f, segments, seconds);
    requests := requests + segmentRequests;
  }

  /**
   * The loop of `prefetchFirstSeconds`: segments in order, each adding its
   * duration and one request for its proxy URL, until the sum reaches `seconds`.
   */
  method RequestSegments(f: Foundation, segments: seq<ProxySegment>, seconds: real) returns (requests: seq<Url>)
    ensures requests == ProxyRequests(f, segments, VisitCount(SegmentDurations(segments), seconds))
  {
    ghost var ds := SegmentDurations(segments);
    requests := [];
    var acc := 0.0;
    var i := 0;
    while i < |segments|
      invariant i <= VisitCount(ds, seconds)
      invariant VisitFrom(ds, seconds, i) == VisitCount(ds, seconds)
      invariant acc == Sum(ds[..i])
      invariant requests == ProxyRequests(f, segments, i)
    {
      if acc >= seconds {
        break;
      }
      SumStep(ds, i);
      acc := acc + segments[i].duration;
      requests := requests + [ProxyUrl(f, segments[i].url)];
      i := i + 1;
    }
  }
}
