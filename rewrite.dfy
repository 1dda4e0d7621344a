/**
 * The playlist rewriter of the local reverse proxy (`HLSProxy.rewrite(line:)`
 * and `rewritePlaylistData`): every reference in a playlist, whether a URI
 * line or a `URI="..."` attribute of a tag (such as `EXT-X-KEY`, section
 * 4.3.2.4 of RFC 8216), is replaced by the proxy URL of its resolved form,
 * so that the player fetches everything through the proxy.
 */
module Rewrite {
  import opened Wrappers
  import opened Text
  import opened Platform
  import opened ProxyUrls

  // ---------------------------------------------------------------------------
  // The pattern URI="([^"]*)"

  const UriOpen: string := "URI=\""

  /** The first `"` at or after `i`. */
  function NextQuote(line: string, i: nat): (r: Option<nat>)
    ensures r.Some? ==> i <= r.value < |line| && line[r.value] == '"'
    decreases |line| - i
  {
    if i >= |line| then None
    else if line[i] == '"' then Some(i)
    else NextQuote(line, i + 1)
  }

  /** No quote comes before the one `NextQuote` finds, and none at all when it finds none. */
  lemma {:induction false} NextQuoteIsFirst(line: string, i: nat)
    ensures var r := NextQuote(line, i);
      forall k :: i <= k < |line| && (r.None? || k < r.value) ==> line[k] != '"'
    decreases |line| - i
  {
    if i < |line| && line[i] != '"' {
      NextQuoteIsFirst(line, i + 1);
    }
  }

  /** `URI="` starts at `i`, written out character by character. */
  predicate UriOpenAt(s: string, i: nat) {
    i + 5 <= |s| && s[i] == 'U' && s[i + 1] == 'R' && s[i + 2] == 'I' && s[i + 3] == '=' && s[i + 4] == '"'
  }

  /**
   * A match of the pattern starting at `p`: `URI="`, characters other than
   * `"`, and the closing `"`, whose index is returned.
   */
  function MatchAt(line: string, p: nat): (r: Option<nat>)
    ensures r.Some? ==> p + |UriOpen| <= r.value < |line| && line[r.value] == '"'
  {
    if UriOpenAt(line, p) then NextQuote(line, p + |UriOpen|) else None
  }

  /**
   * `firstMatch(in:range:)` from `from` on: the leftmost match, as the
   * indices of its start and of its closing quote.
   */
  function FirstMatch(line: string, from: nat): (r: Option<(nat, nat)>)
    requires from <= |line|
    ensures r.Some? ==> from <= r.value.0 && MatchAt(line, r.value.0) == Some(r.value.1)
    decreases |line| - from
  {
    if from == |line| then None
    else match MatchAt(line, from)
      case Some(q) => Some((from, q))
      case None => FirstMatch(line, from + 1)
  }

  /** No match starts before the one `FirstMatch` finds, and none at all when it finds none. */
  lemma {:induction false} FirstMatchIsFirst(line: string, from: nat)
    requires from <= |line|
    ensures var r := FirstMatch(line, from);
      forall p :: from <= p < |line| && (r.None? || p < r.value.0) ==> MatchAt(line, p).None?
    decreases |line| - from
  {
    if from < |line| && MatchAt(line, from).None? {
      FirstMatchIsFirst(line, from + 1);
    }
  }

  /**
   * `stringByReplacingMatches(in:range:withTemplate:)`: every match, left to
   * right, is replaced by the same `replacement`.
   */
  function ReplaceAll(line: string, replacement: string): string
    decreases |line|
  {
    match FirstMatch(line, 0)
    case None => line
    case Some((p, q)) => line[..p] + replacement + ReplaceAll(line[q + 1..], replacement)
  }

  // ---------------------------------------------------------------------------
  // rewrite(line:origin:)

  /** The string that replaces a reference to `abs`. */
  function ProxyString(f: Foundation, abs: Url): string {
    f.absoluteString(ProxyUrl(f, abs))
  }

  /**
   * `rewrite(line:origin:)`. An empty line is kept. A `#` line has its
   * `URI="..."` attributes replaced, all with the proxy URL of the FIRST
   * attribute's value; it is kept when it has none or the value does not
   * resolve. Any other line is replaced by the proxy URL of its resolved
   * form, or kept when it does not resolve.
   */
  function RewriteLine(f: Foundation, line: string, origin: Url): string {
    if line == [] then line
    else if HasPrefix(line, "#") then
      match FirstMatch(line, 0)
      case None => line
      case Some((p, q)) =>
        match Absolute(f, line[p + |UriOpen|..q], origin)
        case None => line
        case Some(abs) => ReplaceAll(line, UriOpen + ProxyString(f, abs) + "\"")
    else
      match Absolute(f, line, origin)
      case None => line
      case Some(abs) => ProxyString(f, abs)
  }

  /** No occurrence of `URI="` starts in a stretch without quotes that ends at one. */
  lemma {:induction false} FirstMatchAfterQuoteFree(line: string, from: nat, p: nat, q: nat)
    requires from <= p && UriOpenAt(line, p)
    requires forall k :: from <= k < p ==> line[k] != '"'
    requires NextQuote(line, p + |UriOpen|) == Some(q)
    ensures FirstMatch(line, from) == Some((p, q))
    decreases p - from
  {
    if from < p {
      assert !UriOpenAt(line, from) by {
        if from + 4 < p {
          assert line[from + 4] != '"';
        }
      }
      FirstMatchAfterQuoteFree(line, from + 1, p, q);
    }
  }

  /** A stretch without quotes holds no match. */
  lemma {:induction false} NoMatchInQuoteFree(line: string, from: nat)
    requires from <= |line|
    requires forall k :: from <= k < |line| ==> line[k] != '"'
    ensures FirstMatch(line, from) == None
    decreases |line| - from
  {
    if from < |line| {
      assert !UriOpenAt(line, from) by {
        if from + 4 < |line| {
          assert line[from + 4] != '"';
        }
      }
      NoMatchInQuoteFree(line, from + 1);
    }
  }

  predicate QuoteFree(s: string) {
    forall k :: 0 <= k < |s| ==> s[k] != '"'
  }

  /** The attribute `URI="v"` after `x`, `v` without quotes: where it starts and ends. */
  lemma AttributeAfter(x: string, v: string, y: string)
    requires QuoteFree(v)
    ensures var line := x + UriOpen + v + "\"" + y;
      var p, q := |x|, |x| + |UriOpen| + |v|;
      UriOpenAt(line, p) && NextQuote(line, p + |UriOpen|) == Some(q) &&
      line[p + |UriOpen|..q] == v && line[..p] == x && line[q + 1..] == y
  {
    var line := x + UriOpen + v + "\"" + y;
    var p, q := |x|, |x| + |UriOpen| + |v|;
    NextQuoteIsFirst(line, p + |UriOpen|);
    assert line[p..p + |UriOpen|] == UriOpen;
    assert UriOpenAt(line, p);
    assert line[p + |UriOpen|..q] == v;
    assert forall k :: p + |UriOpen| <= k < q ==> line[k] == v[k - p - |UriOpen|];
    assert line[q] == '"';
  }

  /** The first attribute of a line whose text before it has no quotes. */
  lemma FirstAttribute(x: string, v: string, y: string)
    requires QuoteFree(x) && QuoteFree(v)
    ensures var line := x + UriOpen + v + "\"" + y;
      var q := |x| + |UriOpen| + |v|;
      FirstMatch(line, 0) == Some((|x|, q)) && line[|x| + |UriOpen|..q] == v &&
      line[..|x|] == x && line[q + 1..] == y
  {
    var line := x + UriOpen + v + "\"" + y;
    AttributeAfter(x, v, y);
    FirstMatchAfterQuoteFree(line, 0, |x|, |x| + |UriOpen| + |v|);
  }

  /** Replacing in a line starts with its first attribute and goes on after it. */
  lemma ReplaceFirst(x: string, v: string, y: string, replacement: string)
    requires QuoteFree(x) && QuoteFree(v)
    ensures ReplaceAll(x + UriOpen + v + "\"" + y, replacement) == x + replacement + ReplaceAll(y, replacement)
  {
    FirstAttribute(x, v, y);
  }

  /** A line without quotes is kept. */
  lemma ReplaceInQuoteFree(y: string, replacement: string)
    requires QuoteFree(y)
    ensures ReplaceAll(y, replacement) == y
  {
    NoMatchInQuoteFree(y, 0);
  }

  /** A tag line is rewritten by replacing with the proxy URL of its first attribute. */
  lemma RewriteTagLine(f: Foundation, line: string, origin: Url, p: nat, q: nat, abs: Url)
    requires line != [] && line[0] == '#'
    requires FirstMatch(line, 0) == Some((p, q))
    requires Absolute(f, line[p + |UriOpen|..q], origin) == Some(abs)
    ensures RewriteLine(f, line, origin) == ReplaceAll(line, UriOpen + ProxyString(f, abs) + "\"")
  {
  }

  /**
   * A tag line whose first `URI="v"` attribute resolves: that attribute and
   * every later one are replaced by the proxy URL of `v`'s resolved form.
   */
  lemma RewriteTagFirstDecides(f: Foundation, pre: string, v: string, rest: string, origin: Url, abs: Url)
    requires pre != [] && pre[0] == '#'
    requires QuoteFree(pre) && QuoteFree(v)
    requires Absolute(f, v, origin) == Some(abs)
    ensures var r := UriOpen + ProxyString(f, abs) + "\"";
      RewriteLine(f, pre + UriOpen + v + "\"" + rest, origin) == pre + r + ReplaceAll(rest, r)
  {
    var line := pre + UriOpen + v + "\"" + rest;
    FirstAttribute(pre, v, rest);
    assert line[0] == '#';
    RewriteTagLine(f, line, origin, |pre|, |pre| + |UriOpen| + |v|, abs);
    ReplaceFirst(pre, v, rest, UriOpen + ProxyString(f, abs) + "\"");
  }

  /**
   * A tag line with one `URI="v"` attribute: the value is replaced by the
   * proxy URL of its resolved form and the rest of the line is kept.
   */
  lemma RewriteOneAttribute(f: Foundation, pre: string, v: string, post: string, origin: Url, abs: Url)
    requires pre != [] && pre[0] == '#'
    requires QuoteFree(pre) && QuoteFree(v) && QuoteFree(post)
    requires Absolute(f, v, origin) == Some(abs)
    ensures RewriteLine(f, pre + UriOpen + v + "\"" + post, origin) == pre + UriOpen + ProxyString(f, abs) + "\"" + post
  {
    RewriteTagFirstDecides(f, pre, v, post, origin, abs);
    ReplaceInQuoteFree(post, UriOpen + ProxyString(f, abs) + "\"");
  }

  /**
   * A tag line with two `URI="..."` attributes: BOTH are replaced by the proxy
   * URL of the first value; the second value is lost.
   */
  lemma RewriteTwoAttributes(f: Foundation, pre: string, a: string, mid: string, b: string, post: string, origin: Url, abs: Url)
    requires pre != [] && pre[0] == '#'
    requires QuoteFree(pre) && QuoteFree(a) && QuoteFree(mid) && QuoteFree(b) && QuoteFree(post)
    requires Absolute(f, a, origin) == Some(abs)
    ensures var r := UriOpen + ProxyString(f, abs) + "\"";
      RewriteLine(f, pre + UriOpen + a + "\"" + (mid + UriOpen + b + "\"" + post), origin) == pre + r + (mid + r + post)
  {
    var r := UriOpen + ProxyString(f, abs) + "\"";
    RewriteTagFirstDecides(f, pre, a, mid + UriOpen + b + "\"" + post, origin, abs);
    ReplaceFirst(mid, b, post, r);
    ReplaceInQuoteFree(post, r);
  }

  /** A tag line without quotes has no attribute to replace and is kept. */
  lemma TagWithoutQuotesKept(f: Foundation, line: string, origin: Url)
    requires line != [] && line[0] == '#' && QuoteFree(line)
    ensures RewriteLine(f, line, origin) == line
  {
    NoMatchInQuoteFree(line, 0);
  }

  /** A tag line without any `URI="..."` attribute is kept. */
  lemma NoAttributeTagKept(f: Foundation, line: string, origin: Url)
    requires line != [] && line[0] == '#'
    requires forall p :: 0 <= p < |line| ==> MatchAt(line, p).None?
    ensures RewriteLine(f, line, origin) == line
  {
    assert FirstMatch(line, 0).None?;
  }

  /**
   * A tag line whose leftmost `URI="v"` attribute starts at `p` and ends at
   * `q` is kept when `v` does not resolve, whatever attributes follow.
   */
  lemma UnresolvedTagKept(f: Foundation, line: string, origin: Url, p: nat, q: nat)
    requires line != [] && line[0] == '#'
    requires MatchAt(line, p) == Some(q)
    requires forall k :: 0 <= k < p ==> MatchAt(line, k).None?
    requires Absolute(f, line[p + |UriOpen|..q], origin).None?
    ensures RewriteLine(f, line, origin) == line
  {
    FirstMatchIsFirst(line, 0);
    var r := FirstMatch(line, 0);
    assert r.Some? && r.value.0 <= p;
    assert r == Some((p, q));
  }

  /** A URI line that does not resolve against the playlist's URL is kept. */
  lemma UnresolvedUriLineKept(f: Foundation, line: string, origin: Url)
    requires line != [] && line[0] != '#'
    requires Absolute(f, line, origin).None?
    ensures RewriteLine(f, line, origin) == line
  {
    assert !HasPrefix(line, "#");
  }

  /**
   * A URI line is replaced by the proxy URL of its resolved form, and a
   * request for that proxy URL leads the handler back to the resolved form
   * whenever Foundation round-trips its absolute string.
   */
  lemma UriLineLeadsBack(f: Foundation, line: string, origin: Url, abs: Url)
    requires line != [] && line[0] != '#'
    requires Absolute(f, line, origin) == Some(abs)
    ensures RewriteLine(f, line, origin) == f.absoluteString(ProxyUrl(f, abs))
    ensures f.removingPercentEncoding(f.absoluteString(abs)) == Some(f.absoluteString(abs)) &&
            f.parseUrl(f.absoluteString(abs)) == Some(abs)
        ==> ExtractOrigin(f, RequestFor(ProxyUrl(f, abs))) == Some(abs)
  {
    ExtractOriginOfProxyUrl(f, abs);
  }

  // ---------------------------------------------------------------------------
  // rewritePlaylistData(_:origin:)

  /** Each line rewritten on its own, in order. */
  function RewriteLines(f: Foundation, lines: seq<string>, origin: Url): (r: seq<string>)
    ensures |r| == |lines|
    ensures forall k :: 0 <= k < |lines| ==> r[k] == RewriteLine(f, lines[k], origin)
  {
    seq(|lines|, k requires 0 <= k < |lines| => RewriteLine(f, lines[k], origin))
  }

  /**
   * The playlist text split at every newline character, each line rewritten,
   * and joined back with line feeds.
   */
  function RewritePlaylistText(f: Foundation, text: string, origin: Url): string {
    Join(RewriteLines(f, Split(text, IsNewline), origin), "\n")
  }

  /**
   * `rewritePlaylistData(_:origin:)`: nil exactly when the cached bytes are
   * not UTF-8; otherwise the UTF-8 encoding of the rewritten text.
   */
  function RewritePlaylistData(f: Foundation, data: Bytes, origin: Url): (r: Option<Bytes>)
    ensures r.None? <==> f.decodeUtf8(data).None?
    ensures r.Some? ==> r.value == f.encodeUtf8(RewritePlaylistText(f, f.decodeUtf8(data).value, origin))
  {
    match f.decodeUtf8(data)
    case None => None
    case Some(text) => Some(f.encodeUtf8(RewritePlaylistText(f, text, origin)))
  }

  /**
   * A line the rewriter leaves alone: an empty line, a tag line with no
   * `URI="..."` attribute or whose leftmost attribute's value does not
   * resolve, or a URI line that does not resolve.
   */
  predicate KeptLine(f: Foundation, line: string, origin: Url) {
    line == [] ||
    (line[0] == '#' &&
      ((forall p :: 0 <= p < |line| ==> MatchAt(line, p).None?) ||
       (exists p :: 0 <= p < |line| && MatchAt(line, p).Some? && (forall k :: 0 <= k < p ==> MatchAt(line, k).None?) &&
         Absolute(f, line[p + |UriOpen|..MatchAt(line, p).value], origin).None?))) ||
    (line[0] != '#' && Absolute(f, line, origin).None?)
  }

  /** Every kind of line the rewriter leaves alone is indeed kept. */
  lemma KeptLineKept(f: Foundation, line: string, origin: Url)
    requires KeptLine(f, line, origin)
    ensures RewriteLine(f, line, origin) == line
  {
    if line == [] {
    } else if line[0] != '#' {
      UnresolvedUriLineKept(f, line, origin);
    } else if forall p :: 0 <= p < |line| ==> MatchAt(line, p).None? {
      NoAttributeTagKept(f, line, origin);
    } else {
      var p :| 0 <= p < |line| && MatchAt(line, p).Some? && (forall k :: 0 <= k < p ==> MatchAt(line, k).None?) &&
        Absolute(f, line[p + |UriOpen|..MatchAt(line, p).value], origin).None?;
      UnresolvedTagKept(f, line, origin, p, MatchAt(line, p).value);
    }
  }

  /** A tag line without quotes is a line the rewriter leaves alone. */
  lemma QuoteFreeTagIsKeptLine(f: Foundation, line: string, origin: Url)
    requires line != [] && line[0] == '#' && QuoteFree(line)
    ensures KeptLine(f, line, origin)
  {
    forall p | 0 <= p < |line|
      ensures MatchAt(line, p).None?
    {
    }
  }

  /**
   * A playlist with line feeds only, whose every line is one the rewriter
   * leaves alone, comes out exactly as it went in.
   */
  lemma PlainPlaylistKept(f: Foundation, text: string, origin: Url)
    requires forall j :: 0 <= j < |text| && IsNewline(text[j]) ==> text[j] == '\n'
    requires forall k :: 0 <= k < |Split(text, IsNewline)| ==> KeptLine(f, Split(text, IsNewline)[k], origin)
    ensures RewritePlaylistText(f, text, origin) == text
  {
    var lines := Split(text, IsNewline);
    forall k | 0 <= k < |lines|
      ensures RewriteLine(f, lines[k], origin) == lines[k]
    {
      KeptLineKept(f, lines[k], origin);
    }
    assert RewriteLines(f, lines, origin) == lines;
    JoinSplit(text, '\n', IsNewline);
  }

  /** No newline character in `s`. */
  predicate OneLine(s: string) {
    forall j :: 0 <= j < |s| ==> !IsNewline(s[j])
  }

  /** A line feed followed by one line: an empty line, then that line. */
  lemma LineFeedThenLine(lf: char, y: string)
    requires lf == '\n' && OneLine(y)
    ensures Split([lf] + y, IsNewline) == [[], y]
  {
    assert [lf] + y == [] + [lf] + y;
    SplitAtFirst([], lf, y, IsNewline);
    SplitWithout(y, IsNewline);
  }

  /** The lines of `x` CR LF `y`: an empty line sits between the two. */
  lemma CrLfLines(x: string, y: string, cr: char, lf: char)
    requires cr == '\r' && lf == '\n'
    requires OneLine(x) && OneLine(y)
    ensures Split(x + [cr, lf] + y, IsNewline) == [x, [], y]
  {
    assert x + [cr, lf] + y == x + [cr] + ([lf] + y);
    SplitAtFirst(x, cr, [lf] + y, IsNewline);
    LineFeedThenLine(lf, y);
  }

  /**
   * A carriage return before a line feed is a line break of its own: the
   * empty line between them is kept, so CR LF comes out as two line feeds.
   */
  lemma CrLfBecomesTwoLineFeeds(f: Foundation, x: string, y: string, origin: Url)
    requires OneLine(x) && OneLine(y)
    ensures RewritePlaylistText(f, x + "\r\n" + y, origin) == RewriteLine(f, x, origin) + "\n\n" + RewriteLine(f, y, origin)
  {
    CrLfLines(x, y, '\r', '\n');
    assert x + "\r\n" + y == x + ['\r', '\n'] + y;
    var out := RewriteLines(f, [x, [], y], origin);
    assert out == [RewriteLine(f, x, origin), [], RewriteLine(f, y, origin)];
    assert out[1..] == [[], out[2]];
    assert Join(out[1..], "\n") == [] + "\n" + out[2];
  }
}
