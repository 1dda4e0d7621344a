/**
 * The HLS playlist parser (`HLSPlaylistParser`): a line-by-line scan of an
 * M3U8 manifest that collects media segments (`#EXTINF`, section 4.3.2.1 of
 * RFC 8216) and variant streams (`#EXT-X-STREAM-INF` with its `BANDWIDTH`
 * attribute, section 4.3.4.2 of RFC 8216) and classifies the playlist as a
 * master or a media playlist.
 */
module Playlist {
  import opened Wrappers
  import opened Text
  import opened Platform

  /** `Int.max` on a 64-bit platform: the bandwidth of a variant without one. */
  const IntMax: int := 0x7FFF_FFFF_FFFF_FFFF

  const StreamInfTag: string := "#EXT-X-STREAM-INF"
  const ExtInfTag: string := "#EXTINF:"
  const BandwidthMarker: string := "BANDWIDTH="

  datatype Segment = Segment(url: Url, duration: real)

  /** A variant stream; `bandwidth` is in bits per second. */
  datatype Variant = Variant(url: Url, bandwidth: int)

  datatype PlaylistKind = Master | Media

  datatype Playlist = Playlist(kind: PlaylistKind, segments: seq<Segment>, variants: seq<Variant>)

  // ---------------------------------------------------------------------------
  // extractBandwidth

  predicate OccursAt(s: string, p: string, i: nat) {
    i + |p| <= |s| && s[i..i + |p|] == p
  }

  /** `s.range(of: p)`: the index of the first occurrence of `p` in `s`. */
  function FindFirst(s: string, p: string, from: nat := 0): (r: Option<nat>)
    requires from <= |s|
    ensures r.Some? ==> from <= r.value && OccursAt(s, p, r.value)
    ensures forall j :: from <= j && (r.None? || j < r.value) ==> !OccursAt(s, p, j)
    decreases |s| - from
  {
    if OccursAt(s, p, from) then Some(from)
    else if from + |p| >= |s| then
      assert forall j :: from < j ==> !OccursAt(s, p, j);
      None
    else FindFirst(s, p, from + 1)
  }

  /** `Int(s)` on a run of decimal digits: nil when empty or beyond `Int.max`. */
  function ParseInt(digits: string): (r: Option<int>)
    requires AllDigits(digits)
    ensures r.Some? <==> digits != [] && DigitsValue(digits) <= IntMax
    ensures r.Some? ==> r.value == DigitsValue(digits)
  {
    if digits == [] || DigitsValue(digits) > IntMax then None else Some(DigitsValue(digits))
  }

  /**
   * `extractBandwidth(from:)`: the number made of the digits right after the
   * FIRST `BANDWIDTH=` in the line, which may be the tail of
   * `AVERAGE-BANDWIDTH=`.
   */
  function ExtractBandwidth(line: string): (r: Option<int>)
    ensures r.Some? ==> 0 <= r.value <= IntMax
    ensures FindFirst(line, BandwidthMarker).None? ==> r.None?
  {
    match FindFirst(line, BandwidthMarker)
    case None => None
    case Some(i) => ParseInt(DigitPrefix(line[i + |BandwidthMarker|..]))
  }

  /**
   * A printed bandwidth right after the first `BANDWIDTH=` is read back, as
   * long as it fits an `Int` and no digit follows it.
   */
  lemma {:induction false} ExtractBandwidthOfPrinted(head: string, n: nat, tail: string)
    requires forall j :: 0 <= j < |head| ==> !OccursAt(head + BandwidthMarker, BandwidthMarker, j)
    requires n <= IntMax
    requires tail == [] || !IsDigit(tail[0])
    ensures ExtractBandwidth(head + BandwidthMarker + NatToString(n) + tail) == Some(n)
  {
    var hb := head + BandwidthMarker;
    var line := hb + NatToString(n) + tail;
    assert line == hb + (NatToString(n) + tail);
    assert OccursAt(line, BandwidthMarker, |head|) by {
      assert line[|head|..|head| + |BandwidthMarker|] == hb[|head|..];
    }
    forall j | 0 <= j < |head|
      ensures !OccursAt(line, BandwidthMarker, j)
    {
      assert !OccursAt(hb, BandwidthMarker, j);
      if j + |BandwidthMarker| <= |hb| {
        assert hb[j..j + |BandwidthMarker|] == line[j..j + |BandwidthMarker|];
      }
    }
    FindFirstIsFirst(line, BandwidthMarker, |head|, 0);
    var after := line[|head| + |BandwidthMarker|..];
    assert after == NatToString(n) + tail;
    DigitPrefixOfDigits(NatToString(n), tail);
    DigitsOfNatToString(n);
  }

  /** The search finds the first occurrence. */
  lemma {:induction false} FindFirstIsFirst(s: string, p: string, i: nat, from: nat)
    requires from <= i && OccursAt(s, p, i)
    requires forall j :: from <= j < i ==> !OccursAt(s, p, j)
    ensures FindFirst(s, p, from) == Some(i)
    decreases i - from
  {
    if from < i {
      FindFirstIsFirst(s, p, i, from + 1);
    }
  }

  /** The digit run of digits followed by a non-digit is those digits. */
  lemma {:induction false} DigitPrefixOfDigits(digits: string, tail: string)
    requires AllDigits(digits)
    requires tail == [] || !IsDigit(tail[0])
    ensures DigitPrefix(digits + tail) == digits
  {
    if digits != [] {
      assert (digits + tail)[1..] == digits[1..] + tail;
      DigitPrefixOfDigits(digits[1..], tail);
    }
  }

  // ---------------------------------------------------------------------------
  // parse: one line at a time

  /** The variables `parse` updates as it reads the lines. */
  datatype ParserState = ParserState(
    segments: seq<Segment>,
    variants: seq<Variant>,
    currentDuration: Option<real>,
    pendingBW: Option<int>)

  const Start := ParserState([], [], None, None)

  /** `Double(num.split(separator: ",").first ?? "")`. */
  function ParseDuration(f: Foundation, num: string): Option<real> {
    f.parseDouble(FirstField(num, ',').GetOr(""))
  }

  /** A trimmed line that names a URI: not blank and not a tag or comment. */
  predicate IsUriLine(line: string) {
    line != [] && !HasPrefix(line, "#")
  }

  /** How `parse` treats a trimmed line, in the order of its tests. */
  datatype LineKind = StreamInfLine | ExtInfLine | Ignored | UriLine

  function KindOf(line: string): (k: LineKind)
    ensures k == UriLine <==> IsUriLine(line)
  {
    if HasPrefix(line, StreamInfTag) then StreamInfLine
    else if HasPrefix(line, ExtInfTag) then ExtInfLine
    else if !IsUriLine(line) then Ignored
    else UriLine
  }

  /** A stream-info tag: its bandwidth becomes pending, and the next line, if it resolves, a variant. */
  function StepStreamInf(st: ParserState, bw: Option<int>, next: Option<Url>): ParserState {
    st.(variants := if next.Some? then st.variants + [Variant(next.value, bw.GetOr(IntMax))] else st.variants,
        pendingBW := bw)
  }

  /** A URI line: a segment when a duration is pending, a variant otherwise. */
  function StepUri(st: ParserState, resolved: Option<Url>): ParserState {
    match resolved
    case None => st
    case Some(u) =>
      match st.currentDuration
      case Some(d) => st.(segments := st.segments + [Segment(u, d)], currentDuration := None)
      case None => st.(variants := st.variants + [Variant(u, st.pendingBW.GetOr(IntMax))])
  }

  // The functions below take the manifest's lines already trimmed, as `parse`
  // reads them.

  /** How `parse` treats line `i`. */
  function KindAt(lines: seq<string>, i: nat): LineKind
    requires i < |lines|
  {
    KindOf(lines[i])
  }

  /** The URL line `i` resolves to against `base`. */
  function UrlAt(f: Foundation, base: Url, lines: seq<string>, i: nat): Option<Url>
    requires i < |lines|
  {
    f.resolveUrl(lines[i], base)
  }

  /** The duration an `#EXTINF:` line at `i` announces, if it parses. */
  function DurationAt(f: Foundation, lines: seq<string>, i: nat): Option<real>
    requires i < |lines| && KindAt(lines, i) == ExtInfLine
  {
    ParseDuration(f, lines[i][|ExtInfTag|..])
  }

  /** The URL the line after line `i` resolves to, if there is such a line. */
  function NextUrl(f: Foundation, base: Url, lines: seq<string>, i: nat): Option<Url>
    requires i < |lines|
  {
    if i + 1 < |lines| then UrlAt(f, base, lines, i + 1) else None
  }

  /** What reading line `i` does to the parser's variables. */
  function Step(f: Foundation, base: Url, lines: seq<string>, i: nat, st: ParserState): ParserState
    requires i < |lines|
  {
    match KindAt(lines, i)
    case StreamInfLine => StepStreamInf(st, ExtractBandwidth(lines[i]), NextUrl(f, base, lines, i))
    case ExtInfLine => st.(currentDuration := DurationAt(f, lines, i))
    case Ignored => st
    case UriLine => StepUri(st, UrlAt(f, base, lines, i))
  }

  /** The parser's variables after reading the first `n` lines. */
  function Scan(f: Foundation, base: Url, lines: seq<string>, n: nat): ParserState
    requires n <= |lines|
  {
    if n == 0 then Start else Step(f, base, lines, n - 1, Scan(f, base, lines, n - 1))
  }

  /** The classification at the end of `parse`. */
  function Finish(st: ParserState): (r: Playlist)
    ensures r.kind == Master <==> st.variants != [] && st.segments == []
    ensures r.kind == Master ==> r.segments == [] && r.variants == st.variants
    ensures r.kind == Media ==> r.variants == [] && r.segments == st.segments
  {
    if st.variants != [] && st.segments == [] then Playlist(Master, [], st.variants)
    else Playlist(Media, st.segments, [])
  }

  /** `text.split(separator: "\n", omittingEmptySubsequences: false)`. */
  function Lines(text: string): seq<string> {
    Split(text, IsLineFeed)
  }

  /** The lines of `text`, each trimmed of whitespace and newlines. */
  function TrimmedLines(text: string): seq<string> {
    var raw := Lines(text);
    seq(|raw|, k requires 0 <= k < |raw| => Trim(raw[k]))
  }

  /** What `parse(baseURL:data:)` returns. */
  function ParseSpec(f: Foundation, base: Url, data: Bytes): Playlist {
    match f.decodeUtf8(data)
    case None => Playlist(Media, [], [])
    case Some(text) =>
      var lines := TrimmedLines(text);
      Finish(Scan(f, base, lines, |lines|))
  }

  /** `HLSPlaylistParser.parse(baseURL:data:)`. */
  method Parse(f: Foundation, base: Url, data: Bytes) returns (r: Playlist)
    ensures r == ParseSpec(f, base, data)
  {
    var decoded := f.decodeUtf8(data);
    if decoded.None? {
      return Playlist(Media, [], []);
    }
    var lines := Lines(decoded.value);
    ghost var trimmed := TrimmedLines(decoded.value);
    var segments: seq<Segment> := [];
    var variants: seq<Variant> := [];
    var currentDuration: Option<real> := None;
    var pendingBW: Option<int> := None;
    for i := 0 to |lines|
      invariant ParserState(segments, variants, currentDuration, pendingBW) == Scan(f, base, trimmed, i)
    {
      var line := Trim(lines[i]);
      assert line == trimmed[i];
      ScanStep(f, base, trimmed, i);
      if HasPrefix(line, StreamInfTag) {
        pendingBW := ExtractBandwidth(line);
        if i + 1 < |lines| {
          var next := Trim(lines[i + 1]);
          assert next == trimmed[i + 1];
          var u := f.resolveUrl(next, base);
          if u.Some? {
            variants := variants + [Variant(u.value, pendingBW.GetOr(IntMax))];
          }
        }
      } else if HasPrefix(line, ExtInfTag) {
        currentDuration := ParseDuration(f, line[|ExtInfTag|..]);
      } else if line == [] || HasPrefix(line, "#") {
      } else {
        var u := f.resolveUrl(line, base);
        if u.Some? {
          if currentDuration.Some? {
            segments := segments + [Segment(u.value, currentDuration.value)];
            currentDuration := None;
          } else {
            variants := variants + [Variant(u.value, pendingBW.GetOr(IntMax))];
          }
        }
      }
    }
    r := Finish(ParserState(segments, variants, currentDuration, pendingBW));
  }

  /** One more line read: what `Step` does, by the line's kind. */
  lemma ScanStep(f: Foundation, base: Url, lines: seq<string>, i: nat)
    requires i < |lines|
    ensures var st := Scan(f, base, lines, i);
      var line := lines[i];
      Scan(f, base, lines, i + 1) ==
        if HasPrefix(line, StreamInfTag) then StepStreamInf(st, ExtractBandwidth(line), NextUrl(f, base, lines, i))
        else if HasPrefix(line, ExtInfTag) then st.(currentDuration := ParseDuration(f, line[|ExtInfTag|..]))
        else if line == [] || HasPrefix(line, "#") then st
        else StepUri(st, f.resolveUrl(line, base))
  {
  }

  /** Bytes that are not UTF-8 give an empty media playlist. */
  lemma ParseOfNonUtf8(f: Foundation, base: Url, data: Bytes)
    requires f.decodeUtf8(data).None?
    ensures ParseSpec(f, base, data) == Playlist(Media, [], [])
  {
  }

  // ---------------------------------------------------------------------------
  // What the scan produces

  /** How many segments and variants line `k` is responsible for. */
  function EntriesAt(f: Foundation, base: Url, lines: seq<string>, k: nat): nat
    requires k < |lines|
  {
    match KindAt(lines, k)
    case UriLine => if UrlAt(f, base, lines, k).Some? then 1 else 0
    case StreamInfLine => if NextUrl(f, base, lines, k).Some? then 1 else 0
    case _ => 0
  }

  /** The number of segments and variants the first `n` lines are responsible for. */
  function Entries(f: Foundation, base: Url, lines: seq<string>, n: nat): nat
    requires n <= |lines|
  {
    if n == 0 then 0 else Entries(f, base, lines, n - 1) + EntriesAt(f, base, lines, n - 1)
  }

  /**
   * Every resolvable URI line gives exactly one segment or variant, and every
   * stream-info tag gives one more variant for the line after it: the URI
   * under a stream-info tag is recorded twice.
   */
  lemma {:induction false} EntriesCount(f: Foundation, base: Url, lines: seq<string>, n: nat)
    requires n <= |lines|
    ensures |Scan(f, base, lines, n).segments| + |Scan(f, base, lines, n).variants| == Entries(f, base, lines, n)
  {
    if n > 0 {
      EntriesCount(f, base, lines, n - 1);
    }
  }

  /** Lines that neither set nor consume a pending duration. */
  predicate KeepsDuration(lines: seq<string>, k: nat)
    requires k < |lines|
  {
    KindAt(lines, k) == StreamInfLine || KindAt(lines, k) == Ignored
  }

  /**
   * After an `#EXTINF:` whose duration parses to `d`, the next URI line that
   * resolves becomes one segment with duration `d`, and the pending duration
   * is cleared. Blank lines, comments and stream-info tags in between change
   * neither.
   */
  lemma ExtInfPairsWithNextUri(f: Foundation, base: Url, lines: seq<string>, i: nat, j: nat, d: real, u: Url)
    requires i < j < |lines|
    requires KindAt(lines, i) == ExtInfLine && DurationAt(f, lines, i) == Some(d)
    requires forall k :: i < k < j ==> KeepsDuration(lines, k)
    requires KindAt(lines, j) == UriLine && UrlAt(f, base, lines, j) == Some(u)
    ensures Scan(f, base, lines, j + 1).segments == Scan(f, base, lines, i).segments + [Segment(u, d)]
    ensures Scan(f, base, lines, j + 1).currentDuration == None
  {
    PendingDurationKept(f, base, lines, i, j, d);
  }

  /** The pending duration and the segments survive the lines between an `#EXTINF:` and its URI. */
  lemma {:induction false} PendingDurationKept(f: Foundation, base: Url, lines: seq<string>, i: nat, k: nat, d: real)
    requires i < k <= |lines|
    requires KindAt(lines, i) == ExtInfLine && DurationAt(f, lines, i) == Some(d)
    requires forall m :: i < m < k ==> KeepsDuration(lines, m)
    ensures Scan(f, base, lines, k).segments == Scan(f, base, lines, i).segments
    ensures Scan(f, base, lines, k).currentDuration == Some(d)
    decreases k - i
  {
    if k > i + 1 {
      PendingDurationKept(f, base, lines, i, k - 1, d);
      KeepStep(f, base, lines, k - 1);
    } else {
      ExtInfStep(f, base, lines, i);
    }
  }

  /** An `#EXTINF:` line sets the pending duration and leaves the segments alone. */
  lemma ExtInfStep(f: Foundation, base: Url, lines: seq<string>, m: nat)
    requires m < |lines| && KindAt(lines, m) == ExtInfLine
    ensures Scan(f, base, lines, m + 1).segments == Scan(f, base, lines, m).segments
    ensures Scan(f, base, lines, m + 1).currentDuration == DurationAt(f, lines, m)
  {
    assert Scan(f, base, lines, m + 1) == Step(f, base, lines, m, Scan(f, base, lines, m));
  }

  /** A stream-info tag or an ignored line leaves the segments and the pending duration alone. */
  lemma KeepStep(f: Foundation, base: Url, lines: seq<string>, m: nat)
    requires m < |lines| && KeepsDuration(lines, m)
    ensures Scan(f, base, lines, m + 1).segments == Scan(f, base, lines, m).segments
    ensures Scan(f, base, lines, m + 1).currentDuration == Scan(f, base, lines, m).currentDuration
  {
    assert Scan(f, base, lines, m + 1) == Step(f, base, lines, m, Scan(f, base, lines, m));
  }

  /**
   * A stream-info tag followed by a URI line, read with no pending duration,
   * records that URI as two equal variants.
   */
  lemma StreamInfUriRecordedTwice(f: Foundation, base: Url, lines: seq<string>, i: nat, u: Url)
    requires i + 1 < |lines|
    requires KindAt(lines, i) == StreamInfLine
    requires KindAt(lines, i + 1) == UriLine && UrlAt(f, base, lines, i + 1) == Some(u)
    requires Scan(f, base, lines, i).currentDuration == None
    ensures var v := Variant(u, ExtractBandwidth(lines[i]).GetOr(IntMax));
      Scan(f, base, lines, i + 2).variants == Scan(f, base, lines, i).variants + [v, v]
    ensures Scan(f, base, lines, i + 2).segments == Scan(f, base, lines, i).segments
  {
  }

  /** Without any `#EXTINF:` line no segment is ever recorded. */
  lemma {:induction false} NoExtInfNoSegments(f: Foundation, base: Url, lines: seq<string>, n: nat)
    requires n <= |lines|
    requires forall k :: 0 <= k < n ==> KindAt(lines, k) != ExtInfLine
    ensures Scan(f, base, lines, n).segments == [] && Scan(f, base, lines, n).currentDuration == None
  {
    if n > 0 {
      NoExtInfNoSegments(f, base, lines, n - 1);
      assert KindAt(lines, n - 1) != ExtInfLine;
    }
  }

  /**
   * A manifest without `#EXTINF:` is a master playlist exactly when some line
   * gave a variant, and then it carries every variant found.
   */
  lemma NoExtInfClassification(f: Foundation, base: Url, text: string, data: Bytes)
    requires f.decodeUtf8(data) == Some(text)
    requires forall k :: 0 <= k < |TrimmedLines(text)| ==> KindAt(TrimmedLines(text), k) != ExtInfLine
    ensures var lines := TrimmedLines(text);
      var r := ParseSpec(f, base, data);
      (r.kind == Master <==> Scan(f, base, lines, |lines|).variants != []) &&
      (r.kind == Master ==> r.variants == Scan(f, base, lines, |lines|).variants)
  {
    NoExtInfNoSegments(f, base, TrimmedLines(text), |TrimmedLines(text)|);
  }

  /**
   * An `#EXTINF:` whose duration does not parse leaves no duration pending,
   * so the URI line after it is taken for a variant, not a segment.
   */
  lemma UnparsableDurationMakesVariant(f: Foundation, base: Url, lines: seq<string>, i: nat, u: Url)
    requires i + 1 < |lines|
    requires KindAt(lines, i) == ExtInfLine && DurationAt(f, lines, i) == None
    requires KindAt(lines, i + 1) == UriLine && UrlAt(f, base, lines, i + 1) == Some(u)
    ensures var before := Scan(f, base, lines, i);
      Scan(f, base, lines, i + 2).variants == before.variants + [Variant(u, before.pendingBW.GetOr(IntMax))] &&
      Scan(f, base, lines, i + 2).segments == before.segments
  {
  }

  /** The raw lines of the manifest `#EXTINF:x,` / `seg.ts`. */
  lemma ExampleRawLines(text: string, a: string, b: string)
    requires a == "#EXTINF:x," && b == "seg.ts" && text == a + ['\n'] + b
    ensures Lines(text) == [a, b]
  {
    assert forall j :: 0 <= j < |a| ==> !IsLineFeed(a[j]);
    assert forall j :: 0 <= j < |b| ==> !IsLineFeed(b[j]);
    SplitAtFirst(a, '\n', b, IsLineFeed);
    SplitWithout(b, IsLineFeed);
  }

  /** The trimmed lines of the same manifest, and how `parse` takes them. */
  lemma ExampleLines(text: string, a: string, b: string)
    requires a == "#EXTINF:x," && b == "seg.ts" && text == a + ['\n'] + b
    ensures var lines := TrimmedLines(text);
      lines == [a, b] && KindAt(lines, 0) == ExtInfLine && KindAt(lines, 1) == UriLine &&
      lines[0][|ExtInfTag|..] == "x,"
  {
    ExampleRawLines(text, a, b);
    TrimOfTrimmed(a);
    TrimOfTrimmed(b);
    assert b[0] == 's';
  }

  /** The duration text `x,` is read as `x`. */
  lemma ExampleDuration(f: Foundation)
    ensures ParseDuration(f, "x,") == f.parseDouble("x")
  {
    assert "x,"[1..] == ",";
    assert TakeUntil("x,", ',') == "x";
  }

  /**
   * A manifest made of one `#EXTINF:` whose duration does not parse and one
   * URI line is classified as a master playlist with that URI as its variant.
   */
  lemma UnparsableDurationGivesMaster(f: Foundation, base: Url, data: Bytes, u: Url)
    requires f.decodeUtf8(data) == Some("#EXTINF:x,\nseg.ts")
    requires f.parseDouble("x") == None
    requires f.resolveUrl("seg.ts", base) == Some(u)
    ensures ParseSpec(f, base, data) == Playlist(Master, [], [Variant(u, IntMax)])
  {
    var text := f.decodeUtf8(data).value;
    ExampleLines(text, "#EXTINF:x,", "seg.ts");
    ExampleDuration(f);
    var lines := TrimmedLines(text);
    assert DurationAt(f, lines, 0) == None;
    TwoLineMaster(f, base, lines, u);
  }

  /** An `#EXTINF:` whose duration does not parse, then a URI: a master playlist with one variant. */
  lemma TwoLineMaster(f: Foundation, base: Url, lines: seq<string>, u: Url)
    requires |lines| == 2
    requires KindAt(lines, 0) == ExtInfLine && DurationAt(f, lines, 0) == None
    requires KindAt(lines, 1) == UriLine && UrlAt(f, base, lines, 1) == Some(u)
    ensures Finish(Scan(f, base, lines, |lines|)) == Playlist(Master, [], [Variant(u, IntMax)])
  {
    UnparsableDurationMakesVariant(f, base, lines, 0, u);
  }
}
