# HLS segment caching and prefetch, modelled in Dafny

This project models the caching and prefetching core of HLSDemo2, an iOS app that plays a feed of short HLS videos. It covers the Swift sources listed below.

- **`HLSPlaylistParser`** (`HLSSegment.swift`) reads an `.m3u8` manifest line by line. It collects media segments (an `#EXTINF:` duration followed by a URI) and variants (an `#EXT-X-STREAM-INF` tag with its `BANDWIDTH=`, or a URI that has no pending duration). It then classifies the manifest as master or media.
- **`HLSProxy`** (`HLSCacheItem.swift`) is a local reverse proxy on `http://127.0.0.1:12345`.
  - `proxyURL(for:)` moves an origin URL onto the local server. The origin rides along in the `__origin` query item.
  - The GET handler recovers the origin from that item.
  - Playlists are served from a SHA-256-keyed cache, or fetched and cached. They are rewritten on the way out so that every segment line and every `URI="..."` attribute points back at the proxy.
  - Segments and keys are served from the cache, or fetched and cached. Any other file is passed through.
  - `prefetchFirstSeconds` requests the playlist and then the segments that cover a number of seconds. Its own simpler segment parser pairs durations with URLs by position.
- **`HLSSegmentStore`** keeps one file per URL, named `hashValue-length` of the URL's absolute string.
- **`HLSSegmentURLProtocol`** intercepts `.ts`, `.m4s`, `.aac` and `.m3u8` loads.
  - A hit is answered from the store with a MIME type chosen by extension.
  - A miss is fetched once more, with a marker that keeps the layer from claiming it again. The body is written through to the store.
- **`HLSSegmentPrefetcher`** fetches a playlist, retrying only on time-outs with a 2 s then 4 s back-off.
  - A master playlist is followed to its lowest-bandwidth variant.
  - For a media playlist it starts a fetch for every uncached segment among those covering the requested seconds.
  - It can suspend, resume and cancel its tasks.
- **`HLSDownloadManager`** (`HLSDownloadManaging.swift`) runs AVAssetDownloadTask prefetches.
  - At most ten run at a time, through a semaphore `gate`. An LRU list picks the task to cancel when ten are tracked.
  - A task is stopped once the target seconds are loaded.
  - Videos whose download fails are remembered as not cacheable.
- **`ReelsPreheater`** keeps the `AVURLAsset`s of up to six videos and warms the assets of the neighbours of the current reel. The oldest entry is dropped first.

Foundation and CryptoKit operations are parameters of the model, the fields of `Platform.Foundation`: UTF-8 decoding, URL parsing, resolution and `absoluteString`, `pathExtension`, percent-decoding, `Double` parsing, `hashValue` and SHA-256. Nothing is assumed about them, so every property below holds for any implementation of them. Network outcomes are parameters as well: what a fetch returns, whether an attempt timed out, and whether a disk write lands.

Pure code becomes functions and lemmas; code that updates state becomes classes:
- `SegmentStore.Store`;
- `Proxy.HLSProxy`;
- `URLProtocolLayer.SegmentURLProtocol`;
- `Prefetcher.SegmentPrefetcher`;
- `DownloadManager.Manager`;
- `Preheater.ReelsPreheater`.

Each class's methods are proved against specification functions (`ParseSpec`, `Dispatch`, `Planned`, `PrefetchSpec`, `DidLoadSpec`, `DidCompleteSpec`, `NextOrder`, `WarmOrder`), and the properties are proved about those functions.

The model follows the code wherever the code and the written design differ.
- An `#EXTINF:` whose duration does not parse, followed by a URI, does not make a segment: the URI becomes a variant. A manifest with only such entries is therefore classified as a master playlist. Lemma `Playlist.UnparsableDurationGivesMaster` states this.
- An `#EXT-X-STREAM-INF` line's URI is recorded twice, once by the tag's look-ahead and once when the URI line itself is read. Lemma `Playlist.StreamInfUriRecordedTwice` states this.

## Model

| member | source | states |
|---|---|---|
| Text.TrimLeadingDropsWhitespace | HLSDemo2/HLSSegment.swift:35 | Trimming the start removes exactly the leading whitespace-and-newline run: the result is a suffix that starts with a non-blank character, and everything dropped is blank |
| Text.TrimTrailingDropsWhitespace | HLSDemo2/HLSSegment.swift:35 | The same for the end: the result is a prefix ending in a non-blank character, and everything dropped is blank |
| Text.TrimEnds | HLSDemo2/HLSSegment.swift:41 | `trimmingCharacters(in: .whitespacesAndNewlines)` leaves a string that is empty or neither starts nor ends with whitespace |
| Text.TrimOfTrimmed | HLSDemo2/HLSSegment.swift:41 | A string already without blank ends is left unchanged by trimming, so trimming is idempotent |
| Text.FirstIndex | HLSDemo2/HLSSegment.swift:27 | The index found is of the first separator, or the length when there is none |
| Text.Split | HLSDemo2/HLSSegment.swift:27 | Splitting without omitting empty pieces always gives at least one piece |
| Text.SplitPiecesWithoutSeparator | HLSDemo2/HLSCacheItem.swift:209 | No piece of a split contains a separator character |
| Text.SplitJoin | HLSDemo2/HLSCacheItem.swift:211 | Joining separator-free pieces with a one-character separator and splitting again gives back the pieces |
| Text.JoinSplit | HLSDemo2/HLSCacheItem.swift:209-211 | Splitting at separators that are all the character `c` and joining with `c` gives back the text |
| Text.FirstIndexAt | HLSDemo2/HLSSegment.swift:27 | The first separator position is the one with no separator before it |
| Text.SplitWithout | HLSDemo2/HLSSegment.swift:27 | A text without separators splits into itself alone |
| Text.SplitAtFirst | HLSDemo2/HLSSegment.swift:27 | A text splits at its first separator into the piece before it and the split of the rest |
| Text.TakeUntil | HLSDemo2/HLSCacheItem.swift:277 | The text up to the first `c` is a `c`-free prefix, stopped by a `c` when shorter than the text |
| Text.FirstField | HLSDemo2/HLSSegment.swift:52 | `split(separator: ",").first` is a non-empty `,`-free field, and is nil exactly when the text consists of commas only |
| Text.Lower | HLSDemo2/HLSSegmentURLProtocol.swift:34 | Lower-casing maps `A`-`Z` to `a`-`z` and keeps every other character and the length |
| Text.DigitPrefix | HLSDemo2/HLSSegment.swift:83 | `prefix { $0.isNumber }`: a run of digits that is a prefix and stops before a non-digit or at the end |
| Text.NatToString | HLSDemo2/HLSSegmentStore.swift:27 | `String(n)` is a non-empty digit string without a leading zero |
| Text.IntToString | HLSDemo2/HLSSegmentStore.swift:27 | `String(i)` for a signed integer is never empty |
| Text.DigitsOfNatToString | HLSDemo2/HLSSegmentStore.swift:27 | Reading back the printed digits gives the number |
| Text.NatToStringInjective | HLSDemo2/HLSSegmentStore.swift:27 | Different counts print differently |
| Text.DigitSuffixAfterDash | HLSDemo2/HLSSegmentStore.swift:27 | Two keys `h-d` that are equal, with digit suffixes, have equal suffixes |
| Text.LessAsymmetric | HLSDemo2/HLSCacheItem.swift:259 | The name order used to sort query items is asymmetric |
| Text.LessTotal | HLSDemo2/HLSCacheItem.swift:259 | Of two different names one sorts first |
| Text.LessTransitive | HLSDemo2/HLSCacheItem.swift:259 | The name order is transitive |
| Platform.DataTask.Suspend | HLSDemo2/HLSSegmentPrefetcher.swift:45 | A running task becomes suspended; a cancelled task stays cancelled |
| Platform.DataTask.Resume | HLSDemo2/HLSSegmentPrefetcher.swift:54 | A suspended task runs again; others keep their state |
| Platform.DataTask.Cancel | HLSDemo2/HLSSegmentPrefetcher.swift:62 | A cancelled task stays cancelled |
| Playlist.FindFirst | HLSDemo2/HLSSegment.swift:81 | `range(of: "BANDWIDTH=")` finds the first occurrence, and there is none before it |
| Playlist.FindFirstIsFirst | HLSDemo2/HLSSegment.swift:81 | An occurrence with none before it is the one found |
| Playlist.ParseInt | HLSDemo2/HLSSegment.swift:84 | `Int(number)` succeeds exactly for a non-empty digit run not above `Int.max`, with its value |
| Playlist.ExtractBandwidth | HLSDemo2/HLSSegment.swift:78-85 | The bandwidth is within `0...Int.max`, and a line without `BANDWIDTH=` has none |
| Playlist.ExtractBandwidthOfPrinted | HLSDemo2/HLSSegment.swift:78-85 | Printing any bandwidth after the first `BANDWIDTH=` and reading it back gives it |
| Playlist.DigitPrefixOfDigits | HLSDemo2/HLSSegment.swift:83 | The digit run of digits followed by a non-digit is those digits |
| Playlist.KindOf | HLSDemo2/HLSSegment.swift:38-57 | A trimmed line is treated as a URI exactly when it is neither blank nor starts with `#` |
| Playlist.Finish | HLSDemo2/HLSSegment.swift:71-75 | The result is master exactly when variants were found and segments were not; master carries only the variants, media only the segments |
| Playlist.Parse | HLSDemo2/HLSSegment.swift:25-76 | The parser loop computes the line-by-line specification `ParseSpec` (non-UTF-8 data gives an empty media playlist) |
| Playlist.Step | HLSDemo2/HLSSegment.swift:34-69 | What reading one trimmed line does to the parser's variables: a stream-info tag records its bandwidth with the next line's URL, an `#EXTINF:` sets or clears the pending duration, a URI line becomes a segment when a duration is pending and a variant otherwise, and any other line changes nothing |
| Playlist.Scan | HLSDemo2/HLSSegment.swift:34-69 | The parser's variables after the first `n` lines, read in order from empty lists and no pending duration |
| Playlist.ParseSpec | HLSDemo2/HLSSegment.swift:25-76 | What `parse` returns: an empty media playlist for bytes that are not UTF-8; otherwise every trimmed line scanned, then master or media by what was found |
| Playlist.ScanStep | HLSDemo2/HLSSegment.swift:34-69 | One line read: stream-info records its bandwidth and the next line's URL, `#EXTINF:` sets the pending duration, blanks and tags are skipped, a URI line resolves |
| Playlist.ParseOfNonUtf8 | HLSDemo2/HLSSegment.swift:26 | Bytes that are not UTF-8 parse as an empty media playlist |
| Playlist.EntriesCount | HLSDemo2/HLSSegment.swift:34-69 | Segments and variants together are exactly the entries the lines contribute, one per resolving stream-info look-ahead and one per resolving URI line |
| Playlist.ExtInfPairsWithNextUri | HLSDemo2/HLSSegment.swift:50-63 | A parsed duration pairs with the next URI line, whatever tags lie between, and is then cleared |
| Playlist.PendingDurationKept | HLSDemo2/HLSSegment.swift:50-57 | A pending duration survives any run of tags and blank lines, and no segment is added meanwhile |
| Playlist.StreamInfUriRecordedTwice | HLSDemo2/HLSSegment.swift:38-47 | A stream-info tag followed by its URI adds the same variant twice, with the tag's bandwidth or `Int.max` |
| Playlist.NoExtInfNoSegments | HLSDemo2/HLSSegment.swift:59-67 | Without `#EXTINF:` lines no segment is ever recorded |
| Playlist.NoExtInfClassification | HLSDemo2/HLSSegment.swift:71-75 | Without `#EXTINF:` lines the manifest is master exactly when it names a variant, and then carries all of them |
| Playlist.UnparsableDurationMakesVariant | HLSDemo2/HLSSegment.swift:52-66 | An `#EXTINF:` with an unparseable duration followed by a URI adds a variant with the pending bandwidth, not a segment |
| Playlist.UnparsableDurationGivesMaster | HLSDemo2/HLSSegment.swift:52-72 | `#EXTINF:x,` then `seg.ts` is classified as a master playlist with one variant of bandwidth `Int.max` |
| Playlist.ExampleLines | HLSDemo2/HLSSegment.swift:27-35 | A two-line manifest splits into its two trimmed lines, a duration tag and a URI |
| SegmentStore.KeysDifferByLength | HLSDemo2/HLSSegmentStore.swift:24-28 | URLs whose absolute strings differ in length never share a file name, whatever the hash values |
| SegmentStore.Store.Read | HLSDemo2/HLSSegmentStore.swift:46-48 | `read` returns the file stored under the URL's key exactly when `has` holds |
| SegmentStore.Key | HLSDemo2/HLSSegmentStore.swift:24-28 | `key(for:)`: the absolute string's `hashValue`, a dash, and its character count |
| SegmentStore.Store.Path | HLSDemo2/HLSSegmentStore.swift:30-32 | `path(for:)`: the key as a file name under the store's root directory |
| SegmentStore.Store.Has | HLSDemo2/HLSSegmentStore.swift:34-36 | `has(_:)`: a file exists under the URL's key |
| SegmentStore.Store.Write | HLSDemo2/HLSSegmentStore.swift:38-44 | A landed write stores the bytes under the URL's key, after which `read` returns them, and leaves every other key unchanged; a failed write changes nothing |
| SegmentStore.Store.CachedSummary | HLSDemo2/HLSSegmentStore.swift:50-53 | The summary lists every file name once and nothing else |
| SegmentStore.Store.ClearAll | HLSDemo2/HLSSegmentStore.swift:55-58 | After clearing, no URL is cached |
| SegmentStore.SummaryAfterClear | HLSDemo2/HLSSegmentStore.swift:50-58 | The summary after clearing is empty |
| Budget.SumStep | HLSDemo2/HLSSegmentPrefetcher.swift:100 | The running sum grows by each duration in turn |
| Budget.VisitFrom | HLSDemo2/HLSSegmentPrefetcher.swift:88-101 | The walk resumed at `i` stops between `i` and the end |
| Budget.VisitFromCharacterized | HLSDemo2/HLSSegmentPrefetcher.swift:88-101 | The walk resumed at `i` goes on while the sum so far is below the target, and stops at the end or once it is reached |
| Budget.VisitCountCharacterized | HLSDemo2/HLSCacheItem.swift:96-104 | The segments visited are the longest prefix each of whose preceding sums is below the target |
| Budget.NothingForNoSeconds | HLSDemo2/HLSCacheItem.swift:99 | A target of zero or less visits nothing |
| Budget.FourSegmentsTenSeconds | HLSDemo2/HLSSegmentPrefetcher.swift:88-101 | Four 4-second segments for 10 seconds visit three: the check comes before the addition |
| Budget.Sum | HLSDemo2/HLSSegmentPrefetcher.swift:88-100 | The running sum of the walks: the durations added left to right from 0 |
| Budget.VisitCount | HLSDemo2/HLSCacheItem.swift:96-104 | How many segments a walk takes: it stops before the first segment at which the running sum has reached the target, or at the end of the list |
| ProxyUrls.InsertByNameKeepsItems | HLSDemo2/HLSCacheItem.swift:259 | Inserting an item keeps every item |
| ProxyUrls.InsertByNameSorted | HLSDemo2/HLSCacheItem.swift:259 | Inserting into a name-sorted list keeps it sorted |
| ProxyUrls.SortByNameCorrect | HLSDemo2/HLSCacheItem.swift:255-261 | `queryItems` is sorted by name and is a permutation of the URL's items |
| ProxyUrls.ProxyUrlShape | HLSDemo2/HLSCacheItem.swift:74-86 | The proxy URL is `http://127.0.0.1:12345` with the origin's path (or `/`), its query items sorted, then `__origin` holding the origin's absolute string |
| ProxyUrls.ProxyUrl | HLSDemo2/HLSCacheItem.swift:74-86 | `proxyURL(for:)`: `http`, `127.0.0.1`, port 12345, the origin's path (`/` when empty), the origin's query items sorted by name, then `__origin` holding the origin's absolute string |
| ProxyUrls.SortByName | HLSDemo2/HLSCacheItem.swift:255-261 | `queryItems`: the URL's query items sorted by `name <` |
| ProxyUrls.ServerQuery | HLSDemo2/HLSCacheItem.swift:181-182 | The query dictionary `req.query` the handler reads: only items with a value, a later item with the same name replacing an earlier one |
| ProxyUrls.RequestFor | HLSDemo2/HLSCacheItem.swift:181-182 | The request the server hands the handler for a GET of a URL: no query dictionary when the URL has no query items |
| ProxyUrls.Absolute | HLSDemo2/HLSCacheItem.swift:237-250 | `absolute(_:origin:)`: an `http://` or `https://` string is parsed as it is; a `/`-rooted path goes on the origin's scheme, host and port, nil when the components make no URL; anything else is appended to the origin's parent directory; both relative forms are standardized |
| ProxyUrls.CacheKey | HLSDemo2/HLSCacheItem.swift:202-204 | `key(_:)`: the hex SHA-256 of the UTF-8 of the URL's absolute string |
| ProxyUrls.ExtractOrigin | HLSDemo2/HLSCacheItem.swift:181-186 | An origin is only found in a request whose query has `__origin` |
| ProxyUrls.ExtractOriginOfProxyUrl | HLSDemo2/HLSCacheItem.swift:74-86 | The request for a proxy URL hands the handler the origin's absolute string, and the origin itself whenever decoding and parsing read it back |
| ProxyUrls.NoOriginKeyNoOrigin | HLSDemo2/HLSCacheItem.swift:182 | A request without `__origin` has no origin |
| ProxyUrls.AbsoluteOfFullUrl | HLSDemo2/HLSCacheItem.swift:238 | A full `http://` or `https://` reference is parsed as is, whatever the origin |
| ProxyUrls.AbsoluteOfRootRelative | HLSDemo2/HLSCacheItem.swift:240-246 | A `/` reference depends only on the origin's scheme, host and port |
| ProxyUrls.AbsoluteOfRelative | HLSDemo2/HLSCacheItem.swift:239-248 | Any other reference depends only on the origin's parent directory, and always resolves |
| Rewrite.NextQuote | HLSDemo2/HLSCacheItem.swift:220 | The closing quote found is a quote at or after the start |
| Rewrite.NextQuoteIsFirst | HLSDemo2/HLSCacheItem.swift:220 | There is no quote before the one found |
| Rewrite.MatchAt | HLSDemo2/HLSCacheItem.swift:220 | A `URI="..."` match ends at the first quote after `URI="`, and that character is a quote |
| Rewrite.FirstMatch | HLSDemo2/HLSCacheItem.swift:223 | `firstMatch` is a match at or after the start |
| Rewrite.FirstMatchIsFirst | HLSDemo2/HLSCacheItem.swift:223 | No match starts before the one found |
| Rewrite.FirstMatchAfterQuoteFree | HLSDemo2/HLSCacheItem.swift:223 | After a quote-free stretch, the first `URI="` with a closing quote is the match |
| Rewrite.NoMatchInQuoteFree | HLSDemo2/HLSCacheItem.swift:223 | A quote-free stretch has no match |
| Rewrite.AttributeAfter | HLSDemo2/HLSCacheItem.swift:224 | The captured value of `x URI="v" y` is `v`, between the opening and the closing quote |
| Rewrite.FirstAttribute | HLSDemo2/HLSCacheItem.swift:223-224 | In `x URI="v" y` with `x` quote-free, the first match captures `v` |
| Rewrite.ReplaceFirst | HLSDemo2/HLSCacheItem.swift:227 | Replacing all matches replaces the first attribute and continues after it |
| Rewrite.ReplaceInQuoteFree | HLSDemo2/HLSCacheItem.swift:227 | Replacing in a quote-free text changes nothing |
| Rewrite.RewriteTagLine | HLSDemo2/HLSCacheItem.swift:218-227 | A tag line whose first attribute resolves has every match replaced by `URI="<proxy URL of the first value>"` |
| Rewrite.RewriteTagFirstDecides | HLSDemo2/HLSCacheItem.swift:223-227 | The first attribute's value decides the replacement of every attribute on the line |
| Rewrite.RewriteOneAttribute | HLSDemo2/HLSCacheItem.swift:218-227 | A tag with one attribute gets exactly that attribute redirected to the proxy, the rest of the line kept |
| Rewrite.RewriteTwoAttributes | HLSDemo2/HLSCacheItem.swift:223-227 | A tag with two attributes gets BOTH replaced by the proxy URL of the first one's value |
| Rewrite.TagWithoutQuotesKept | HLSDemo2/HLSCacheItem.swift:223 | A tag line with no quotes is kept |
| Rewrite.UriLineLeadsBack | HLSDemo2/HLSCacheItem.swift:231-233 | A resolving segment line becomes the proxy URL of its absolute form, which the handler maps back to that URL |
| Rewrite.RewriteLines | HLSDemo2/HLSCacheItem.swift:210 | Every line is rewritten on its own, and the line count is kept |
| Rewrite.ReplaceAll | HLSDemo2/HLSCacheItem.swift:225-227 | `stringByReplacingMatches`: every non-overlapping match, leftmost first, replaced by the same template, the text between matches kept |
| Rewrite.RewriteLine | HLSDemo2/HLSCacheItem.swift:215-235 | `rewrite(line:origin:)`: empty lines kept; a `#` line has every `URI="..."` replaced with the proxy URL of its FIRST attribute's resolved value, and is kept when it has none or that value does not resolve; any other line becomes the proxy URL of its resolved form, or is kept when it does not resolve |
| Rewrite.RewritePlaylistText | HLSDemo2/HLSCacheItem.swift:208-211 | The text split at every newline character, each line rewritten, joined with `\n` |
| Rewrite.RewritePlaylistData | HLSDemo2/HLSCacheItem.swift:206-213 | Rewriting fails exactly when the cached bytes are not UTF-8; otherwise it is the UTF-8 of the rewritten text |
| Rewrite.PlainPlaylistKept | HLSDemo2/HLSCacheItem.swift:206-213 | A playlist of `\n`-separated lines that are each left alone by `rewrite(line:origin:)` (`KeptLine`) comes out unchanged |
| Rewrite.NoAttributeTagKept | HLSDemo2/HLSCacheItem.swift:218-224 | A `#` line with no `URI="..."` match anywhere is kept |
| Rewrite.UnresolvedTagKept | HLSDemo2/HLSCacheItem.swift:218-227 | A `#` line whose leftmost `URI="v"` match has a value that `absolute` cannot resolve is kept, whatever follows it |
| Rewrite.UnresolvedUriLineKept | HLSDemo2/HLSCacheItem.swift:229-234 | A non-empty line not starting with `#` that `absolute` cannot resolve is kept |
| Rewrite.KeptLineKept | HLSDemo2/HLSCacheItem.swift:215-235 | Every line of the four kinds the rewriter leaves alone (empty, tag without attribute, tag with unresolvable first value, unresolvable URI line) is kept |
| Rewrite.QuoteFreeTagIsKeptLine | HLSDemo2/HLSCacheItem.swift:218-224 | A tag line without quotes holds no match at all, so it is one the rewriter leaves alone |
| Rewrite.LineFeedThenLine | HLSDemo2/HLSCacheItem.swift:209 | A leading line feed makes an empty first line |
| Rewrite.CrLfLines | HLSDemo2/HLSCacheItem.swift:209 | `components(separatedBy: .newlines)` splits `x\r\ny` into three lines, the middle one empty |
| Rewrite.CrLfBecomesTwoLineFeeds | HLSDemo2/HLSCacheItem.swift:208-211 | A CRLF line break comes out of the rewrite as two line feeds |
| ProxySegments.CollectSnoc | HLSDemo2/HLSCacheItem.swift:274-281 | Each line adds its duration or its URL at the end of the two lists |
| ProxySegments.LineContributesOne | HLSDemo2/HLSCacheItem.swift:275-279 | A line adds to the durations or to the URLs, never both |
| ProxySegments.Pair | HLSDemo2/HLSCacheItem.swift:282-286 | The result has the length of the shorter list, and entry `i` pairs the `i`-th URL with the `i`-th duration |
| ProxySegments.ParseSegments | HLSDemo2/HLSCacheItem.swift:271-287 | The loop collects durations and URLs line by line and pairs them up, as `SegmentsOf` |
| ProxySegments.PairUp | HLSDemo2/HLSCacheItem.swift:282-286 | The pairing loop computes `Pair` |
| ProxySegments.LineDuration | HLSDemo2/HLSCacheItem.swift:275-277 | An `#EXTINF:` line contributes its first comma-separated field (`"0"` when there is none) when it parses as a number; other lines contribute no duration |
| ProxySegments.LineUrl | HLSDemo2/HLSCacheItem.swift:278-279 | A non-empty line not starting with `#` contributes its resolved URL when `absolute` succeeds; other lines contribute none |
| ProxySegments.SegmentsOf | HLSDemo2/HLSCacheItem.swift:271-287 | `parseSegments`: the durations and the URLs collected separately over all lines, then paired by position |
| ProxySegments.CountsOfLines | HLSDemo2/HLSCacheItem.swift:274-281 | Durations and URLs together never outnumber the lines |
| ProxySegments.EntryAppends | HLSDemo2/HLSCacheItem.swift:271-287 | When the lists are in step, a duration line and a URL line add exactly one segment |
| ProxySegments.DroppedDurationShiftsPairing | HLSDemo2/HLSCacheItem.swift:277-284 | A duration that does not parse is dropped, so later durations pair with earlier URLs: `[e1, u1, e2, u2]` gives `[(u1, d2)]` |
| ProxySegments.ProxyRequests | HLSDemo2/HLSCacheItem.swift:102 | The first `n` segments' proxy URLs, in order |
| ProxySegments.PrefetchFirstSeconds | HLSDemo2/HLSCacheItem.swift:89-107 | The playlist's proxy URL is requested first; if the body is missing or not UTF-8 nothing else is; otherwise exactly the proxy URLs of the segments covering the seconds follow |
| ProxySegments.RequestSegments | HLSDemo2/HLSCacheItem.swift:96-104 | The budget loop requests the proxy URLs of exactly the visited segments |
| Proxy.ServePlaylist | HLSDemo2/HLSCacheItem.swift:128-133 | A playlist is served rewritten with its MIME type, or answered 500 exactly when it is not UTF-8 |
| Proxy.Extension | HLSDemo2/HLSCacheItem.swift:123 | The origin's path extension, lower-cased |
| Proxy.Dispatch | HLSDemo2/HLSCacheItem.swift:117-177 | Every error is 400, 500 or 502, and 400 exactly when the request has no origin |
| Proxy.HLSProxy.Read | HLSDemo2/HLSCacheItem.swift:194-196 | `read` returns the item under the URL's key exactly when there is one |
| Proxy.HLSProxy.Write | HLSDemo2/HLSCacheItem.swift:198-200 | `write` stores the item under its own URL's key, after which `read` returns it |
| Proxy.HLSProxy.Handle | HLSDemo2/HLSCacheItem.swift:118-176 | The handler's response, cache and fetch agree with `Dispatch` |
| Proxy.HitUsesNoNetwork | HLSDemo2/HLSCacheItem.swift:127-157 | A playlist or segment hit fetches nothing, changes nothing and serves the cached item |
| Proxy.FailedFetchIs502 | HLSDemo2/HLSCacheItem.swift:137-160 | A miss whose fetch brings no data or no MIME type answers 502 and caches nothing |
| Proxy.PlaylistMissThenHit | HLSDemo2/HLSCacheItem.swift:136-148 | A playlist miss caches the raw bytes and serves them rewritten; repeating the request is a hit with the same response |
| Proxy.SegmentMissThenHit | HLSDemo2/HLSCacheItem.swift:158-167 | A segment miss caches the bytes, with `video/mp4` forced for `mp4`; repeating the request is a hit with the same response |
| Proxy.OtherExtensionsPassThrough | HLSDemo2/HLSCacheItem.swift:171-175 | Other files are always fetched and never cached |
| Proxy.OnlyOriginKeyChanges | HLSDemo2/HLSCacheItem.swift:141-164 | The cache only grows, by the fetched item for the request's own origin |
| Proxy.ProxyUrlServesOrigin | HLSDemo2/HLSCacheItem.swift:119-123 | A request for the proxy URL of an origin is handled for that origin |
| URLProtocolLayer.CanInit | HLSDemo2/HLSSegmentURLProtocol.swift:31-38 | A request is claimed exactly when it is unmarked, has a URL, and its lower-cased extension is `ts`, `m4s`, `aac` or `m3u8` |
| URLProtocolLayer.MimeType | HLSDemo2/HLSSegmentURLProtocol.swift:48-55 | The MIME type is `application/octet-stream` exactly for an extension the layer does not claim |
| URLProtocolLayer.MimeTypesDistinct | HLSDemo2/HLSSegmentURLProtocol.swift:49-53 | Each claimed extension has its own MIME type |
| URLProtocolLayer.CompletionEndsOnce | HLSDemo2/HLSSegmentURLProtocol.swift:68-78 | A completion tells the client of exactly one end, a failure exactly when the transfer failed, with the body before it |
| URLProtocolLayer.HitEndsOnce | HLSDemo2/HLSSegmentURLProtocol.swift:56-60 | A hit tells the client a 200 response, the bytes, then one finish |
| URLProtocolLayer.HitEvents | HLSDemo2/HLSSegmentURLProtocol.swift:46-61 | What a hit tells the client: a 200 response with the MIME type of the lower-cased extension, the stored bytes, then finish |
| URLProtocolLayer.CompletionEvents | HLSDemo2/HLSSegmentURLProtocol.swift:68-78 | What a miss's completion tells the client: the response if any, the body if any, then failure on an error and finish otherwise |
| URLProtocolLayer.SegmentURLProtocol.StartLoading | HLSDemo2/HLSSegmentURLProtocol.swift:42-81 | No URL: nothing. A hit: the hit events with the stored bytes and no task. A miss: one running task for a marked request the layer does not claim again |
| URLProtocolLayer.SegmentURLProtocol.Complete | HLSDemo2/HLSSegmentURLProtocol.swift:68-78 | The completion events are forwarded, and a landed body is stored under the original URL |
| URLProtocolLayer.SegmentURLProtocol.StopLoading | HLSDemo2/HLSSegmentURLProtocol.swift:83-86 | The task, if any, is cancelled and forgotten |
| URLProtocolLayer.MarkedRequestNotClaimed | HLSDemo2/HLSSegmentURLProtocol.swift:32 | A marked request is never claimed |
| URLProtocolLayer.MissThenHit | HLSDemo2/HLSSegmentURLProtocol.swift:42-81 | After a miss whose body landed, a second load of the same request is a hit with those bytes |
| Prefetcher.Pow2 | HLSDemo2/HLSSegmentPrefetcher.swift:122 | The back-off is at least one second |
| Prefetcher.LastAttempt | HLSDemo2/HLSSegmentPrefetcher.swift:109-142 | The attempt that ends the fetch is never before the first one counted |
| Prefetcher.Backoff | HLSDemo2/HLSSegmentPrefetcher.swift:121-125 | Retry `i` waits `2^(i+1)` seconds |
| Prefetcher.LastAttemptFrom | HLSDemo2/HLSSegmentPrefetcher.swift:120-132 | Every attempt before the last timed out, and the last one either did not time out or had no retry left |
| Prefetcher.RetryChain | HLSDemo2/HLSSegmentPrefetcher.swift:109-142 | A fetch makes at most `retries + 1` attempts, retrying only after time-outs |
| Prefetcher.TwoTimeoutsThenDeliver | HLSDemo2/HLSSegmentPrefetcher.swift:74 | With two retries, constant time-outs make three attempts, waiting 2 s then 4 s |
| Prefetcher.MinIndex | HLSDemo2/HLSSegmentPrefetcher.swift:83 | The index chosen lies among the first `n` variants |
| Prefetcher.LowestBandwidth | HLSDemo2/HLSSegmentPrefetcher.swift:83 | A variant is chosen exactly when there is one |
| Prefetcher.MinIndexIsFirstMinimum | HLSDemo2/HLSSegmentPrefetcher.swift:83 | The chosen variant has the lowest bandwidth, and every earlier one has a higher bandwidth |
| Prefetcher.LowestBandwidthCorrect | HLSDemo2/HLSSegmentPrefetcher.swift:83 | `variants.min(by:)` returns the first variant of lowest bandwidth |
| Prefetcher.MissingCharacterized | HLSDemo2/HLSSegmentPrefetcher.swift:91-98 | A URL is fetched exactly when a visited segment has it and the store has no file for it |
| Prefetcher.MissingSnoc | HLSDemo2/HLSSegmentPrefetcher.swift:91-98 | Visiting one more segment fetches it exactly when it is not cached |
| Prefetcher.PlannedBounded | HLSDemo2/HLSSegmentPrefetcher.swift:69-105 | Nothing is fetched while suspended, and nothing already cached is fetched |
| Prefetcher.Visited | HLSDemo2/HLSSegmentPrefetcher.swift:88-101 | The segments the media walk passes, cached or not: the prefix that `VisitCount` of their durations allows |
| Prefetcher.Missing | HLSDemo2/HLSSegmentPrefetcher.swift:89-99 | The URLs of the segments without a file in the store, in order: those the walk starts a fetch for |
| Prefetcher.Planned | HLSDemo2/HLSSegmentPrefetcher.swift:69-105 | What a prefetch fetches: nothing while suspended or when the playlist cannot be fetched; otherwise, for a master playlist, what a prefetch of its lowest-bandwidth variant fetches; for a media playlist, the `Missing` ones among the `Visited` segments |
| Prefetcher.AddTask | HLSDemo2/HLSSegmentPrefetcher.swift:136 | Registering a new running task keeps the registered tasks running and adds only that one |
| Prefetcher.SegmentPrefetcher.Suspend | HLSDemo2/HLSSegmentPrefetcher.swift:41-48 | Suspending a running prefetcher suspends every running task; suspending twice changes nothing |
| Prefetcher.SegmentPrefetcher.Resume | HLSDemo2/HLSSegmentPrefetcher.swift:50-57 | Resuming a suspended prefetcher resumes every suspended task; resuming twice changes nothing |
| Prefetcher.SegmentPrefetcher.CancelAll | HLSDemo2/HLSSegmentPrefetcher.swift:60-66 | Every task is cancelled and the table is emptied |
| Prefetcher.SegmentPrefetcher.StartAttempt | HLSDemo2/HLSSegmentPrefetcher.swift:113-138 | One attempt is a fresh running task registered under its URL |
| Prefetcher.SegmentPrefetcher.AttemptDone | HLSDemo2/HLSSegmentPrefetcher.swift:118 | A finished attempt is removed from the table |
| Prefetcher.SegmentPrefetcher.FetchWithRetry | HLSDemo2/HLSSegmentPrefetcher.swift:109-142 | The data delivered is that of the last attempt, after the back-off delays of the retries, and no task is left for the URL |
| Prefetcher.SegmentPrefetcher.FetchSegment | HLSDemo2/HLSSegmentPrefetcher.swift:92-96 | A segment's delivered body, when it lands, is stored under its URL's key; nothing else is written |
| Prefetcher.SegmentPrefetcher.MediaWalk | HLSDemo2/HLSSegmentPrefetcher.swift:87-101 | The walk starts fetches for exactly the uncached segments among those that cover the seconds, in order |
| Prefetcher.SegmentPrefetcher.StartFetches | HLSDemo2/HLSSegmentPrefetcher.swift:92 | A fresh running task is registered for every URL the walk starts |
| Prefetcher.SegmentPrefetcher.PrefetchFirstSeconds | HLSDemo2/HLSSegmentPrefetcher.swift:69-105 | The fetches started are `Planned`: none while suspended, a master playlist followed to its lowest-bandwidth variant, a media playlist's uncached segments within the budget. The task table afterwards is the old one without the playlists fetched on the way (`PlaylistChain`), plus one new running task per segment fetch started; every other task is kept |
| Prefetcher.SegmentPrefetcher.FollowPlaylist | HLSDemo2/HLSSegmentPrefetcher.swift:80-103 | After the playlist is parsed: the fetches started are `PlannedFrom` it, and the tasks are the old ones without the variant playlists fetched (`ChainFrom`) plus the new segment tasks |
| Prefetcher.PlaylistChain | HLSDemo2/HLSSegmentPrefetcher.swift:69-86 | No playlist is fetched while suspended; otherwise the playlist a prefetch starts from is always among those fetched |
| DownloadManager.AtLeastOne | HLSDemo2/HLSDownloadManaging.swift:104 | `max(1, targetSeconds)` is at least 1 and at least the target, and is one of them |
| DownloadManager.Min | HLSDemo2/HLSDownloadManaging.swift:167 | `min` is below both and is one of them |
| DownloadManager.RemoveFirst | HLSDemo2/HLSDownloadManaging.swift:136 | Removing an absent id changes nothing |
| DownloadManager.RemoveFirstAt | HLSDemo2/HLSDownloadManaging.swift:136 | `firstIndex(of:)` then `remove(at:)` removes exactly the first occurrence |
| DownloadManager.RemoveFirstDistinct | HLSDemo2/HLSDownloadManaging.swift:188 | On a list without repetitions, removal keeps the others, drops the id, and shortens the list by one when the id was there |
| DownloadManager.RemoveFirstMultiset | HLSDemo2/HLSDownloadManaging.swift:136 | Removal takes exactly one occurrence out of the multiset |
| DownloadManager.BumpCorrect | HLSDemo2/HLSDownloadManaging.swift:135-138 | `bumpLRU` moves the id to the end of the list, keeping the others in order and without repetitions |
| DownloadManager.BumpPermutes | HLSDemo2/HLSDownloadManaging.swift:135-138 | Bumping a listed id permutes the list |
| DownloadManager.DistinctCard | HLSDemo2/HLSDownloadManaging.swift:141 | A list without repetitions has as many elements as distinct ids |
| DownloadManager.TasksCount | HLSDemo2/HLSDownloadManaging.swift:141 | Under the invariant, `tasksByVideoID.count` equals the LRU list's length |
| DownloadManager.VideoOf | HLSDemo2/HLSDownloadManaging.swift:186 | `first(where:)` finds the video whose task has the identifier, or there is none |
| DownloadManager.CachedIffPositive | HLSDemo2/HLSDownloadManaging.swift:118-124 | `cachedVideoIDs` lists exactly the videos whose `prefetchedSeconds` is positive |
| DownloadManager.EnforceCorrect | HLSDemo2/HLSDownloadManaging.swift:140-147 | `enforceLRULimit` keeps the invariant and leaves fewer than ten tasks, evicting only the least recently used when ten are tracked |
| DownloadManager.Inv | HLSDemo2/HLSDownloadManaging.swift:49-53 | The manager's invariant: the tracked videos are exactly the LRU list, which has no repetitions and at most ten entries; task identifiers are distinct and already handed out; the gate is never negative; with the corrected gate the queue never blocks and the gate counts the free slots |
| DownloadManager.Bump | HLSDemo2/HLSDownloadManaging.swift:135-138 | `bumpLRU`: the first occurrence of the id removed, the id appended |
| DownloadManager.EvictOldest | HLSDemo2/HLSDownloadManaging.swift:141-146 | One round of `enforceLRULimit`: the head of the LRU list is cancelled if tracked, untracked and dropped from the list; only the corrected gate gets a slot back |
| DownloadManager.Enforce | HLSDemo2/HLSDownloadManaging.swift:140-147 | The loop's exit: afterwards fewer than ten tasks are tracked or the LRU list is empty; the not-cacheable set, the stall and the recorded seconds are untouched |
| DownloadManager.Wait | HLSDemo2/HLSDownloadManaging.swift:108 | `gate.wait()` on the serial queue: a free slot is taken, and with none the queue blocks for good |
| DownloadManager.AddTask | HLSDemo2/HLSDownloadManaging.swift:102-104 | A new task is tracked under its video with the next identifier, its target is `max(1, target)`, and the video is bumped in the LRU list |
| DownloadManager.PrefetchSpec | HLSDemo2/HLSDownloadManaging.swift:69-110 | `prefetch`: nothing on a blocked queue or for a not-cacheable video; a tracked video is only bumped; otherwise the LRU limit is enforced, then the video is marked not cacheable if no task can be made, or its task is added and the gate taken |
| DownloadManager.DidLoadSpec | HLSDemo2/HLSDownloadManaging.swift:152-178 | `didLoad`: once the loaded seconds reach the target, capped by the expected duration, the task is cancelled and, on a running queue, its video's seconds recorded |
| DownloadManager.DidCompleteSpec | HLSDemo2/HLSDownloadManaging.swift:180-205 | `didCompleteWithError`: the task's video untracked and removed from the LRU list, marked not cacheable on an error, its target dropped, and the gate signalled |
| DownloadManager.PrefetchedSeconds | HLSDemo2/HLSDownloadManaging.swift:118-120 | `prefetchedSeconds(for:)`: the recorded seconds, 0 when none |
| DownloadManager.CachedVideoIDs | HLSDemo2/HLSDownloadManaging.swift:122-124 | `cachedVideoIDs()`: the videos whose recorded seconds are positive |
| DownloadManager.EvictOldestDrops | HLSDemo2/HLSDownloadManaging.swift:141-145 | One eviction cancels and forgets the oldest task, and changes nothing else (without the correction, not the gate) |
| DownloadManager.EvictKeepsInv | HLSDemo2/HLSDownloadManaging.swift:141-145 | An eviction keeps the invariant |
| DownloadManager.WaitOutcome | HLSDemo2/HLSDownloadManaging.swift:108 | `gate.wait()` with no slot left blocks the queue for good |
| DownloadManager.AddTaskKeepsInv | HLSDemo2/HLSDownloadManaging.swift:103-109 | Tracking a new task and waiting on the gate keeps the invariant |
| DownloadManager.PrefetchKeepsInv | HLSDemo2/HLSDownloadManaging.swift:69-111 | `prefetch` keeps the invariant |
| DownloadManager.DidCompleteKeepsInv | HLSDemo2/HLSDownloadManaging.swift:180-205 | `didCompleteWithError` keeps the invariant |
| DownloadManager.DidLoadKeepsInv | HLSDemo2/HLSDownloadManaging.swift:152-178 | `didLoad` keeps the invariant |
| DownloadManager.NotCacheableOnlyGrows | HLSDemo2/HLSDownloadManaging.swift:53 | No operation ever removes a video from `notCacheableIDs` |
| DownloadManager.PrefetchGrowsNotCacheable | HLSDemo2/HLSDownloadManaging.swift:99 | `prefetch` only adds to the not-cacheable set |
| DownloadManager.DidCompleteGrowsNotCacheable | HLSDemo2/HLSDownloadManaging.swift:200 | A completion only adds to the not-cacheable set |
| DownloadManager.DidLoadKeepsNotCacheable | HLSDemo2/HLSDownloadManaging.swift:152-178 | `didLoad` leaves the not-cacheable set alone |
| DownloadManager.EnforceFrame | HLSDemo2/HLSDownloadManaging.swift:140-147 | Eviction touches only the tasks, the LRU list, the cancellations and the gate |
| DownloadManager.NotCacheableIgnored | HLSDemo2/HLSDownloadManaging.swift:71-74 | A prefetch of a not-cacheable video changes nothing |
| DownloadManager.RunningOnlyBumped | HLSDemo2/HLSDownloadManaging.swift:75-79 | A prefetch of a video already downloading only moves it to the end of the LRU list |
| DownloadManager.NewTaskTarget | HLSDemo2/HLSDownloadManaging.swift:103-105 | A new task is tracked under a new identifier with target `max(1, targetSeconds)` and is the most recently used |
| DownloadManager.CreationFailureMarks | HLSDemo2/HLSDownloadManaging.swift:92-101 | When the session cannot make the task, the video is marked not cacheable and not tracked |
| DownloadManager.EnforceDrops | HLSDemo2/HLSDownloadManaging.swift:140-147 | Eviction never adds a task |
| DownloadManager.DidLoadRecords | HLSDemo2/HLSDownloadManaging.swift:158-177 | Once the loaded seconds reach the target (capped by the expected duration), the task is cancelled and its video records `min(loaded, target)`, never more than the target |
| DownloadManager.DidCompleteDrops | HLSDemo2/HLSDownloadManaging.swift:183-204 | A completion forgets the task and its target, marks the video not cacheable exactly on an error, and signals the gate |
| DownloadManager.SufficiencyCancelSticks | HLSDemo2/HLSDownloadManaging.swift:169-200 | The cancel after a sufficient load completes with an error, so the video is marked not cacheable and never prefetched again |
| DownloadManager.StallIsPermanent | HLSDemo2/HLSDownloadManaging.swift:108 | Once the queue is blocked, no prefetch or completion changes anything, and loads cannot free it |
| DownloadManager.NewPrefetchesTakeSlots | HLSDemo2/HLSDownloadManaging.swift:69-111 | Up to ten new prefetches from a quiet state each take a gate slot and are all tracked |
| DownloadManager.ElevenPrefetchesStall | HLSDemo2/HLSDownloadManaging.swift:108 | Eleven different videos prefetched with no completion in between block the serial queue |
| DownloadManager.PrefetchAllSplit | HLSDemo2/HLSDownloadManaging.swift:69-111 | A run of prefetches is the run of its first part followed by the rest |
| DownloadManager.CorrectedNeverStalls | HLSDemo2/HLSDownloadManaging.swift:140-147 | With the slot given back at eviction, no operation ever blocks the queue |
| DownloadManager.ElevenPrefetchesRunCorrected | HLSDemo2/HLSDownloadManaging.swift:140-147 | With the correction, any run of prefetches from the start never blocks |
| DownloadManager.PrefetchAllKeepsInv | HLSDemo2/HLSDownloadManaging.swift:69-111 | With the correction, a run of prefetches keeps the invariant |
| DownloadManager.Manager.BumpLRU | HLSDemo2/HLSDownloadManaging.swift:135-138 | The LRU list becomes `Bump` of the old one; nothing else changes |
| DownloadManager.Manager.EnforceLRULimit | HLSDemo2/HLSDownloadManaging.swift:140-147 | The loop computes `Enforce`, keeping the invariant and leaving fewer than ten tasks |
| DownloadManager.Manager.EvictOldestTask | HLSDemo2/HLSDownloadManaging.swift:142-145 | One round of the loop is `EvictOldest` |
| DownloadManager.Manager.Prefetch | HLSDemo2/HLSDownloadManaging.swift:69-111 | The state after `prefetch` is `PrefetchSpec` of the state before, and the invariant holds |
| DownloadManager.Manager.StartTask | HLSDemo2/HLSDownloadManaging.swift:103-109 | Tracking a new task and waiting on the gate is `Wait(AddTask(...))` |
| DownloadManager.Manager.DidLoad | HLSDemo2/HLSDownloadManaging.swift:152-178 | The state after `didLoad` is `DidLoadSpec` of the state before, and the manager's invariant is kept |
| DownloadManager.Manager.DidComplete | HLSDemo2/HLSDownloadManaging.swift:180-205 | The state after `didCompleteWithError` is `DidCompleteSpec` of the state before, and the manager's invariant is kept |
| Preheater.Excess | HLSDemo2/ReelsPreheater.swift:46 | The entries dropped leave at most six, and none are dropped from six or fewer |
| Preheater.NextOrderCorrect | HLSDemo2/ReelsPreheater.swift:18-24 | `asset(for:)` keeps the order free of repetitions and at most six long, with the id in it: unchanged on a hit, appended on a miss, the oldest dropped when six were held |
| Preheater.Trim | HLSDemo2/ReelsPreheater.swift:45-50 | `trimIfNeeded`: the oldest entries dropped until at most six remain |
| Preheater.NextOrder | HLSDemo2/ReelsPreheater.swift:18-24 | `asset(for:)` on the order: a hit leaves it; a miss appends the id and trims |
| Preheater.WarmOrder | HLSDemo2/ReelsPreheater.swift:33-43 | The order after requesting the ids one after another |
| Preheater.NeighborIDs | HLSDemo2/ReelsPreheater.swift:33-41 | The ids at the positions `currentIndex - 2`, `- 1`, `+ 1`, `+ 2` that are in range, in that order |
| Preheater.HitDoesNotProtect | HLSDemo2/ReelsPreheater.swift:19-24 | A hit does not refresh an entry, so the oldest is evicted by the next miss even right after being used |
| Preheater.Keep | HLSDemo2/ReelsPreheater.swift:35 | One index survives the filter exactly when it lies within the items |
| Preheater.NeighborIndices | HLSDemo2/ReelsPreheater.swift:34-35 | The neighbours are exactly the indices `i-2`, `i-1`, `i+1`, `i+2` that lie within the items, in ascending order |
| Preheater.NeighborIDsWindow | HLSDemo2/ReelsPreheater.swift:33-41 | The ids requested are the videos up to two places before the current one and up to two after it, in feed order, never the current one, clipped at both ends of the list |
| Preheater.WarmOrderCorrect | HLSDemo2/ReelsPreheater.swift:33-43 | Warming keeps the order free of repetitions and at most six long, and the last neighbour warmed is kept |
| Preheater.WarmCanEvictNeighbor | HLSDemo2/ReelsPreheater.swift:38-41 | Warming can evict an asset it has just warmed: one neighbour at the head of a full order is dropped by the next |
| Preheater.ReelsPreheater.AssetFor | HLSDemo2/ReelsPreheater.swift:18-31 | The returned asset is always for the video's playlist URL. A hit returns the cached asset and changes nothing; a miss caches a fresh asset and trims; other entries keep their assets; every cached asset stays tied to its own video's playlist URL |
| Preheater.ReelsPreheater.TrimIfNeeded | HLSDemo2/ReelsPreheater.swift:45-50 | The oldest entries beyond six are dropped from the order and from the cache |
| Preheater.ReelsPreheater.WarmNeighbors | HLSDemo2/ReelsPreheater.swift:33-43 | The order after warming is `WarmOrder` over the neighbours' ids; every cached asset is for its own video's playlist URL; every surviving old entry keeps its asset or holds a fresh one |

## Left out

- Percent-encoding, URL parsing and resolution, `absoluteString`, `standardized`, UTF-8 and SHA-256 are parameters with no properties. Round trips through them are stated under explicit conditions, as in `ProxyUrls.ExtractOriginOfProxyUrl`.
- `Double(_:)` is a parameter that yields finite reals. NaN and infinities are not modelled, and the expected duration in `didLoad` is `None` when it is not finite.
- Swift `Character`s are grapheme clusters, so `split(separator: "\n")` in the parser does not split at a CRLF pair. The model splits at every `\n`, as for Unicode scalars.
- `lowercased()` is modelled for ASCII letters only, and `isNumber` for ASCII digits only.
- Lengths are counts of `char`s, not of Swift Characters or UTF-16 units.
- `sort { $0.name < $1.name }` is modelled as an insertion sort, which is stable. Swift's sort is not guaranteed stable, so the order of equally named items may differ.
- GCDWebServer keeps only query items with a value, and a later item with the same name wins. `ProxyUrls.ServerQuery` models these two rules and nothing else of the web server. Two differences are not modelled. GCDWebServer scans the raw query for `=` before `&`, so an item without a value swallows the name of the item after it. It also turns `+` into a space before percent-decoding.
- ProxyUrls.ProxyUrl: always returns a URL. The source ends with `c.url!`, and `URLComponents` gives no URL when a host is set and the path is non-empty but does not start with `/`. So an origin such as `URL(string: "seg.ts")` crashes the app. Every caller in the app passes an absolute `http` or `https` URL, whose path is empty or starts with `/`.
- SegmentStore.Key: the store is modelled within one process, where `hashValue` is fixed. Swift seeds `String.hashValue` anew at each launch. After a relaunch, `has` and `read` no longer find the files written earlier, yet `cachedSummary()` still lists them. In effect the disk cache does not survive a relaunch.
- ProxyUrls.ExtractOriginOfProxyUrl: the round trip holds for the `ServerQuery` model of the web server's query parsing. With GCDWebServer's own scan, an origin whose last query item in name order has no value makes `__origin` part of that item's name. The handler then finds no origin and answers 400. An origin whose absolute string holds a `+` comes back with a space in its place.
- The regular-expression template is taken literally. A `$` or `\` in a proxy URL would be read as a template escape by `NSRegularExpression`.
- The `Storage` cache of `HLSProxy` never evicts and never fails to write. Its disk and memory limits are not modelled.
- The store's asynchronous write is modelled as completing at once, with a `lands` flag for whether the disk accepted it.
- Dispatch queues, semaphores and delegate callbacks run one at a time, in the order the caller chooses. The prefetcher's one-playlist semaphore `sem` and the `DispatchGroup` of the proxy's prefetch are left out.
- Prefetcher.SegmentPrefetcher.MediaWalk: requires that the prefetcher is not suspended. The source also stops the walk when a suspension arrives midway, which only a concurrent `suspend()` can cause.
- Prefetcher.SegmentPrefetcher.PrefetchFirstSeconds: a master playlist is followed at most `hops` times. The source follows variants without limit.
- Prefetcher.SegmentPrefetcher.FetchWithRetry: task registration, which the source queues asynchronously, happens at once. The race in which `suspended` is read off the queue is not modelled.
- The 0.7 s start delay and the back-off are not timed. The back-off delays are returned as numbers.
- `setAuthHeaders`, `localAsset(for:)` and the HTTP headers only build `AVURLAsset` options. They are left out.
- `cachedSummary()` of the download manager returns the dictionary itself and has no model of its own.
- DownloadManager.CachedVideoIDs: returns a set. The source returns an array in dictionary order.
- The download manager's queries on a blocked queue are not modelled. `syncQ.sync` would then wait for ever.
- `didBecomeInvalidWithError` only logs and is left out.
- The `AVURLAsset` "playable" load in `asset(for:)` only logs, and is left out.
- `InteresnoAPI.hlsPlaylistURL` is a parameter of `ReelsPreheater`.
- A `VideoRecommendation` is reduced to its `video_id`.
- `warmNeighbors` runs its loop on its own queue. The model runs it at once.
- An asset's identity is the identity of an `Asset` object.
- Logging and `print` are left out.
- ProxySegments.PrefetchFirstSeconds: `body` is any answer to the playlist request. In the app it is the proxy's own rewritten playlist, so its segment lines are already proxy URLs. Each is then wrapped in a second proxy URL, and the segment is cached a second time under the key of the inner proxy URL. The model does not tie `body` to the proxy's answer.
- The origin's absolute string is percent-decoded once by the web server and once more by `extractOrigin`. Only the second decoding is modelled, as a parameter.
- HTTP status codes of fetched bodies are not modelled. The proxy, the URL protocol and the prefetcher cache whatever body arrives, error pages included.

## Findings

| source | as written | input that shows it | evidently intended | confidence | as-written member | corrected member |
|---|---|---|---|---|---|---|
| HLSDemo2/HLSDownloadManaging.swift:108 | `enforceLRULimit` cancels the least recently used task but does not signal `gate`. The slot comes back only in `didCompleteWithError`, which is queued on `syncQ` behind the `gate.wait()` that is blocking it. | Eleven different video ids prefetched in a row with no completion delivered in between. The eleventh waits on a gate at 0 and the serial queue never runs again. | Eviction frees the slot (the gate counts free slots), and a later completion of an evicted task does not signal twice. | not executed | DownloadManager.ElevenPrefetchesStall | DownloadManager.CorrectedNeverStalls |
