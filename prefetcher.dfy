/**
 * The segment prefetcher (`HLSSegmentPrefetcher`): it fetches a playlist,
 * follows a master playlist to its lowest-bandwidth variant, and starts
 * fetches for the first segments of a media playlist that the segment store
 * does not hold yet, until their durations reach the target. Fetches are
 * retried after a timeout with exponential backoff. A `suspended` flag and
 * the table of in-flight tasks let playback pause, resume and cancel the
 * background work. The dispatch queue is collapsed into sequential methods;
 * what the network answers is a parameter.
 */
module Prefetcher {
  import opened Wrappers
  import opened Platform
  import opened Playlist
  import opened Budget
  import opened SegmentStore

  // ---------------------------------------------------------------------------
  // fetchWithRetry(url:retries:completion:)

  /**
   * How one attempt ends: the body it brought (possibly none), and whether
   * its error was `URLError.timedOut`, the only error that is retried.
   */
  datatype Transfer = Transfer(data: Option<Bytes>, timedOut: bool)

  const PlaylistRetries: int := 2
  const SegmentRetries: int := 2

  function Pow2(k: nat): (r: nat)
    ensures r >= 1
  {
    if k == 0 then 1 else 2 * Pow2(k - 1)
  }

  /**
   * The attempt whose outcome is delivered, when `net(k)` is how attempt `k`
   * ends: the first attempt from `k` on that did not time out, or the one
   * at which the retries ran out.
   */
  function LastAttempt(net: nat -> Transfer, retries: int, k: nat): (n: nat)
    ensures k <= n
    decreases if k < retries then retries - k else 0
  {
    if net(k).timedOut && k < retries then LastAttempt(net, retries, k + 1) else k
  }

  /** The delays before the retries of a chain whose last attempt is `n`: 2, 4, 8, ... seconds. */
  function Backoff(n: nat): (delays: seq<nat>)
    ensures |delays| == n && forall i :: 0 <= i < n ==> delays[i] == Pow2(i + 1)
  {
    seq(n, i requires 0 <= i < n => Pow2(i + 1))
  }

  /**
   * A chain is retried only after timeouts: every attempt before the
   * delivered one timed out, the delivered one did not or was the last the
   * budget allowed, and there are at most `retries` retries.
   */
  lemma {:induction false} LastAttemptFrom(net: nat -> Transfer, retries: int, k: nat)
    ensures var n := LastAttempt(net, retries, k);
      (forall j :: k <= j < n ==> net(j).timedOut) &&
      !(net(n).timedOut && n < retries) &&
      (n == k || n <= retries)
    decreases if k < retries then retries - k else 0
  {
    if net(k).timedOut && k < retries {
      LastAttemptFrom(net, retries, k + 1);
    }
  }

  /** `LastAttemptFrom` for a whole chain: at most `retries` + 1 attempts. */
  lemma RetryChain(net: nat -> Transfer, retries: int)
    ensures var n := LastAttempt(net, retries, 0);
      (forall j :: 0 <= j < n ==> net(j).timedOut) &&
      !(net(n).timedOut && n < retries) &&
      (retries <= 0 ==> n == 0) && (retries > 0 ==> n <= retries)
  {
    LastAttemptFrom(net, retries, 0);
  }

  /** With two retries and every attempt timing out, the delays are 2 s and 4 s and the third attempt delivers. */
  lemma TwoTimeoutsThenDeliver(net: nat -> Transfer)
    requires forall k :: net(k).timedOut
    ensures LastAttempt(net, 2, 0) == 2 && Backoff(2) == [2, 4]
  {
    assert LastAttempt(net, 2, 2) == 2;
    assert LastAttempt(net, 2, 1) == 2;
    assert Pow2(1) == 2 && Pow2(2) == 4;
  }

  // ---------------------------------------------------------------------------
  // The lowest-bandwidth variant: `variants.min(by: { $0.bandwidth < $1.bandwidth })`

  /** The index `min(by:)` settles on among the first `n` variants: a later one replaces it only when strictly lower. */
  function MinIndex(vs: seq<Variant>, n: nat): (r: nat)
    requires 1 <= n <= |vs|
    ensures r < n
  {
    if n == 1 then 0
    else
      var best := MinIndex(vs, n - 1);
      if vs[n - 1].bandwidth < vs[best].bandwidth then n - 1 else best
  }

  /** The variant `min(by:)` returns, nil for no variants. */
  function LowestBandwidth(vs: seq<Variant>): (r: Option<Variant>)
    ensures r.Some? <==> vs != []
  {
    if vs == [] then None else Some(vs[MinIndex(vs, |vs|)])
  }

  /** `MinIndex` is the FIRST variant of least bandwidth. */
  lemma {:induction false} MinIndexIsFirstMinimum(vs: seq<Variant>, n: nat)
    requires 1 <= n <= |vs|
    ensures var r := MinIndex(vs, n);
      (forall j :: 0 <= j < n ==> vs[r].bandwidth <= vs[j].bandwidth) &&
      (forall j :: 0 <= j < r ==> vs[j].bandwidth > vs[r].bandwidth)
  {
    if n > 1 {
      MinIndexIsFirstMinimum(vs, n - 1);
    }
  }

  /** The chosen variant is in the list, no variant has less bandwidth, and every earlier one has more. */
  lemma LowestBandwidthCorrect(vs: seq<Variant>)
    requires vs != []
    ensures exists i :: (0 <= i < |vs| && LowestBandwidth(vs) == Some(vs[i]) &&
      (forall j :: 0 <= j < |vs| ==> vs[i].bandwidth <= vs[j].bandwidth) &&
      (forall j :: 0 <= j < i ==> vs[j].bandwidth > vs[i].bandwidth))
  {
    MinIndexIsFirstMinimum(vs, |vs|);
    var i := MinIndex(vs, |vs|);
    assert LowestBandwidth(vs) == Some(vs[i]);
  }

  // ---------------------------------------------------------------------------
  // The media walk

  /** The durations of `segs`, in order. */
  function SegmentDurations(segs: seq<Segment>): (ds: seq<real>)
    ensures |ds| == |segs| && forall k :: 0 <= k < |segs| ==> ds[k] == segs[k].duration
  {
    seq(|segs|, k requires 0 <= k < |segs| => segs[k].duration)
  }

  /** The segments the walk visits for a target of `seconds`, cached or not. */
  function Visited(segs: seq<Segment>, seconds: real): seq<Segment> {
    segs[..VisitCount(SegmentDurations(segs), seconds)]
  }

  /** The URLs of `segs` that have no file among `files`, in order. */
  function Missing(f: Foundation, files: map<string, Bytes>, segs: seq<Segment>): seq<Url> {
    if segs == [] then []
    else
      var last := segs[|segs| - 1];
      Missing(f, files, segs[..|segs| - 1]) + (if Key(f, last.url) in files then [] else [last.url])
  }

  /**
   * A URL is fetched exactly when some segment has it and no file is stored
   * under its key; a cached segment is skipped.
   */
  lemma {:induction false} MissingCharacterized(f: Foundation, files: map<string, Bytes>, segs: seq<Segment>, u: Url)
    ensures u in Missing(f, files, segs) <==> Key(f, u) !in files && exists k :: 0 <= k < |segs| && segs[k].url == u
  {
    if segs != [] {
      var init, last := segs[..|segs| - 1], segs[|segs| - 1];
      MissingCharacterized(f, files, init, u);
      var tail := if Key(f, last.url) in files then [] else [last.url];
      assert Missing(f, files, segs) == Missing(f, files, init) + tail;
      assert u in Missing(f, files, segs) <==> u in Missing(f, files, init) || u in tail;
      HasUrlSnoc(segs, init, u);
    }
  }

  /** Some segment of a non-empty list has URL `u` exactly when one before the last has, or the last has. */
  lemma HasUrlSnoc(segs: seq<Segment>, init: seq<Segment>, u: Url)
    requires segs != [] && init == segs[..|segs| - 1]
    ensures (exists k :: 0 <= k < |segs| && segs[k].url == u) <==>
      (exists k :: 0 <= k < |init| && init[k].url == u) || segs[|segs| - 1].url == u
  {
    if exists k :: 0 <= k < |init| && init[k].url == u {
      var k :| 0 <= k < |init| && init[k].url == u;
      assert segs[k].url == u;
    }
    if exists k :: 0 <= k < |segs| && segs[k].url == u {
      var k :| 0 <= k < |segs| && segs[k].url == u;
      if k < |init| {
        assert init[k].url == u;
      }
    }
  }

  /** Taking one more segment appends its URL exactly when it is not cached. */
  lemma MissingSnoc(f: Foundation, files: map<string, Bytes>, segs: seq<Segment>, s: Segment)
    ensures Missing(f, files, segs + [s]) == Missing(f, files, segs) + (if Key(f, s.url) in files then [] else [s.url])
  {
    assert (segs + [s])[..|segs|] == segs;
  }

  /**
   * What a prefetch of `url` ends up fetching: nothing while suspended or when
   * the playlist cannot be fetched, and otherwise what its playlist leads to.
   */
  function Planned(f: Foundation, files: map<string, Bytes>, suspended: bool,
                   net: Url -> nat -> Transfer, url: Url, seconds: real, hops: nat): seq<Url>
    decreases hops, 1
  {
    if suspended then []
    else
      match net(url)(LastAttempt(net(url), PlaylistRetries, 0)).data
      case None => []
      case Some(data) => PlannedFrom(f, files, net, ParseSpec(f, url, data), seconds, hops)
  }

  /**
   * What a fetched playlist `p` leads to: for a master playlist, what a
   * prefetch of its lowest-bandwidth variant fetches (at most `hops` times
   * over); for a media playlist, the uncached segments among those visited.
   */
  function PlannedFrom(f: Foundation, files: map<string, Bytes>, net: Url -> nat -> Transfer,
                       p: Playlist, seconds: real, hops: nat): seq<Url>
    decreases hops, 0
  {
    if p.kind == Master then
      match LowestBandwidth(p.variants)
      case None => []
      case Some(v) => if hops == 0 then [] else Planned(f, files, false, net, v.url, seconds, hops - 1)
    else Missing(f, files, Visited(p.segments, seconds))
  }

  /**
   * The playlists a prefetch fetches: the one it starts from and each variant
   * it follows; none once the prefetcher is suspended.
   */
  function PlaylistChain(f: Foundation, suspended: bool, net: Url -> nat -> Transfer, url: Url, hops: nat): (r: set<Url>)
    ensures suspended ==> r == {}
    ensures !suspended ==> url in r
    decreases hops, 1
  {
    if suspended then {}
    else
      match net(url)(LastAttempt(net(url), PlaylistRetries, 0)).data
      case None => {url}
      case Some(data) => {url} + ChainFrom(f, net, ParseSpec(f, url, data), hops)
  }

  /** The variant playlists a fetched playlist `p` leads a prefetch to fetch. */
  function ChainFrom(f: Foundation, net: Url -> nat -> Transfer, p: Playlist, hops: nat): set<Url>
    decreases hops, 0
  {
    if p.kind == Master then
      match LowestBandwidth(p.variants)
      case None => {}
      case Some(v) => if hops == 0 then {} else PlaylistChain(f, false, net, v.url, hops - 1)
    else {}
  }

  /** Taking two sets of keys out of a map one after the other takes out their union. */
  lemma SubtractTwice<K, V>(m: map<K, V>, a: set<K>, b: set<K>)
    ensures (m - a) - b == m - (a + b)
  {
  }

  /** A walk never fetches more segments than it visits, nor anything already cached. */
  lemma {:induction false} PlannedBounded(f: Foundation, files: map<string, Bytes>, suspended: bool,
                                          net: Url -> nat -> Transfer, url: Url, seconds: real, hops: nat, u: Url)
    requires u in Planned(f, files, suspended, net, url, seconds, hops)
    ensures !suspended && Key(f, u) !in files
    decreases hops
  {
    var data := net(url)(LastAttempt(net(url), PlaylistRetries, 0)).data;
    var p := ParseSpec(f, url, data.value);
    if p.kind == Master {
      var v := LowestBandwidth(p.variants).value;
      PlannedBounded(f, files, false, net, v.url, seconds, hops - 1, u);
    } else {
      MissingCharacterized(f, files, Visited(p.segments, seconds), u);
    }
  }

  /** Each task in `added` is a running task for the URL it is filed under. */
  ghost predicate Registered(added: map<Url, DataTask>)
    reads added.Values
  {
    forall u :: u in added ==> added[u].url == u && added[u].state == Running
  }

  /** Filing one more task keeps the merge and the registration in step. */
  lemma AddTask(before: map<Url, DataTask>, added: map<Url, DataTask>, u: Url, t: DataTask)
    requires Registered(added) && t.url == u && t.state == Running
    ensures before + added[u := t] == (before + added)[u := t]
    ensures added[u := t].Values <= added.Values + {t}
    ensures Registered(added[u := t])
  {
    var m := added[u := t];
    forall v | v in m.Values
      ensures v in added.Values + {t}
    {
      var k :| k in m && m[k] == v;
      if k != u {
        assert added[k] == v;
      }
    }
  }

  /** The prefetcher: the store it fills, its in-flight tasks by URL, and the pause flag. */
  class SegmentPrefetcher {
    const store: Store
    var tasks: map<Url, DataTask>
    var suspended: bool

    constructor (store: Store)
      ensures this.store == store && tasks == map[] && !suspended
    {
      this.store := store;
      tasks := map[];
      suspended := false;
    }

    /** `suspend()`: on the first call, the flag is set and every tracked task paused; later calls do nothing. */
    method Suspend()
      modifies this, tasks.Values
      ensures suspended && tasks == old(tasks)
      ensures forall t :: t in tasks.Values ==>
        t.state == if old(suspended) || old(t.state) != Running then old(t.state) else Suspended
    {
      if suspended {
        return;
      }
      suspended := true;
      var rest := tasks.Values;
      while rest != {}
        invariant rest <= tasks.Values && tasks == old(tasks) && suspended
        invariant forall t :: t in tasks.Values ==>
          t.state == if t in rest || old(t.state) != Running then old(t.state) else Suspended
        decreases |rest|
      {
        var t :| t in rest;
        t.Suspend();
        rest := rest - {t};
      }
    }

    /** `resume()`: only when suspended, the flag is cleared and every tracked task resumed. */
    method Resume()
      modifies this, tasks.Values
      ensures !suspended && tasks == old(tasks)
      ensures forall t :: t in tasks.Values ==>
        t.state == if !old(suspended) || old(t.state) != Suspended then old(t.state) else Running
    {
      if !suspended {
        return;
      }
      suspended := false;
      var rest := tasks.Values;
      while rest != {}
        invariant rest <= tasks.Values && tasks == old(tasks) && !suspended
        invariant forall t :: t in tasks.Values ==>
          t.state == if t in rest || old(t.state) != Suspended then old(t.state) else Running
        decreases |rest|
      {
        var t :| t in rest;
        t.Resume();
        rest := rest - {t};
      }
    }

    /** `cancelAll()`: every tracked task is cancelled and the table emptied; the pause flag stays. */
    method CancelAll()
      modifies this, tasks.Values
      ensures tasks == map[] && suspended == old(suspended)
      ensures forall t :: t in old(tasks.Values) ==> t.state == Cancelled
    {
      var rest := tasks.Values;
      while rest != {}
        invariant rest <= tasks.Values && tasks == old(tasks) && suspended == old(suspended)
        invariant forall t :: t in tasks.Values && t !in rest ==> t.state == Cancelled
        decreases |rest|
      {
        var t :| t in rest;
        t.Cancel();
        rest := rest - {t};
      }
      tasks := map[];
    }

    /** One attempt of `fetchWithRetry` starts: its task is created, resumed and tracked under its URL. */
    method StartAttempt(url: Url, attempt: nat) returns (task: DataTask)
      modifies this
      ensures tasks == old(tasks)[url := task]
      ensures fresh(task) && task.url == url && task.attempt == attempt && task.state == Running
      ensures suspended == old(suspended)
    {
      task := new DataTask(url, attempt);
      tasks := tasks[url := task];
    }

    /** An attempt's completion handler: the entry for its URL is dropped. */
    method AttemptDone(url: Url)
      modifies this
      ensures tasks == old(tasks) - {url} && suspended == old(suspended)
    {
      tasks := tasks - {url};
    }

    /**
     * `fetchWithRetry(url:retries:completion:)`, from the first attempt to the
     * completion: `net(k)` is how attempt `k` ends. Each attempt is tracked
     * while it runs; a timeout with retries left waits `2^attempt` seconds and
     * tries again; anything else delivers the attempt's body.
     */
    method FetchWithRetry(url: Url, retries: int, net: nat -> Transfer) returns (data: Option<Bytes>, delays: seq<nat>)
      modifies this
      ensures data == net(LastAttempt(net, retries, 0)).data
      ensures delays == Backoff(LastAttempt(net, retries, 0))
      ensures tasks == old(tasks) - {url} && suspended == old(suspended)
    {
      var attempt: nat := 0;
      var _ := StartAttempt(url, attempt);
      var outcome := net(attempt);
      AttemptDone(url);
      delays := [];
      while outcome.timedOut && attempt < retries
        invariant LastAttempt(net, retries, attempt) == LastAttempt(net, retries, 0)
        invariant outcome == net(attempt)
        invariant delays == Backoff(attempt)
        invariant tasks == old(tasks) - {url} && suspended == old(suspended)
        decreases retries - attempt
      {
        attempt := attempt + 1;
        delays := delays + [Pow2(attempt)];
        var _ := StartAttempt(url, attempt);
        outcome := net(attempt);
        AttemptDone(url);
      }
      data := outcome.data;
    }

    /**
     * A segment fetch to its end: the chain of attempts, then the body, if
     * any, written to the store under the segment's URL (`lands` says whether
     * the disk accepted it).
     */
    method FetchSegment(url: Url, net: nat -> Transfer, lands: bool) returns (data: Option<Bytes>)
      modifies this, store
      ensures data == net(LastAttempt(net, SegmentRetries, 0)).data
      ensures store.files == if data.Some? && lands then old(store.files)[Key(store.fnd, url) := data.value] else old(store.files)
      ensures tasks == old(tasks) - {url} && suspended == old(suspended)
    {
      var delays;
      data, delays := FetchWithRetry(url, SegmentRetries, net);
      if data.Some? {
        store.Write(data.value, url, lands);
      }
    }

    /**
     * The media branch of `prefetchFirstSeconds`: segments in order, stopping
     * before the first one at which the durations taken add up to `seconds`
     * (or once suspended); an uncached one is listed for a fetch, a cached one
     * is skipped, and both count towards the sum. The result is the URLs to
     * fetch, in order.
     */
    method MediaWalk(segments: seq<Segment>, seconds: real) returns (started: seq<Url>)
      requires !suspended
      ensures started == Missing(store.fnd, store.files, Visited(segments, seconds))
    {
      ghost var ds := SegmentDurations(segments);
      var sum := 0.0;
      var i := 0;
      started := [];
      while i < |segments|
        invariant i <= VisitCount(ds, seconds)
        invariant VisitFrom(ds, seconds, i) == VisitCount(ds, seconds)
        invariant sum == Sum(ds[..i])
        invariant started == Missing(store.fnd, store.files, segments[..i])
      {
        if sum >= seconds || suspended {
          break;
        }
        var seg := segments[i];
        assert segments[..i + 1] == segments[..i] + [seg];
        MissingSnoc(store.fnd, store.files, segments[..i], seg);
        if !store.Has(seg.url) {
          started := started + [seg.url];
        }
        SumStep(ds, i);
        sum := sum + seg.duration;
        i := i + 1;
      }
    }

    /**
     * The first attempts of the fetches the walk started, each tracked under
     * its URL once the prefetcher's queue gets to it; `added` maps each URL
     * to its new task.
     */
    method StartFetches(urls: seq<Url>) returns (ghost added: map<Url, DataTask>)
      modifies this
      ensures tasks == old(tasks) + added
      ensures forall u :: u in added <==> u in urls
      ensures fresh(added.Values) && Registered(added)
      ensures suspended == old(suspended)
    {
      ghost var before := tasks;
      added := map[];
      for i := 0 to |urls|
        invariant tasks == before + added
        invariant forall u :: u in added <==> u in urls[..i]
        invariant fresh(added.Values) && Registered(added)
        invariant suspended == old(suspended)
      {
        var task := StartAttempt(urls[i], 0);
        AddTask(before, added, urls[i], task);
        added := added[urls[i] := task];
        assert urls[..i + 1] == urls[..i] + [urls[i]];
      }
      assert urls[..|urls|] == urls;
    }

    /**
     * `prefetchFirstSeconds(from:seconds:delay:)`, from the moment its delay
     * has passed: `net(u)` is how the attempts to fetch `u` end. A master
     * playlist leads to its lowest-bandwidth variant, at most `hops` times.
     * `started` lists the segment fetches begun and `added` their tasks, each
     * new, running and tracked under its URL; the tasks of the playlists
     * fetched on the way are gone and every other task is kept.
     */
    method PrefetchFirstSeconds(url: Url, seconds: real, net: Url -> nat -> Transfer, hops: nat)
      returns (started: seq<Url>, ghost added: map<Url, DataTask>)
      modifies this
      ensures started == Planned(store.fnd, store.files, old(suspended), net, url, seconds, hops)
      ensures old(suspended) ==> tasks == old(tasks)
      ensures tasks == (old(tasks) - PlaylistChain(store.fnd, old(suspended), net, url, hops)) + added
      ensures forall u :: u in added <==> u in started
      ensures fresh(added.Values) && Registered(added)
      ensures forall u :: u in added ==> u in tasks && tasks[u] == added[u]
      ensures suspended == old(suspended)
      decreases hops, 1
    {
      started, added := [], map[];
      if suspended {
        assert tasks == (old(tasks) - {}) + added;
        return;
      }
      var data, _ := FetchWithRetry(url, PlaylistRetries, net(url));
      if data.None? {
        assert tasks == (old(tasks) - {url}) + added;
        return;
      }
      var p := Parse(store.fnd, url, data.value);
      started, added := FollowPlaylist(p, seconds, net, hops);
      SubtractTwice(old(tasks), {url}, ChainFrom(store.fnd, net, p, hops));
    }

    /**
     * The part of a prefetch after its playlist `p` has been fetched and
     * parsed: a master playlist's lowest-bandwidth variant is prefetched in
     * turn, a media playlist's uncached segments within the budget are fetched.
     */
    method FollowPlaylist(p: Playlist, seconds: real, net: Url -> nat -> Transfer, hops: nat)
      returns (started: seq<Url>, ghost added: map<Url, DataTask>)
      requires !suspended
      modifies this
      ensures started == PlannedFrom(store.fnd, store.files, net, p, seconds, hops)
      ensures tasks == (old(tasks) - ChainFrom(store.fnd, net, p, hops)) + added
      ensures forall u :: u in added <==> u in started
      ensures fresh(added.Values) && Registered(added)
      ensures suspended == old(suspended)
      decreases hops, 0
    {
      started, added := [], map[];
      if p.kind == Master {
        var best := LowestBandwidth(p.variants);
        if best.None? || hops == 0 {
          assert tasks == (old(tasks) - {}) + added;
          return;
        }
        started, added := PrefetchFirstSeconds(best.value.url, seconds, net, hops - 1);
      } else {
        started := MediaWalk(p.segments, seconds);
        added := StartFetches(started);
        assert tasks == (old(tasks) - {}) + added;
      }
    }
  }
}
