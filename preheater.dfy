/**
 * The reels preheater (`ReelsPreheater`): a small table of assets by video
 * identifier, at most six of them, evicted in insertion order, and the
 * warm-up of the videos around the one on screen.
 *
 * The playlist URL of a video (`InteresnoAPI.hlsPlaylistURL`) is a function
 * the preheater is given; the asynchronous `playable` load only logs, and the
 * preheater's private queue runs the warm-up's requests one after another.
 */
module Preheater {
  import opened Platform
  import opened Lists

  const MaxItems: nat := 6

  /** An `AVURLAsset`, made for the playlist URL of one video. */
  class Asset {
    const url: Url

    constructor (url: Url)
      ensures this.url == url
    {
      this.url := url;
    }
  }

  // ---------------------------------------------------------------------------
  // The insertion order

  /** How many of the oldest entries `trimIfNeeded` removes from an order of `n` entries. */
  function Excess(n: nat): (k: nat)
    ensures k <= n && n - k <= MaxItems
    ensures n <= MaxItems ==> k == 0
    ensures n > MaxItems ==> n - k == MaxItems
  {
    if n > MaxItems then n - MaxItems else 0
  }

  /** The order after `trimIfNeeded`: its newest entries, at most six of them. */
  function Trim(order: seq<int>): seq<int> {
    order[Excess(|order|)..]
  }

  /** The order after `asset(for:)`: unchanged on a hit; on a miss the id is appended and the order trimmed. */
  function NextOrder(order: seq<int>, id: int): seq<int> {
    if id in order then order else Trim(order + [id])
  }

  /**
   * `asset(for:)` keeps the order free of repetitions and at most six long,
   * leaves the requested id in it, and on a miss evicts the earliest inserted
   * id exactly when six were held, whatever was requested since.
   */
  lemma NextOrderCorrect(order: seq<int>, id: int)
    requires Distinct(order) && |order| <= MaxItems
    ensures var r := NextOrder(order, id);
      Distinct(r) && |r| <= MaxItems && id in r &&
      (id in order ==> r == order) &&
      (id !in order && |order| < MaxItems ==> r == order + [id]) &&
      (id !in order && |order| == MaxItems ==> r == order[1..] + [id])
  {
    if id !in order {
      var o := order + [id];
      AppendDistinct(order, id);
      if |order| == MaxItems {
        assert Trim(o) == o[1..];
        assert o[1..] == order[1..] + [id];
        assert Distinct(o[1..]) by {
          forall i, j | 0 <= i < j < |o[1..]|
            ensures o[1..][i] != o[1..][j]
          {
            assert o[1..][i] == o[i + 1] && o[1..][j] == o[j + 1];
          }
        }
      } else {
        assert Trim(o) == o;
      }
    }
  }

  /** Appending an id not yet in a list without repetitions keeps it without repetitions. */
  lemma AppendDistinct(order: seq<int>, id: int)
    requires Distinct(order) && id !in order
    ensures Distinct(order + [id])
  {
    var o := order + [id];
    forall i, j | 0 <= i < j < |o|
      ensures o[i] != o[j]
    {
      if j == |order| {
        assert o[i] == order[i];
      }
    }
  }

  /** In a list without repetitions, an element lies either before a cut or after it, and not both. */
  lemma {:induction false} CutMembership(o: seq<int>, e: nat, id: int)
    requires Distinct(o) && e <= |o|
    ensures id in o <==> id in o[..e] || id in o[e..]
    ensures !(id in o[..e] && id in o[e..])
  {
    assert o == o[..e] + o[e..];
  }

  /**
   * Eviction goes by insertion, not by use: with six ids held, requesting the
   * oldest again does not protect it from the next miss.
   */
  lemma HitDoesNotProtect(order: seq<int>, x: int)
    requires Distinct(order) && |order| == MaxItems && x !in order
    ensures var first := order[0];
      NextOrder(order, first) == order &&
      first !in NextOrder(NextOrder(order, first), x)
  {
    NextOrderCorrect(order, x);
    assert order[0] !in order[1..] by {
      forall k | 0 <= k < |order[1..]|
        ensures order[1..][k] != order[0]
      {
        assert order[1..][k] == order[k + 1];
      }
    }
  }

  // ---------------------------------------------------------------------------
  // The neighbours of the current reel

  /** `x` when it is a valid position in a list of `count`, else nothing: one step of the `filter`. */
  function Keep(x: int, count: nat): (r: seq<int>)
    ensures |r| <= 1 && (x in r <==> 0 <= x < count) && forall y :: y in r ==> y == x
  {
    if 0 <= x < count then [x] else []
  }

  /**
   * The positions `warmNeighbors(currentIndex:items:)` requests:
   * `currentIndex - 2`, `- 1`, `+ 1`, `+ 2`, those in range, in that order.
   */
  function NeighborIndices(i: int, count: nat): (r: seq<int>)
    ensures |r| <= 4
    ensures forall k :: 0 <= k < |r| ==> 0 <= r[k] < count && r[k] != i
    ensures forall k, l :: 0 <= k < l < |r| ==> r[k] < r[l]
    ensures forall x :: x in r <==> 0 <= x < count && (x == i - 2 || x == i - 1 || x == i + 1 || x == i + 2)
  {
    var a, b := Keep(i - 2, count) + Keep(i - 1, count), Keep(i + 1, count) + Keep(i + 2, count);
    KeptPair(i - 2, i - 1, count);
    KeptPair(i + 1, i + 2, count);
    JoinAround(a, b, i, count);
    a + b
  }

  /** Two kept positions `x < y` come out in range, in increasing order, and are the only ones. */
  lemma KeptPair(x: int, y: int, count: nat)
    requires x < y
    ensures var r := Keep(x, count) + Keep(y, count);
      |r| <= 2 &&
      (forall k, l :: 0 <= k < l < |r| ==> r[k] < r[l]) &&
      (forall k :: 0 <= k < |r| ==> x <= r[k] <= y && 0 <= r[k] < count) &&
      (forall z :: z in r <==> (z == x || z == y) && 0 <= z < count)
  {
  }

  /**
   * In-range increasing positions below `i` followed by in-range increasing
   * positions above it are in range, increasing, and never `i`.
   */
  lemma JoinAround(a: seq<int>, b: seq<int>, i: int, count: nat)
    requires forall k, l :: 0 <= k < l < |a| ==> a[k] < a[l]
    requires forall k, l :: 0 <= k < l < |b| ==> b[k] < b[l]
    requires forall k :: 0 <= k < |a| ==> 0 <= a[k] < count && a[k] < i
    requires forall k :: 0 <= k < |b| ==> 0 <= b[k] < count && b[k] > i
    ensures forall k, l :: 0 <= k < l < |a + b| ==> (a + b)[k] < (a + b)[l]
    ensures forall k :: 0 <= k < |a + b| ==> 0 <= (a + b)[k] < count && (a + b)[k] != i
    ensures forall x :: x in a + b <==> x in a || x in b
  {
    forall k | 0 <= k < |a + b|
      ensures 0 <= (a + b)[k] < count && (a + b)[k] != i
    {
      if k < |a| {
        assert (a + b)[k] == a[k];
      } else {
        assert (a + b)[k] == b[k - |a|];
      }
    }
  }

  /** `x` moved into the range from 0 to `count`. */
  function Clamp(x: int, count: nat): (r: nat)
    ensures r <= count && (0 <= x <= count ==> r == x)
    ensures x < 0 ==> r == 0
    ensures x > count ==> r == count
  {
    if x < 0 then 0 else if x > count then count else x
  }

  /** The ids at the positions `idx`, in order. */
  function IdsAt(items: seq<int>, idx: seq<int>): (ids: seq<int>)
    requires forall k :: 0 <= k < |idx| ==> 0 <= idx[k] < |items|
    ensures |ids| == |idx| && forall k :: 0 <= k < |ids| ==> ids[k] == items[idx[k]]
  {
    seq(|idx|, k requires 0 <= k < |idx| => items[idx[k]])
  }

  lemma IdsAtConcat(items: seq<int>, a: seq<int>, b: seq<int>)
    requires forall k :: 0 <= k < |a| ==> 0 <= a[k] < |items|
    requires forall k :: 0 <= k < |b| ==> 0 <= b[k] < |items|
    ensures IdsAt(items, a + b) == IdsAt(items, a) + IdsAt(items, b)
  {
  }

  /** The ids at two adjacent positions, those in range: a window of the list. */
  lemma PairWindow(items: seq<int>, x: int)
    ensures var n := |items|;
      IdsAt(items, Keep(x, n) + Keep(x + 1, n)) == items[Clamp(x, n)..Clamp(x + 2, n)]
  {
    var n := |items|;
    var w := items[Clamp(x, n)..Clamp(x + 2, n)];
    if 0 <= x && x + 1 < n {
      assert w == [items[x], items[x + 1]];
    } else if 0 <= x < n {
      assert w == [items[x]];
    } else if x == -1 && n > 0 {
      assert w == [items[0]];
    } else {
      assert w == [];
    }
  }

  /** The video ids at the requested positions, in order. */
  function NeighborIDs(i: int, items: seq<int>): seq<int> {
    IdsAt(items, NeighborIndices(i, |items|))
  }

  /**
   * The video ids of the reels requested: up to two before the current one
   * and up to two after it, in feed order, never the current one itself.
   */
  lemma NeighborIDsWindow(i: int, items: seq<int>)
    ensures var n := |items|;
      NeighborIDs(i, items) == items[Clamp(i - 2, n)..Clamp(i, n)] + items[Clamp(i + 1, n)..Clamp(i + 3, n)]
  {
    var n := |items|;
    var a, b := Keep(i - 2, n) + Keep(i - 1, n), Keep(i + 1, n) + Keep(i + 2, n);
    KeptPair(i - 2, i - 1, n);
    KeptPair(i + 1, i + 2, n);
    assert NeighborIndices(i, n) == a + b;
    IdsAtConcat(items, a, b);
    PairWindow(items, i - 2);
    PairWindow(items, i + 1);
    assert IdsAt(items, a) == items[Clamp(i - 2, n)..Clamp(i, n)];
    assert IdsAt(items, b) == items[Clamp(i + 1, n)..Clamp(i + 3, n)];
  }

  /** The order after requesting `ids` one after another. */
  function WarmOrder(order: seq<int>, ids: seq<int>): seq<int> {
    if ids == [] then order else NextOrder(WarmOrder(order, ids[..|ids| - 1]), ids[|ids| - 1])
  }

  /**
   * A run of requests keeps the order free of repetitions and at most six
   * long, and leaves the last requested id in it.
   */
  lemma {:induction false} WarmOrderCorrect(order: seq<int>, ids: seq<int>)
    requires Distinct(order) && |order| <= MaxItems
    ensures var r := WarmOrder(order, ids);
      Distinct(r) && |r| <= MaxItems && (ids != [] ==> ids[|ids| - 1] in r)
  {
    if ids != [] {
      WarmOrderCorrect(order, ids[..|ids| - 1]);
      NextOrderCorrect(WarmOrder(order, ids[..|ids| - 1]), ids[|ids| - 1]);
    }
  }

  /**
   * A warm-up can evict a neighbour it has just requested: with six videos
   * held and the first neighbour the oldest of them, a new second neighbour
   * pushes the first out.
   */
  lemma WarmCanEvictNeighbor(order: seq<int>, a: int, x: int)
    requires Distinct(order) && |order| == MaxItems && order[0] == a && x !in order
    ensures a !in WarmOrder(order, [a, x])
  {
    assert [a, x][..1] == [a];
    assert [a][..0] == [];
    assert WarmOrder(order, [a]) == NextOrder(order, a);
    HitDoesNotProtect(order, x);
  }

  // ---------------------------------------------------------------------------
  // The preheater object

  /** `ReelsPreheater`. */
  class ReelsPreheater {
    /** `InteresnoAPI.hlsPlaylistURL(videoID:)`. */
    const playlistUrl: int -> Url
    var cache: map<int, Asset>
    var order: seq<int>

    /**
     * The ids in `order` are exactly the keys of `cache`, each once, at most
     * six, and each cached asset is for its own video's playlist URL.
     */
    ghost predicate Valid()
      reads this
    {
      && (forall id :: id in cache <==> id in order)
      && Distinct(order) && |order| <= MaxItems
      && (forall id :: id in cache ==> cache[id].url == playlistUrl(id))
    }

    constructor (playlistUrl: int -> Url)
      ensures this.playlistUrl == playlistUrl && cache == map[] && order == [] && Valid()
    {
      this.playlistUrl := playlistUrl;
      cache := map[];
      order := [];
    }

    /**
     * `asset(for:)`: the cached asset on a hit; on a miss a new asset for the
     * video's playlist URL, cached and appended to the order, which is then
     * trimmed.
     */
    method AssetFor(videoID: int) returns (a: Asset)
      requires Valid()
      modifies this
      ensures Valid() && videoID in cache && cache[videoID] == a
      ensures a.url == playlistUrl(videoID)
      ensures order == NextOrder(old(order), videoID)
      ensures videoID in old(cache) ==> a == old(cache)[videoID] && cache == old(cache)
      ensures videoID !in old(cache) ==> fresh(a) && a.url == playlistUrl(videoID)
      ensures forall id :: id in cache && id != videoID ==> id in old(cache) && cache[id] == old(cache)[id]
    {
      NextOrderCorrect(order, videoID);
      if videoID in cache {
        return cache[videoID];
      }
      a := new Asset(playlistUrl(videoID));
      AppendDistinct(order, videoID);
      ghost var appended := order + [videoID];
      cache := cache[videoID := a];
      order := order + [videoID];
      TrimIfNeeded();
      forall id
        ensures id in cache <==> id in order
      {
        CutMembership(appended, Excess(|appended|), id);
      }
    }

    /**
     * `trimIfNeeded()`: while more than six ids are held, the first one in
     * the order is dropped from the order and from the cache.
     */
    method TrimIfNeeded()
      modifies this
      ensures order == Trim(old(order))
      ensures cache == old(cache) - (set id | id in old(order)[..Excess(|old(order)|)])
    {
      ghost var o0 := order;
      ghost var c0 := cache;
      ghost var removed: nat := 0;
      while |order| > MaxItems
        invariant removed <= Excess(|o0|)
        invariant order == o0[removed..]
        invariant cache == c0 - (set id | id in o0[..removed])
        decreases |order|
      {
        var removeID := order[0];
        order := order[1..];
        cache := cache - {removeID};
        assert o0[..removed + 1] == o0[..removed] + [removeID];
        removed := removed + 1;
      }
    }

    /**
     * `warmNeighbors(currentIndex:items:)`, with `items` the video ids of the
     * list: the asset of each neighbour position, in order.
     */
    method WarmNeighbors(currentIndex: int, items: seq<int>)
      requires Valid()
      modifies this
      ensures Valid()
      ensures order == WarmOrder(old(order), NeighborIDs(currentIndex, items))
      ensures forall id :: id in cache ==> cache[id].url == playlistUrl(id)
      ensures forall id :: id in cache && id in old(cache) ==> cache[id] == old(cache)[id] || fresh(cache[id])
    {
      var indices := NeighborIndices(currentIndex, |items|);
      ghost var ids := NeighborIDs(currentIndex, items);
      ghost var o0 := order;
      ghost var c0 := cache;
      for k := 0 to |indices|
        invariant Valid()
        invariant order == WarmOrder(o0, ids[..k])
        invariant forall id :: id in cache && id in c0 ==> cache[id] == c0[id] || fresh(cache[id])
      {
        var id := items[indices[k]];
        assert ids[..k + 1][..k] == ids[..k] && ids[..k + 1][k] == id;
        assert WarmOrder(o0, ids[..k + 1]) == NextOrder(WarmOrder(o0, ids[..k]), id);
        var _ := AssetFor(id);
      }
      assert ids[..|indices|] == ids;
    }
  }
}
