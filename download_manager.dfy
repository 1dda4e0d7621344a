/**
 * The offline download manager (`HLSDownloadManager`): one asset download
 * task per video, at most ten of them tracked in least-recently-used order,
 * a target in seconds per task, the seconds each video has downloaded, and
 * the videos that are never tried again. A counting semaphore, the gate,
 * holds back the start of each task.
 *
 * All state changes run on one serial queue; the model runs them one after
 * another. A task is known by its `taskIdentifier`. `stalled` records that
 * the serial queue is blocked inside `gate.wait()`: every later block on it,
 * including the completion that would signal the gate, then waits forever.
 */
module DownloadManager {
  import opened Wrappers
  import opened Budget
  import opened Lists

  const MaxConcurrentDownloads: nat := 10

  /** `max(1, targetSeconds)`. */
  function AtLeastOne(t: real): (r: real)
    ensures r >= 1.0 && r >= t && (r == t || r == 1.0)
  {
    if 1.0 < t then t else 1.0
  }

  function Min(a: real, b: real): (r: real)
    ensures r <= a && r <= b && (r == a || r == b)
  {
    if b < a then b else a
  }

  // ---------------------------------------------------------------------------
  // The LRU list

  /** `if let idx = s.firstIndex(of: x) { s.remove(at: idx) }`. */
  function RemoveFirst(s: seq<int>, x: int): (r: seq<int>)
    ensures x !in s ==> r == s
  {
    if s == [] then []
    else if s[0] == x then s[1..]
    else [s[0]] + RemoveFirst(s[1..], x)
  }

  /** `bumpLRU(_:)`: the id moves to the tail, or joins it. */
  function Bump(lru: seq<int>, id: int): seq<int> {
    RemoveFirst(lru, id) + [id]
  }

  /** Removing the first occurrence of `x` cuts the sequence at that occurrence. */
  lemma {:induction false} RemoveFirstAt(s: seq<int>, x: int, i: nat)
    requires i < |s| && s[i] == x && forall j :: 0 <= j < i ==> s[j] != x
    ensures RemoveFirst(s, x) == s[..i] + s[i + 1..]
  {
    if i > 0 {
      RemoveFirstAt(s[1..], x, i - 1);
      assert s[1..][..i - 1] == s[1..i];
      assert s[1..][i..] == s[i + 1..];
      assert s[..i] == [s[0]] + s[1..i];
    }
  }

  /** On a list without repetitions, removing `x` leaves every other element and no `x`. */
  lemma {:induction false} RemoveFirstDistinct(s: seq<int>, x: int)
    requires Distinct(s)
    ensures Distinct(RemoveFirst(s, x))
    ensures forall y :: y in RemoveFirst(s, x) <==> y in s && y != x
    ensures |RemoveFirst(s, x)| == if x in s then |s| - 1 else |s|
  {
    if s != [] && s[0] != x {
      assert Distinct(s[1..]) by {
        forall i, j | 0 <= i < j < |s[1..]|
          ensures s[1..][i] != s[1..][j]
        {
          assert s[1..][i] == s[i + 1] && s[1..][j] == s[j + 1];
        }
      }
      RemoveFirstDistinct(s[1..], x);
      var r := RemoveFirst(s[1..], x);
      assert s[0] !in s[1..] by {
        forall k | 0 <= k < |s[1..]|
          ensures s[1..][k] != s[0]
        {
          assert s[1..][k] == s[k + 1];
        }
      }
      assert s[0] !in r;
      forall i, j | 0 <= i < j < |[s[0]] + r|
        ensures ([s[0]] + r)[i] != ([s[0]] + r)[j]
      {
        if i > 0 {
          assert ([s[0]] + r)[i] == r[i - 1];
        }
        assert ([s[0]] + r)[j] == r[j - 1];
      }
      assert s == [s[0]] + s[1..];
    } else if s != [] {
      forall i, j | 0 <= i < j < |s[1..]|
        ensures s[1..][i] != s[1..][j]
      {
        assert s[1..][i] == s[i + 1] && s[1..][j] == s[j + 1];
      }
      assert s == [s[0]] + s[1..];
    }
  }

  /**
   * `bumpLRU` leaves the id exactly once, at the tail, and the other ids in
   * their order.
   */
  lemma BumpCorrect(lru: seq<int>, id: int)
    requires Distinct(lru)
    ensures var r := Bump(lru, id);
      Distinct(r) && r[|r| - 1] == id && r[..|r| - 1] == RemoveFirst(lru, id) &&
      (forall y :: y in r <==> y in lru || y == id) &&
      |r| == if id in lru then |lru| else |lru| + 1
  {
    RemoveFirstDistinct(lru, id);
    var r := Bump(lru, id);
    assert r[..|r| - 1] == RemoveFirst(lru, id);
  }

  /** The elements of a list without repetitions are as many as its length. */
  lemma {:induction false} DistinctCard(s: seq<int>)
    requires Distinct(s)
    ensures |set x | x in s| == |s|
  {
    if s != [] {
      var init := s[..|s| - 1];
      assert Distinct(init);
      DistinctCard(init);
      assert (set x | x in s) == (set x | x in init) + {s[|s| - 1]};
      assert s[|s| - 1] !in init;
    }
  }

  // ---------------------------------------------------------------------------
  // The state and its transitions

  /**
   * The manager's state: `tasksByVideoID` (each task by its identifier),
   * `targetsByTask`, `prefetchedByVideoID`, `lruOrder`, `notCacheableIDs`,
   * the gate's count, whether the queue is stalled, the next task
   * identifier the session hands out, and the tasks the manager cancelled.
   */
  datatype ManagerState = ManagerState(
    tasks: map<int, nat>,
    targets: map<nat, real>,
    prefetched: map<int, real>,
    lru: seq<int>,
    notCacheable: set<int>,
    gate: int,
    stalled: bool,
    nextIdent: nat,
    cancelled: set<nat>)

  const Initial := ManagerState(map[], map[], map[], [], {}, MaxConcurrentDownloads, false, 0, {})

  /**
   * The invariant: the tracked videos are exactly the LRU list, which has no
   * repetitions and at most ten entries; each task has its own identifier,
   * below the next one to be handed out; the gate is never negative. With the
   * corrected gate (`corrected`), the queue is never stalled and the gate
   * counts the free slots.
   */
  ghost predicate Inv(s: ManagerState, corrected: bool) {
    (forall id :: id in s.tasks <==> id in s.lru) && Distinct(s.lru) &&
    (forall a, b :: a in s.tasks && b in s.tasks && a != b ==> s.tasks[a] != s.tasks[b]) &&
    (forall a :: a in s.tasks ==> s.tasks[a] < s.nextIdent) &&
    |s.lru| <= MaxConcurrentDownloads && s.gate >= 0 &&
    (corrected ==> !s.stalled && s.gate == MaxConcurrentDownloads - |s.lru|)
  }

  /** Under the invariant, the task table has as many entries as the LRU list. */
  lemma TasksCount(s: ManagerState, corrected: bool)
    requires Inv(s, corrected)
    ensures |s.tasks| == |s.lru|
  {
    DistinctCard(s.lru);
    var ks := set x | x in s.lru;
    assert s.tasks.Keys == ks by {
      forall x
        ensures x in s.tasks.Keys <==> x in ks
      {
      }
    }
  }

  /**
   * One round of `enforceLRULimit`: the least recently used task is
   * cancelled and dropped. With the corrected gate its slot is given back at
   * once.
   */
  function EvictOldest(s: ManagerState, corrected: bool): ManagerState
    requires s.lru != []
  {
    var oldest := s.lru[0];
    s.(tasks := s.tasks - {oldest},
       lru := s.lru[1..],
       cancelled := if oldest in s.tasks then s.cancelled + {s.tasks[oldest]} else s.cancelled,
       gate := if corrected then s.gate + 1 else s.gate)
  }

  /** `enforceLRULimit()`: evict while ten or more tasks are tracked. */
  function Enforce(s: ManagerState, corrected: bool): (r: ManagerState)
    ensures |r.tasks| < MaxConcurrentDownloads || r.lru == []
    ensures r.notCacheable == s.notCacheable && r.stalled == s.stalled && r.prefetched == s.prefetched
    decreases |s.lru|
  {
    if |s.tasks| >= MaxConcurrentDownloads && s.lru != [] then Enforce(EvictOldest(s, corrected), corrected)
    else s
  }

  /** `gate.wait()` on the serial queue: take a slot, or block the queue for good. */
  function Wait(s: ManagerState): ManagerState {
    if s.gate <= 0 then s.(stalled := true) else s.(gate := s.gate - 1)
  }

  /**
   * `prefetch(videoID:url:targetSeconds:)`. `canCreate` says whether the
   * session made the download task.
   */
  function PrefetchSpec(s: ManagerState, corrected: bool, id: int, target: real, canCreate: bool): ManagerState {
    if s.stalled || id in s.notCacheable then s
    else if id in s.tasks then s.(lru := Bump(s.lru, id))
    else
      var e := Enforce(s, corrected);
      if !canCreate then e.(notCacheable := e.notCacheable + {id})
      else Wait(AddTask(e, id, target))
  }

  /** The video whose task has identifier `ident`: `tasksByVideoID.first(where:)`. */
  function VideoOf(lru: seq<int>, tasks: map<int, nat>, ident: nat): (r: Option<int>)
    ensures r.Some? ==> r.value in lru && r.value in tasks && tasks[r.value] == ident
    ensures r.None? ==> forall id :: id in lru && id in tasks ==> tasks[id] != ident
  {
    if lru == [] then None
    else if lru[0] in tasks && tasks[lru[0]] == ident then Some(lru[0])
    else VideoOf(lru[1..], tasks, ident)
  }

  /**
   * The `didLoad` delegate call: `loaded` are the durations of the ranges
   * loaded so far, `expected` the expected duration (nil when not finite).
   * Once the target is reached (capped by the expected duration), the
   * seconds are recorded for the task's video and the task is cancelled.
   */
  function DidLoadSpec(s: ManagerState, ident: nat, loaded: seq<real>, expected: Option<real>): ManagerState {
    var target := if ident in s.targets then s.targets[ident] else 0.0;
    var effective := match expected case None => target case Some(e) => Min(target, e);
    var total := Sum(loaded);
    if total < effective then s
    else
      var c := s.(cancelled := s.cancelled + {ident});
      if s.stalled then c
      else match VideoOf(s.lru, s.tasks, ident)
        case None => c
        case Some(id) => c.(prefetched := c.prefetched[id := Min(total, effective)])
  }

  /**
   * The `didCompleteWithError` delegate call: the task's video is no longer
   * tracked, an error marks it not cacheable, the target is dropped, and the
   * gate is signalled. With the corrected gate, a task evicted earlier has
   * already given its slot back and does not signal again.
   */
  function DidCompleteSpec(s: ManagerState, corrected: bool, ident: nat, error: Option<int>): ManagerState {
    if s.stalled then s
    else match VideoOf(s.lru, s.tasks, ident)
      case None =>
        s.(targets := s.targets - {ident}, gate := if corrected then s.gate else s.gate + 1)
      case Some(id) =>
        s.(tasks := s.tasks - {id}, lru := RemoveFirst(s.lru, id),
           notCacheable := if error.Some? then s.notCacheable + {id} else s.notCacheable,
           targets := s.targets - {ident}, gate := s.gate + 1)
  }

  /** `prefetchedSeconds(for:)`: 0 for a video with nothing recorded. */
  function PrefetchedSeconds(s: ManagerState, id: int): real {
    if id in s.prefetched then s.prefetched[id] else 0.0
  }

  /** `cachedVideoIDs()`, as a set. */
  function CachedVideoIDs(s: ManagerState): set<int> {
    set id | id in s.prefetched && s.prefetched[id] > 0.0
  }

  // ---------------------------------------------------------------------------
  // Properties of the transitions

  /** `cachedVideoIDs` lists exactly the videos whose `prefetchedSeconds` is positive. */
  lemma CachedIffPositive(s: ManagerState, id: int)
    ensures id in CachedVideoIDs(s) <==> PrefetchedSeconds(s, id) > 0.0
  {
  }

  /**
   * `enforceLRULimit` keeps the invariant and leaves fewer than ten tasks.
   * Since the invariant allows at most ten, it evicts at most one: the least
   * recently used, when ten are tracked.
   */
  lemma EnforceCorrect(s: ManagerState, corrected: bool)
    requires Inv(s, corrected)
    ensures Enforce(s, corrected) == if |s.lru| == MaxConcurrentDownloads then EvictOldest(s, corrected) else s
    ensures Inv(Enforce(s, corrected), corrected) && |Enforce(s, corrected).lru| < MaxConcurrentDownloads
  {
    TasksCount(s, corrected);
    if |s.lru| == MaxConcurrentDownloads {
      var t := EvictOldest(s, corrected);
      EvictKeepsInv(s, corrected);
      TasksCount(t, corrected);
    }
  }

  /**
   * An eviction drops the least recently used video from the table and the
   * list, cancels its task and keeps everything else.
   */
  lemma EvictOldestDrops(s: ManagerState, corrected: bool)
    requires Inv(s, corrected) && s.lru != []
    ensures var t := EvictOldest(s, corrected);
      var oldest := s.lru[0];
      t.tasks == s.tasks - {oldest} && oldest !in t.lru && t.lru == s.lru[1..] &&
      s.tasks[oldest] in t.cancelled && t.cancelled == s.cancelled + {s.tasks[oldest]} &&
      t.gate == (if corrected then s.gate + 1 else s.gate) &&
      t == s.(tasks := t.tasks, lru := t.lru, cancelled := t.cancelled, gate := t.gate)
  {
    var oldest := s.lru[0];
    assert oldest in s.lru;
    assert forall id :: id in s.tasks <==> id in s.lru;
    assert oldest in s.tasks;
    assert s.lru[0] !in s.lru[1..] by {
      forall k | 0 <= k < |s.lru[1..]|
        ensures s.lru[1..][k] != s.lru[0]
      {
        assert s.lru[1..][k] == s.lru[k + 1];
      }
    }
  }

  /** One eviction keeps the invariant. */
  lemma EvictKeepsInv(s: ManagerState, corrected: bool)
    requires Inv(s, corrected) && s.lru != []
    ensures Inv(EvictOldest(s, corrected), corrected)
  {
    var t := EvictOldest(s, corrected);
    forall id
      ensures id in t.tasks <==> id in t.lru
    {
      if id in s.lru[1..] {
        var k :| 0 <= k < |s.lru[1..]| && s.lru[1..][k] == id;
        assert s.lru[k + 1] == id;
      }
      if id in s.lru && id != s.lru[0] {
        var k :| 0 <= k < |s.lru| && s.lru[k] == id;
        assert s.lru[1..][k - 1] == id;
      }
    }
    assert Distinct(t.lru) by {
      forall i, j | 0 <= i < j < |t.lru|
        ensures t.lru[i] != t.lru[j]
      {
        assert t.lru[i] == s.lru[i + 1] && t.lru[j] == s.lru[j + 1];
      }
    }
  }

  /** Taking a slot keeps the invariant unless the gate is empty, when the queue stalls. */
  lemma WaitOutcome(s: ManagerState)
    ensures s.gate > 0 ==> !Wait(s).stalled || s.stalled
    ensures s.gate <= 0 ==> Wait(s).stalled
  {
  }

  /** The state right after the session made task `ident` for `id`, before the gate is taken. */
  function AddTask(e: ManagerState, id: int, target: real): ManagerState {
    var ident := e.nextIdent;
    e.(tasks := e.tasks[id := ident], targets := e.targets[ident := AtLeastOne(target)],
       lru := Bump(e.lru, id), nextIdent := ident + 1)
  }

  /** A new task in a table with room for it keeps the invariant once it has taken its slot. */
  lemma AddTaskKeepsInv(e: ManagerState, corrected: bool, id: int, target: real)
    requires Inv(e, corrected) && |e.lru| < MaxConcurrentDownloads && id !in e.tasks
    ensures Inv(Wait(AddTask(e, id, target)), corrected)
  {
    BumpCorrect(e.lru, id);
    assert id !in e.lru;
    var a := AddTask(e, id, target);
    assert |a.lru| == |e.lru| + 1;
    forall x
      ensures x in a.tasks <==> x in a.lru
    {
    }
    forall x | x in a.tasks
      ensures a.tasks[x] < a.nextIdent
    {
    }
    forall x, y | x in a.tasks && y in a.tasks && x != y
      ensures a.tasks[x] != a.tasks[y]
    {
      if x != id && y != id {
        assert a.tasks[x] == e.tasks[x] && a.tasks[y] == e.tasks[y];
      }
    }
    assert corrected ==> e.gate > 0;
  }

  /**
   * A prefetch keeps the invariant: after the eviction there is room for a
   * new task, and its identifier is new.
   */
  lemma PrefetchKeepsInv(s: ManagerState, corrected: bool, id: int, target: real, canCreate: bool)
    requires Inv(s, corrected)
    ensures Inv(PrefetchSpec(s, corrected, id, target, canCreate), corrected)
  {
    if s.stalled || id in s.notCacheable {
    } else if id in s.tasks {
      BumpCorrect(s.lru, id);
    } else {
      EnforceCorrect(s, corrected);
      var e := Enforce(s, corrected);
      EnforceDrops(s, corrected, id);
      if canCreate {
        AddTaskKeepsInv(e, corrected, id, target);
      }
    }
  }

  /** The completion of a task keeps the invariant. */
  lemma DidCompleteKeepsInv(s: ManagerState, corrected: bool, ident: nat, error: Option<int>)
    requires Inv(s, corrected)
    ensures Inv(DidCompleteSpec(s, corrected, ident, error), corrected)
  {
    if !s.stalled {
      match VideoOf(s.lru, s.tasks, ident)
      case None =>
      case Some(id) =>
        RemoveFirstDistinct(s.lru, id);
    }
  }

  /** A `didLoad` call keeps the invariant. */
  lemma DidLoadKeepsInv(s: ManagerState, corrected: bool, ident: nat, loaded: seq<real>, expected: Option<real>)
    requires Inv(s, corrected)
    ensures Inv(DidLoadSpec(s, ident, loaded, expected), corrected)
  {
  }

  /** A video marked not cacheable stays marked: no transition shrinks the set. */
  lemma NotCacheableOnlyGrows(s: ManagerState, corrected: bool, id: int, target: real, canCreate: bool,
                              ident: nat, error: Option<int>, loaded: seq<real>, expected: Option<real>)
    ensures s.notCacheable <= PrefetchSpec(s, corrected, id, target, canCreate).notCacheable
    ensures s.notCacheable <= DidCompleteSpec(s, corrected, ident, error).notCacheable
    ensures s.notCacheable == DidLoadSpec(s, ident, loaded, expected).notCacheable
  {
    PrefetchGrowsNotCacheable(s, corrected, id, target, canCreate);
    DidCompleteGrowsNotCacheable(s, corrected, ident, error);
    DidLoadKeepsNotCacheable(s, ident, loaded, expected);
  }

  /** A prefetch at most adds its video to the not-cacheable set. */
  lemma PrefetchGrowsNotCacheable(s: ManagerState, corrected: bool, id: int, target: real, canCreate: bool)
    ensures s.notCacheable <= PrefetchSpec(s, corrected, id, target, canCreate).notCacheable
  {
    EnforceFrame(s, corrected);
  }

  /** A completion at most adds its video to the not-cacheable set. */
  lemma DidCompleteGrowsNotCacheable(s: ManagerState, corrected: bool, ident: nat, error: Option<int>)
    ensures s.notCacheable <= DidCompleteSpec(s, corrected, ident, error).notCacheable
  {
  }

  /** A `didLoad` call leaves the not-cacheable set alone. */
  lemma DidLoadKeepsNotCacheable(s: ManagerState, ident: nat, loaded: seq<real>, expected: Option<real>)
    ensures s.notCacheable == DidLoadSpec(s, ident, loaded, expected).notCacheable
  {
  }

  /** `enforceLRULimit` never touches the not-cacheable set, the stall flag or the identifiers. */
  lemma {:induction false} EnforceFrame(s: ManagerState, corrected: bool)
    ensures var e := Enforce(s, corrected);
      e.notCacheable == s.notCacheable && e.stalled == s.stalled && e.nextIdent == s.nextIdent &&
      e.targets == s.targets && e.prefetched == s.prefetched
    decreases |s.lru|
  {
    if |s.tasks| >= MaxConcurrentDownloads && s.lru != [] {
      EnforceFrame(EvictOldest(s, corrected), corrected);
    }
  }

  /** A prefetch of a video marked not cacheable changes nothing. */
  lemma NotCacheableIgnored(s: ManagerState, corrected: bool, id: int, target: real, canCreate: bool)
    requires id in s.notCacheable
    ensures PrefetchSpec(s, corrected, id, target, canCreate) == s
  {
  }

  /** A prefetch of a video already being downloaded only moves it to the LRU tail. */
  lemma RunningOnlyBumped(s: ManagerState, corrected: bool, id: int, target: real, canCreate: bool)
    requires Inv(s, corrected) && !s.stalled && id !in s.notCacheable && id in s.tasks
    ensures var r := PrefetchSpec(s, corrected, id, target, canCreate);
      r == s.(lru := Bump(s.lru, id)) && r.lru[|r.lru| - 1] == id && |r.lru| == |s.lru| &&
      multiset(r.lru) == multiset(s.lru)
  {
    assert PrefetchSpec(s, corrected, id, target, canCreate) == s.(lru := Bump(s.lru, id));
    assert id in s.lru;
    BumpCorrect(s.lru, id);
    BumpPermutes(s.lru, id);
  }

  /** Removing the first occurrence of `x` takes exactly one `x` away, if there is one. */
  lemma {:induction false} RemoveFirstMultiset(s: seq<int>, x: int)
    ensures multiset(RemoveFirst(s, x)) == multiset(s) - multiset{x}
  {
    if s != [] {
      assert s == [s[0]] + s[1..];
      if s[0] != x {
        RemoveFirstMultiset(s[1..], x);
      }
    }
  }

  /** Moving an id already in the list to its tail keeps the same elements. */
  lemma BumpPermutes(lru: seq<int>, id: int)
    requires id in lru
    ensures multiset(Bump(lru, id)) == multiset(lru)
  {
    RemoveFirstMultiset(lru, id);
    assert id in multiset(lru);
  }

  /** A new task is tracked under the video with its target raised to at least one second. */
  lemma NewTaskTarget(s: ManagerState, corrected: bool, id: int, target: real)
    requires Inv(s, corrected) && !s.stalled && id !in s.notCacheable && id !in s.tasks
    ensures var r := PrefetchSpec(s, corrected, id, target, true);
      id in r.tasks && r.tasks[id] == s.nextIdent && r.targets[s.nextIdent] == AtLeastOne(target) &&
      r.lru[|r.lru| - 1] == id && r.notCacheable == s.notCacheable
  {
    EnforceFrame(s, corrected);
  }

  /** A failure to create the task marks the video not cacheable and starts nothing. */
  lemma CreationFailureMarks(s: ManagerState, corrected: bool, id: int, target: real)
    requires !s.stalled && id !in s.notCacheable && id !in s.tasks
    ensures var r := PrefetchSpec(s, corrected, id, target, false);
      id in r.notCacheable && id !in r.tasks && r.nextIdent == s.nextIdent
  {
    EnforceFrame(s, corrected);
    EnforceDrops(s, corrected, id);
  }

  /** `enforceLRULimit` only removes tasks. */
  lemma {:induction false} EnforceDrops(s: ManagerState, corrected: bool, id: int)
    requires id !in s.tasks
    ensures id !in Enforce(s, corrected).tasks
    decreases |s.lru|
  {
    if |s.tasks| >= MaxConcurrentDownloads && s.lru != [] {
      EnforceDrops(EvictOldest(s, corrected), corrected, id);
    }
  }

  /**
   * Once the target is reached, `didLoad` records the smaller of the loaded
   * seconds and the effective target for the task's video, and cancels the
   * task.
   */
  lemma DidLoadRecords(s: ManagerState, ident: nat, id: int, loaded: seq<real>, expected: Option<real>)
    requires Inv(s, false) || Inv(s, true)
    requires !s.stalled && id in s.tasks && s.tasks[id] == ident
    ensures var target := if ident in s.targets then s.targets[ident] else 0.0;
      var effective := match expected case None => target case Some(e) => Min(target, e);
      var r := DidLoadSpec(s, ident, loaded, expected);
      Sum(loaded) >= effective ==>
        ident in r.cancelled && r.prefetched == s.prefetched[id := Min(Sum(loaded), effective)] &&
        PrefetchedSeconds(r, id) <= effective && r.tasks == s.tasks
  {
    match VideoOf(s.lru, s.tasks, ident)
    case None =>
      assert false;
    case Some(v) =>
      assert v == id;
  }

  /**
   * The completion of a tracked task drops it from the table and the LRU
   * list, marks the video on an error, drops the target, and signals the gate
   * once.
   */
  lemma DidCompleteDrops(s: ManagerState, corrected: bool, ident: nat, id: int, error: Option<int>)
    requires Inv(s, corrected) && !s.stalled && id in s.tasks && s.tasks[id] == ident
    ensures var r := DidCompleteSpec(s, corrected, ident, error);
      r.tasks == s.tasks - {id} && id !in r.lru && |r.lru| == |s.lru| - 1 &&
      (id in r.notCacheable <==> error.Some? || id in s.notCacheable) &&
      ident !in r.targets && r.gate == s.gate + 1
  {
    RemoveFirstDistinct(s.lru, id);
    match VideoOf(s.lru, s.tasks, ident)
    case None =>
      assert false;
    case Some(v) =>
      assert v == id;
  }

  /**
   * The deliberate cancel of `didLoad` comes back as a completion; when the
   * platform reports it with an error, the video is marked not cacheable and
   * a later prefetch of it does nothing.
   */
  lemma SufficiencyCancelSticks(s: ManagerState, corrected: bool, ident: nat, id: int,
                                loaded: seq<real>, expected: Option<real>, code: int, target: real, canCreate: bool)
    requires Inv(s, corrected) && !s.stalled && id in s.tasks && s.tasks[id] == ident
    ensures var r := DidCompleteSpec(DidLoadSpec(s, ident, loaded, expected), corrected, ident, Some(code));
      id in r.notCacheable && PrefetchSpec(r, corrected, id, target, canCreate) == r
  {
    DidLoadKeepsInv(s, corrected, ident, loaded, expected);
    var l := DidLoadSpec(s, ident, loaded, expected);
    assert l.tasks == s.tasks && l.lru == s.lru && !l.stalled;
    DidCompleteDrops(l, corrected, ident, id, Some(code));
  }

  // ---------------------------------------------------------------------------
  // The gate

  /** Once the queue is stalled, no prefetch and no completion changes anything. */
  lemma StallIsPermanent(s: ManagerState, corrected: bool, id: int, target: real, canCreate: bool,
                         ident: nat, error: Option<int>, loaded: seq<real>, expected: Option<real>)
    requires s.stalled
    ensures PrefetchSpec(s, corrected, id, target, canCreate) == s
    ensures DidCompleteSpec(s, corrected, ident, error) == s
    ensures var l := DidLoadSpec(s, ident, loaded, expected); l.stalled && l.gate == s.gate && l.tasks == s.tasks
  {
  }

  /** Prefetches of the videos `ids`, one after another, with no delegate call in between. */
  function PrefetchAll(s: ManagerState, corrected: bool, ids: seq<int>): ManagerState
    decreases |ids|
  {
    if ids == [] then s
    else PrefetchAll(PrefetchSpec(s, corrected, ids[0], 1.0, true), corrected, ids[1..])
  }

  /**
   * As written: prefetches of ten new videos take the gate's ten slots, and
   * nothing is given back before the completions run.
   */
  lemma {:induction false} NewPrefetchesTakeSlots(s: ManagerState, ids: seq<int>)
    requires Inv(s, false) && !s.stalled && s.notCacheable == {}
    requires s.gate == MaxConcurrentDownloads - |s.lru| && |s.lru| + |ids| <= MaxConcurrentDownloads
    requires Distinct(ids) && forall k :: 0 <= k < |ids| ==> ids[k] !in s.tasks
    ensures var r := PrefetchAll(s, false, ids);
      Inv(r, false) && !r.stalled && r.notCacheable == {} &&
      |r.lru| == |s.lru| + |ids| && r.gate == MaxConcurrentDownloads - |r.lru|
    ensures forall x :: x !in s.tasks && x !in ids ==> x !in PrefetchAll(s, false, ids).tasks
    decreases |ids|
  {
    if ids != [] {
      var id := ids[0];
      TasksCount(s, false);
      PrefetchKeepsInv(s, false, id, 1.0, true);
      var t := PrefetchSpec(s, false, id, 1.0, true);
      assert Enforce(s, false) == s;
      BumpCorrect(s.lru, id);
      assert id !in s.lru;
      forall k | 0 <= k < |ids[1..]|
        ensures ids[1..][k] !in t.tasks
      {
        assert ids[1..][k] == ids[k + 1] && ids[k + 1] != ids[0];
      }
      assert Distinct(ids[1..]) by {
        forall i, j | 0 <= i < j < |ids[1..]|
          ensures ids[1..][i] != ids[1..][j]
        {
          assert ids[1..][i] == ids[i + 1] && ids[1..][j] == ids[j + 1];
        }
      }
      NewPrefetchesTakeSlots(t, ids[1..]);
      forall x | x !in s.tasks && x !in ids
        ensures x !in t.tasks && x !in ids[1..]
      {
        assert x != ids[0];
      }
    }
  }

  /**
   * As written, the eleventh new video stalls the queue for good: its
   * prefetch evicts the oldest task but finds the gate empty, and the evicted
   * task's completion, which would signal, is queued behind the blocked
   * prefetch.
   */
  lemma ElevenPrefetchesStall(ids: seq<int>)
    requires |ids| == 11 && Distinct(ids)
    ensures PrefetchAll(Initial, false, ids).stalled
  {
    var ten := ids[..10];
    assert Distinct(ten);
    NewPrefetchesTakeSlots(Initial, ten);
    var s := PrefetchAll(Initial, false, ten);
    PrefetchAllSplit(Initial, false, ten, [ids[10]]);
    assert ten + [ids[10]] == ids;
    assert ids[10] !in ten by {
      forall k | 0 <= k < 10
        ensures ten[k] != ids[10]
      {
        assert ten[k] == ids[k];
      }
    }
    assert ids[10] !in s.tasks;
    TasksCount(s, false);
    EnforceCorrect(s, false);
    EnforceFrame(s, false);
    var e := Enforce(s, false);
    assert e.gate == 0;
    assert PrefetchAll(s, false, [ids[10]]) == PrefetchSpec(s, false, ids[10], 1.0, true);
  }

  /** Prefetching `a` and then `b` is prefetching `a + b`. */
  lemma {:induction false} PrefetchAllSplit(s: ManagerState, corrected: bool, a: seq<int>, b: seq<int>)
    ensures PrefetchAll(s, corrected, a + b) == PrefetchAll(PrefetchAll(s, corrected, a), corrected, b)
    decreases |a|
  {
    if a != [] {
      assert (a + b)[0] == a[0] && (a + b)[1..] == a[1..] + b;
      PrefetchAllSplit(PrefetchSpec(s, corrected, a[0], 1.0, true), corrected, a[1..], b);
    } else {
      assert a + b == b;
    }
  }

  /**
   * Corrected: with the slot of an evicted task given back at eviction (and
   * not again at its completion), the gate always counts the free slots, so
   * no sequence of prefetches and delegate calls ever stalls the queue.
   */
  lemma CorrectedNeverStalls(s: ManagerState, id: int, target: real, canCreate: bool,
                             ident: nat, error: Option<int>, loaded: seq<real>, expected: Option<real>)
    requires Inv(s, true)
    ensures !PrefetchSpec(s, true, id, target, canCreate).stalled
    ensures !DidCompleteSpec(s, true, ident, error).stalled
    ensures !DidLoadSpec(s, ident, loaded, expected).stalled
  {
    PrefetchKeepsInv(s, true, id, target, canCreate);
    DidCompleteKeepsInv(s, true, ident, error);
    DidLoadKeepsInv(s, true, ident, loaded, expected);
  }

  /** Corrected, the same eleven prefetches leave the queue running with ten tasks. */
  lemma ElevenPrefetchesRunCorrected(ids: seq<int>)
    ensures !PrefetchAll(Initial, true, ids).stalled
  {
    PrefetchAllKeepsInv(Initial, ids);
  }

  /** Corrected, any run of prefetches keeps the invariant. */
  lemma {:induction false} PrefetchAllKeepsInv(s: ManagerState, ids: seq<int>)
    requires Inv(s, true)
    ensures Inv(PrefetchAll(s, true, ids), true)
    decreases |ids|
  {
    if ids != [] {
      PrefetchKeepsInv(s, true, ids[0], 1.0, true);
      PrefetchAllKeepsInv(PrefetchSpec(s, true, ids[0], 1.0, true), ids[1..]);
    }
  }

  // ---------------------------------------------------------------------------
  // The manager object

  /** `HLSDownloadManager`. `corrected` selects the corrected gate. */
  class Manager {
    const corrected: bool
    var tasks: map<int, nat>
    var targets: map<nat, real>
    var prefetched: map<int, real>
    var lru: seq<int>
    var notCacheable: set<int>
    var gate: int
    var stalled: bool
    var nextIdent: nat
    var cancelled: set<nat>

    function State(): ManagerState
      reads this
    {
      ManagerState(tasks, targets, prefetched, lru, notCacheable, gate, stalled, nextIdent, cancelled)
    }

    ghost predicate Valid()
      reads this
    {
      Inv(State(), corrected)
    }

    constructor (corrected: bool)
      ensures this.corrected == corrected && State() == Initial && Valid()
    {
      this.corrected := corrected;
      tasks, targets, prefetched, lru := map[], map[], map[], [];
      notCacheable, gate, stalled, nextIdent, cancelled := {}, MaxConcurrentDownloads, false, 0, {};
    }

    /** `bumpLRU(_:)`. */
    method BumpLRU(id: int)
      modifies this
      ensures State() == old(State()).(lru := Bump(old(lru), id))
    {
      lru := RemoveFirst(lru, id);
      lru := lru + [id];
    }

    /** `enforceLRULimit()`. */
    method EnforceLRULimit()
      requires Valid()
      modifies this
      ensures State() == Enforce(old(State()), corrected)
      ensures Valid() && |lru| < MaxConcurrentDownloads
    {
      while |tasks| >= MaxConcurrentDownloads && lru != []
        invariant Valid()
        invariant Enforce(State(), corrected) == Enforce(old(State()), corrected)
        decreases |lru|
      {
        EvictOldestTask();
      }
      EnforceCorrect(State(), corrected);
    }

    /** One round of the loop of `enforceLRULimit()`: cancel and forget the least recently used task. */
    method EvictOldestTask()
      requires Valid() && lru != []
      modifies this
      ensures State() == EvictOldest(old(State()), corrected)
      ensures Valid()
    {
      EvictKeepsInv(State(), corrected);
      var oldest := lru[0];
      if oldest in tasks {
        cancelled := cancelled + {tasks[oldest]};
      }
      tasks := tasks - {oldest};
      lru := lru[1..];
      if corrected {
        gate := gate + 1;
      }
    }

    /** `prefetch(videoID:url:targetSeconds:)`; `canCreate` says whether the session made the task. */
    method Prefetch(id: int, target: real, canCreate: bool)
      requires Valid()
      modifies this
      ensures State() == PrefetchSpec(old(State()), corrected, id, target, canCreate)
      ensures Valid()
    {
      PrefetchKeepsInv(State(), corrected, id, target, canCreate);
      if stalled || id in notCacheable {
        return;
      }
      if id in tasks {
        BumpLRU(id);
        return;
      }
      EnforceLRULimit();
      if !canCreate {
        notCacheable := notCacheable + {id};
        return;
      }
      StartTask(id, target);
    }

    /**
     * The end of `prefetch` once the session made the task: track it under
     * the video with its target, bump the video, then take a slot of the gate.
     */
    method StartTask(id: int, target: real)
      modifies this
      ensures State() == Wait(AddTask(old(State()), id, target))
    {
      var ident := nextIdent;
      nextIdent := nextIdent + 1;
      tasks := tasks[id := ident];
      targets := targets[ident := AtLeastOne(target)];
      BumpLRU(id);
      if gate <= 0 {
        stalled := true;
      } else {
        gate := gate - 1;
      }
    }

    /** The `didLoad` delegate call for the task `ident`. */
    method DidLoad(ident: nat, loaded: seq<real>, expected: Option<real>)
      requires Valid()
      modifies this
      ensures State() == DidLoadSpec(old(State()), ident, loaded, expected)
      ensures Valid()
    {
      DidLoadKeepsInv(State(), corrected, ident, loaded, expected);
      var loadedSeconds := Sum(loaded);
      var target := if ident in targets then targets[ident] else 0.0;
      var effective := match expected case None => target case Some(e) => Min(target, e);
      if loadedSeconds >= effective {
        if !stalled {
          var video := VideoOf(lru, tasks, ident);
          if video.Some? {
            prefetched := prefetched[video.value := Min(loadedSeconds, effective)];
          }
        }
        cancelled := cancelled + {ident};
      }
    }

    /** The `didCompleteWithError` delegate call for the task `ident`. */
    method DidComplete(ident: nat, error: Option<int>)
      requires Valid()
      modifies this
      ensures State() == DidCompleteSpec(old(State()), corrected, ident, error)
      ensures Valid()
    {
      DidCompleteKeepsInv(State(), corrected, ident, error);
      if stalled {
        return;
      }
      var video := VideoOf(lru, tasks, ident);
      if video.Some? {
        var id := video.value;
        tasks := tasks - {id};
        lru := RemoveFirst(lru, id);
        if error.Some? {
          notCacheable := notCacheable + {id};
        }
        gate := gate + 1;
      } else if !corrected {
        gate := gate + 1;
      }
      targets := targets - {ident};
    }
  }
}
