/**
 * The seconds budget shared by both prefetch walks (`HLSProxy.prefetchFirstSeconds`
 * and `HLSSegmentPrefetcher.prefetchFirstSeconds`): segments are taken in
 * order, and the walk stops before the first segment at which the durations
 * already taken add up to the target.
 */
module Budget {
  /** The durations added up left to right, as the walks accumulate them. */
  function Sum(ds: seq<real>): real {
    if ds == [] then 0.0 else Sum(ds[..|ds| - 1]) + ds[|ds| - 1]
  }

  /** Taking one more duration adds it to the running sum. */
  lemma SumStep(ds: seq<real>, i: nat)
    requires i < |ds|
    ensures Sum(ds[..i + 1]) == Sum(ds[..i]) + ds[i]
  {
    assert ds[..i + 1][..i] == ds[..i];
  }

  /** The first index from `i` on at which the sum taken so far reaches `seconds`, or `|ds|`. */
  function VisitFrom(ds: seq<real>, seconds: real, i: nat): (n: nat)
    requires i <= |ds|
    ensures i <= n <= |ds|
    decreases |ds| - i
  {
    if i == |ds| || Sum(ds[..i]) >= seconds then i else VisitFrom(ds, seconds, i + 1)
  }

  /** How many segments a walk with target `seconds` visits. */
  function VisitCount(ds: seq<real>, seconds: real): nat {
    VisitFrom(ds, seconds, 0)
  }

  /**
   * The walk visits exactly the segments before which the running sum is
   * still below the target: every visited one, and it stops at the first
   * where the target is reached (or at the end).
   */
  lemma {:induction false} VisitFromCharacterized(ds: seq<real>, seconds: real, i: nat)
    requires i <= |ds|
    ensures var n := VisitFrom(ds, seconds, i);
      (forall k :: i <= k < n ==> Sum(ds[..k]) < seconds) &&
      (n == |ds| || Sum(ds[..n]) >= seconds)
    decreases |ds| - i
  {
    if i < |ds| && Sum(ds[..i]) < seconds {
      VisitFromCharacterized(ds, seconds, i + 1);
    }
  }

  /** `VisitCount`, characterized from the start of the playlist. */
  lemma VisitCountCharacterized(ds: seq<real>, seconds: real)
    ensures var n := VisitCount(ds, seconds);
      n <= |ds| &&
      (forall k :: 0 <= k < n ==> Sum(ds[..k]) < seconds) &&
      (n == |ds| || Sum(ds[..n]) >= seconds)
  {
    VisitFromCharacterized(ds, seconds, 0);
  }

  /** A target of zero seconds or less visits nothing. */
  lemma NothingForNoSeconds(ds: seq<real>, seconds: real)
    requires seconds <= 0.0
    ensures VisitCount(ds, seconds) == 0
  {
  }

  /** Four 4-second segments with a 10-second target: the walk visits three. */
  lemma FourSegmentsTenSeconds(ds: seq<real>)
    requires ds == [4.0, 4.0, 4.0, 4.0]
    ensures VisitCount(ds, 10.0) == 3
  {
    assert Sum(ds[..0]) == 0.0;
    SumStep(ds, 0);
    SumStep(ds, 1);
    SumStep(ds, 2);
    assert Sum(ds[..3]) == 12.0;
    assert VisitFrom(ds, 10.0, 3) == 3;
    assert VisitFrom(ds, 10.0, 2) == 3;
    assert VisitFrom(ds, 10.0, 1) == 3;
  }
}
