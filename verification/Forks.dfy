/** The fork schedule: which block version is in force at a height. */
module Forks {

  /** The version of the last schedule entry whose height has been reached, counting from the end;
      the default if none has. */
  function VersionAt(heights: seq<int>, versions: seq<nat>, h: int, default: nat): nat
    requires |heights| == |versions|
  {
    if heights == [] then default
    else
      var n := |heights| - 1;
      if h >= heights[n] then versions[n] else VersionAt(heights[..n], versions[..n], h, default)
  }

  /** The backward scan that Info, BeginBlock and InitPersistData each run, with their own default. */
  method ScanVersion(heights: seq<int>, versions: seq<nat>, h: int, default: nat) returns (v: nat)
    requires |heights| == |versions|
    ensures v == VersionAt(heights, versions, h, default)
  {
    v := default;
    var i := |heights| - 1;
    assert heights[..i + 1] == heights && versions[..i + 1] == versions;
    while i >= 0
      invariant -1 <= i < |heights|
      invariant v == default
      invariant VersionAt(heights, versions, h, default) == VersionAt(heights[..i + 1], versions[..i + 1], h, default)
    {
      assert heights[..i + 1][..i] == heights[..i] && versions[..i + 1][..i] == versions[..i];
      if h >= heights[i] {
        v := versions[i];
        break;
      }
      i := i - 1;
    }
  }

  ghost predicate Reached(heights: seq<int>, h: int, i: int) {
    0 <= i < |heights| && h >= heights[i]
  }

  /** The version in force is the one at the greatest index reached. */
  lemma {:induction false} VersionIsGreatestReached(heights: seq<int>, versions: seq<nat>, h: int, default: nat, g: nat)
    requires |heights| == |versions|
    requires Reached(heights, h, g) && forall j :: g < j < |heights| ==> !Reached(heights, h, j)
    ensures VersionAt(heights, versions, h, default) == versions[g]
  {
    var n := |heights| - 1;
    if g < n {
      assert !Reached(heights, h, n);
      forall j | g < j < n ensures !Reached(heights[..n], h, j) {
        assert !Reached(heights, h, j);
      }
      VersionIsGreatestReached(heights[..n], versions[..n], h, default, g);
    }
  }

  lemma {:induction false} VersionBeforeSchedule(heights: seq<int>, versions: seq<nat>, h: int, default: nat)
    requires |heights| == |versions|
    requires forall i :: 0 <= i < |heights| ==> h < heights[i]
    ensures VersionAt(heights, versions, h, default) == default
  {
    if heights != [] {
      VersionBeforeSchedule(heights[..|heights| - 1], versions[..|heights| - 1], h, default);
    }
  }

  lemma {:induction false} SomeGreatest(heights: seq<int>, h: int, i: int) returns (g: nat)
    requires Reached(heights, h, i)
    ensures Reached(heights, h, g) && i <= g && forall j :: g < j < |heights| ==> !Reached(heights, h, j)
    decreases |heights| - i
  {
    if j :| Reached(heights, h, j) && j > i {
      g := SomeGreatest(heights, h, j);
    } else {
      g := i;
    }
  }

  /** The three scans differ only in their default, so they agree exactly from the first height of
      an increasing schedule on. */
  lemma ScansAgree(heights: seq<int>, versions: seq<nat>, h: int)
    requires |heights| == |versions| > 0
    requires forall i :: 0 < i < |heights| ==> heights[0] <= heights[i]
    ensures h >= heights[0] <==>
            forall d, d' :: VersionAt(heights, versions, h, d) == VersionAt(heights, versions, h, d')
  {
    if h >= heights[0] {
      var g := SomeGreatest(heights, h, 0);
      forall d, d' ensures VersionAt(heights, versions, h, d) == VersionAt(heights, versions, h, d') {
        VersionIsGreatestReached(heights, versions, h, d, g);
        VersionIsGreatestReached(heights, versions, h, d', g);
      }
    } else {
      VersionBeforeSchedule(heights, versions, h, 0);
      VersionBeforeSchedule(heights, versions, h, 1);
    }
  }

  /** With non-decreasing versions the chain never goes back to an older version. */
  lemma VersionsNeverGoBack(heights: seq<int>, versions: seq<nat>, h: int, h': int, d: nat, d': nat)
    requires |heights| == |versions| > 0
    requires forall i, j :: 0 <= i < j < |versions| ==> versions[i] <= versions[j]
    requires heights[0] <= h <= h'
    ensures VersionAt(heights, versions, h, d) <= VersionAt(heights, versions, h', d')
  {
    var g := SomeGreatest(heights, h, 0);
    assert Reached(heights, h', g);
    var g' := SomeGreatest(heights, h', g);
    VersionIsGreatestReached(heights, versions, h, d, g);
    VersionIsGreatestReached(heights, versions, h', d', g');
  }
}
