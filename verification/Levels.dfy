/** Greedy clustering of price levels (services/strategy/indicators.py, `cluster_levels`). */
module Levels {
  import opened Prelude

  predicate Ascending(s: seq<real>) {
    forall i, j :: 0 <= i < j < |s| ==> s[i] <= s[j]
  }

  function Insert(x: real, s: seq<real>): seq<real> {
    if s == [] || x <= s[0] then [x] + s else [s[0]] + Insert(x, s[1..])
  }

  /** Python's `sorted` on a list of floats. */
  function Sort(s: seq<real>): seq<real> {
    if s == [] then [] else Insert(s[0], Sort(s[1..]))
  }

  lemma {:induction false} InsertSorted(x: real, s: seq<real>)
    requires Ascending(s)
    ensures Ascending(Insert(x, s)) && multiset(Insert(x, s)) == multiset{x} + multiset(s)
  {
    if s != [] && x > s[0] {
      InsertSorted(x, s[1..]);
      assert s == [s[0]] + s[1..];
      LeastFirst(s[0], x, s[1..], Insert(x, s[1..]));
    } else {
      assert multiset([x] + s) == multiset{x} + multiset(s);
    }
  }

  lemma LeastFirst(least: real, x: real, rest: seq<real>, all: seq<real>)
    requires Ascending(all) && multiset(all) == multiset{x} + multiset(rest) && least <= x
    requires forall i :: 0 <= i < |rest| ==> least <= rest[i]
    ensures Ascending([least] + all)
  {
    forall k | 0 <= k < |all|
      ensures least <= all[k]
    {
      assert all[k] in multiset(all);
      assert all[k] == x || all[k] in rest;
    }
  }

  lemma {:induction false} SortSorts(s: seq<real>)
    ensures Ascending(Sort(s)) && multiset(Sort(s)) == multiset(s)
  {
    if s != [] {
      SortSorts(s[1..]);
      InsertSorted(s[0], Sort(s[1..]));
      assert s == [s[0]] + s[1..];
    }
  }

  /** The clusters of an ascending list. */
  function Greedy(s: seq<real>, tolerance: real): (cs: seq<seq<real>>)
    ensures forall c :: 0 <= c < |cs| ==> cs[c] != []
  {
    if s == [] then []
    else
      var cs, x := Greedy(s[..|s| - 1], tolerance), s[|s| - 1];
      if cs != [] && Abs(x - cs[|cs| - 1][0]) <= tolerance
      then cs[..|cs| - 1] + [cs[|cs| - 1] + [x]]
      else cs + [[x]]
  }

  function Clusters(levels: seq<real>, tolerance: real): seq<seq<real>> {
    Greedy(Sort(levels), tolerance)
  }

  method ClusterLevels(levels: seq<real>, tolerance: real) returns (clusters: seq<seq<real>>)
    ensures clusters == Clusters(levels, tolerance)
  {
    hide Sort, Abs;
    if levels == [] {
      EmptySort();
      return [];
    }
    clusters := [];
    var s := Sort(levels);
    for i := 0 to |s|
      invariant clusters == Greedy(s[..i], tolerance)
    {
      assert s[..i + 1][..i] == s[..i];
      var lvl := s[i];
      if clusters != [] && Abs(lvl - clusters[|clusters| - 1][0]) <= tolerance {
        clusters := clusters[..|clusters| - 1] + [clusters[|clusters| - 1] + [lvl]];
      } else {
        clusters := clusters + [[lvl]];
      }
    }
    assert s[..|s|] == s;
  }

  lemma EmptySort()
    ensures Sort([]) == []
  {
  }

  ghost function Flatten(cs: seq<seq<real>>): seq<real> {
    if cs == [] then [] else Flatten(cs[..|cs| - 1]) + cs[|cs| - 1]
  }

  ghost predicate Within(group: seq<real>, tolerance: real) {
    forall i, j :: 0 <= i < |group| && 0 <= j < |group| ==> Abs(group[i] - group[j]) <= tolerance
  }

  /** A partition of the levels into groups of spread at most the tolerance. */
  ghost predicate Grouping(levels: seq<real>, tolerance: real, groups: seq<seq<real>>) {
    && multiset(Flatten(groups)) == multiset(levels)
    && forall g :: 0 <= g < |groups| ==> Within(groups[g], tolerance)
  }

  /** What the greedy pass keeps: its clusters, laid end to end, are the list; within a cluster
      nothing is further than the tolerance from the leader; each leader is out of reach of the
      one before. */
  ghost predicate GreedyShape(s: seq<real>, tolerance: real, cs: seq<seq<real>>) {
    && Flatten(cs) == s
    && (forall c :: 0 <= c < |cs| ==> cs[c] != [] && Ascending(cs[c])
                                      && forall i :: 0 <= i < |cs[c]| ==> cs[c][i] - cs[c][0] <= Max(tolerance, 0.0))
    && (forall c :: 0 <= c < |cs| - 1 ==> cs[c][0] <= cs[c + 1][0] && tolerance < cs[c + 1][0] - cs[c][0])
  }

  lemma FlattenSnoc(cs: seq<seq<real>>, c: seq<real>)
    ensures Flatten(cs + [c]) == Flatten(cs) + c
  {
    assert (cs + [c])[..|cs|] == cs;
  }

  lemma {:induction false} FlattenMember(cs: seq<seq<real>>, c: nat, i: nat)
    requires c < |cs| && i < |cs[c]|
    ensures cs[c][i] in Flatten(cs)
  {
    if c < |cs| - 1 {
      FlattenMember(cs[..|cs| - 1], c, i);
    }
  }

  lemma LastIsGreatest(s: seq<real>, x: real, y: real)
    requires Ascending(s + [x]) && y in s
    ensures y <= x
  {
    var k :| 0 <= k < |s| && s[k] == y;
    assert (s + [x])[k] == y && (s + [x])[|s|] == x;
  }

  lemma ShapeGrows(s: seq<real>, x: real, tolerance: real, cs: seq<seq<real>>)
    requires GreedyShape(s, tolerance, cs) && Ascending(s + [x]) && cs != []
    requires Abs(x - cs[|cs| - 1][0]) <= tolerance
    ensures GreedyShape(s + [x], tolerance, cs[..|cs| - 1] + [cs[|cs| - 1] + [x]])
  {
    var front, last := cs[..|cs| - 1], cs[|cs| - 1];
    forall i | 0 <= i < |last|
      ensures last[i] <= x
    {
      FlattenMember(cs, |cs| - 1, i);
      LastIsGreatest(s, x, last[i]);
    }
    FlattenSnoc(front, last + [x]);
    assert Flatten(front) + (last + [x]) == s + [x];
  }

  lemma ShapeOpens(s: seq<real>, x: real, tolerance: real, cs: seq<seq<real>>)
    requires GreedyShape(s, tolerance, cs) && Ascending(s + [x])
    requires cs != [] ==> Abs(x - cs[|cs| - 1][0]) > tolerance
    ensures GreedyShape(s + [x], tolerance, cs + [[x]])
  {
    if cs != [] {
      FlattenMember(cs, |cs| - 1, 0);
      LastIsGreatest(s, x, cs[|cs| - 1][0]);
      assert tolerance < x - cs[|cs| - 1][0];
    }
    hide Abs, Flatten;
    FlattenSnoc(cs, [x]);
    var all := cs + [[x]];
    forall c | 0 <= c < |all| - 1
      ensures all[c][0] <= all[c + 1][0] && tolerance < all[c + 1][0] - all[c][0]
    {
      if c < |cs| - 1 {
        assert cs[c][0] <= cs[c + 1][0];
      }
    }
  }

  lemma {:induction false} GreedyHasShape(s: seq<real>, tolerance: real)
    requires Ascending(s)
    ensures GreedyShape(s, tolerance, Greedy(s, tolerance))
  {
    hide Abs, GreedyShape;
    if s == [] {
      EmptyShape(tolerance);
    } else {
      var front, x := s[..|s| - 1], s[|s| - 1];
      GreedyHasShape(front, tolerance);
      assert s == front + [x];
      var cs := Greedy(front, tolerance);
      if cs != [] && Abs(x - cs[|cs| - 1][0]) <= tolerance {
        ShapeGrows(front, x, tolerance, cs);
      } else {
        ShapeOpens(front, x, tolerance, cs);
      }
    }
  }

  lemma EmptyShape(tolerance: real)
    ensures GreedyShape([], tolerance, [])
  {
  }

  lemma {:induction false} LeadersApart(s: seq<real>, tolerance: real, cs: seq<seq<real>>, a: nat, b: nat)
    requires GreedyShape(s, tolerance, cs) && a < b < |cs|
    ensures Abs(cs[b][0] - cs[a][0]) > tolerance
    ensures cs[a][0] <= cs[b][0]
  {
    if a + 1 < b {
      LeadersApart(s, tolerance, cs, a, b - 1);
      assert cs[b - 1][0] <= cs[b - 1 + 1][0];
    } else {
      assert cs[a][0] <= cs[a + 1][0];
    }
  }

  /** The clusters hold exactly the given levels, and no cluster is wider than the tolerance
      (a negative one leaves every level alone in its cluster). */
  lemma ClustersPartition(levels: seq<real>, tolerance: real)
    ensures var cs := Clusters(levels, tolerance);
      && multiset(Flatten(cs)) == multiset(levels)
      && forall c :: 0 <= c < |cs| ==> cs[c] != [] && Within(cs[c], Max(tolerance, 0.0))
  {
    SortSorts(levels);
    GreedyHasShape(Sort(levels), tolerance);
    var cs := Clusters(levels, tolerance);
    forall c | 0 <= c < |cs|
      ensures Within(cs[c], Max(tolerance, 0.0))
    {
      forall i, j | 0 <= i < |cs[c]| && 0 <= j < |cs[c]|
        ensures Abs(cs[c][i] - cs[c][j]) <= Max(tolerance, 0.0)
      {
        assert cs[c][0] <= cs[c][i] && cs[c][0] <= cs[c][j];
        assert cs[c][i] - cs[c][0] <= Max(tolerance, 0.0) && cs[c][j] - cs[c][0] <= Max(tolerance, 0.0);
      }
    }
  }

  /** A level opens a cluster exactly when it is out of reach of the first of the last cluster: laid end
      to end the clusters are the sorted levels, within one nothing is beyond the tolerance from its
      first, and each first is beyond it from the one before. */
  lemma ClustersAreGreedy(levels: seq<real>, tolerance: real)
    requires tolerance >= 0.0
    ensures var cs := Clusters(levels, tolerance);
      && Ascending(Flatten(cs)) && multiset(Flatten(cs)) == multiset(levels)
      && (forall c, i :: 0 <= c < |cs| && 0 <= i < |cs[c]| ==> cs[c][0] <= cs[c][i] <= cs[c][0] + tolerance)
      && (forall c :: 0 <= c < |cs| - 1 ==> cs[c + 1][0] > cs[c][0] + tolerance)
  {
    SortSorts(levels);
    GreedyHasShape(Sort(levels), tolerance);
    hide Greedy, Sort, Flatten;
  }

  lemma {:induction false} Pigeonhole(f: seq<nat>, n: nat)
    requires forall i :: 0 <= i < |f| ==> f[i] < n
    requires forall i, j :: 0 <= i < j < |f| ==> f[i] != f[j]
    ensures |f| <= n
  {
    assert f != [] ==> f[0] < n;
    if n > 0 {
      if i :| 0 <= i < |f| && f[i] == n - 1 {
        Pigeonhole(f[..i] + f[i + 1..], n - 1);
      } else {
        Pigeonhole(f, n - 1);
      }
    }
  }

  lemma {:induction false} GroupHolding(groups: seq<seq<real>>, x: real) returns (g: nat, i: nat)
    requires x in Flatten(groups)
    ensures g < |groups| && i < |groups[g]| && groups[g][i] == x
  {
    if x in groups[|groups| - 1] {
      g := |groups| - 1;
      i :| 0 <= i < |groups[g]| && groups[g][i] == x;
    } else {
      g, i := GroupHolding(groups[..|groups| - 1], x);
    }
  }

  /** Greedy is optimal: no partition of the levels into groups of spread at most the tolerance
      has fewer groups. */
  lemma ClustersFewest(levels: seq<real>, tolerance: real, groups: seq<seq<real>>)
    requires Grouping(levels, tolerance, groups)
    ensures |Clusters(levels, tolerance)| <= |groups|
  {
    SortSorts(levels);
    var s := Sort(levels);
    GreedyHasShape(s, tolerance);
    var f := LeaderGroups(levels, tolerance, Clusters(levels, tolerance), groups, |Clusters(levels, tolerance)|);
    Pigeonhole(f, |groups|);
  }

  lemma LeaderPlaced(levels: seq<real>, tolerance: real, cs: seq<seq<real>>, groups: seq<seq<real>>, c: nat)
    returns (g: nat)
    requires Grouping(levels, tolerance, groups) && GreedyShape(Sort(levels), tolerance, cs) && c < |cs|
    ensures g < |groups| && cs[c][0] in groups[g]
  {
    SortSorts(levels);
    FlattenMember(cs, c, 0);
    assert cs[c][0] in multiset(Sort(levels));
    var i;
    g, i := GroupHolding(groups, cs[c][0]);
  }

  lemma ShareGroup(group: seq<real>, tolerance: real, x: real, y: real)
    requires Within(group, tolerance) && x in group && y in group
    ensures Abs(x - y) <= tolerance
  {
  }

  /** The group each of the first `n` leaders sits in; no two share one. */
  lemma {:induction false} LeaderGroups(levels: seq<real>, tolerance: real, cs: seq<seq<real>>, groups: seq<seq<real>>, n: nat)
    returns (f: seq<nat>)
    requires Grouping(levels, tolerance, groups) && GreedyShape(Sort(levels), tolerance, cs) && n <= |cs|
    ensures |f| == n
    ensures forall a :: 0 <= a < n ==> f[a] < |groups| && cs[a][0] in groups[f[a]]
    ensures forall a, b :: 0 <= a < b < n ==> f[a] != f[b]
  {
    hide Abs, Sort, Flatten, Within;
    if n == 0 {
      f := [];
    } else {
      var earlier := LeaderGroups(levels, tolerance, cs, groups, n - 1);
      var g := LeaderPlaced(levels, tolerance, cs, groups, n - 1);
      forall a | 0 <= a < n - 1
        ensures earlier[a] != g
      {
        LeadersApart(Sort(levels), tolerance, cs, a, n - 1);
        if earlier[a] == g {
          ShareGroup(groups[g], tolerance, cs[n - 1][0], cs[a][0]);
          assert false;
        }
      }
      f := earlier + [g];
    }
  }
}
