/** Clustering points around k centroids by batch updates. An empty cluster gets a centroid that is not
    a number; comparisons with it fail, so no point goes to it again. */
module KMeans {

  const MAX_CLUSTERS := 16
  const MAX_ITERATIONS := 100

  /** A double as the program computes it here: a number, or the outcome of 0 / 0. */
  datatype Coord = NaN | Val(v: real)

  function V(c: Coord): real { if c.NaN? then 0.0 else c.v }

  function Plus(c: Coord, x: real): Coord { if c.NaN? then NaN else Val(c.v + x) }

  function Over(x: real, n: nat): real
    requires n > 0
  {
    x / n as real
  }

  function Square(x: real): (y: real)
    ensures y >= 0.0
  {
    x * x
  }

  ghost predicate Finite(c: seq<Coord>) { forall d :: 0 <= d < |c| ==> c[d].Val? }

  type Points = seq<seq<real>>

  type Centroids = seq<seq<Coord>>

  ghost predicate Dims(x: Points, c: Centroids, dim: nat) {
    && (forall i :: 0 <= i < |x| ==> |x[i]| == dim)
    && (forall j :: 0 <= j < |c| ==> |c[j]| == dim)
  }

  /** The squared distance over the first d dimensions. */
  function DistTo(p: seq<real>, c: seq<Coord>, d: nat): (r: real)
    requires d <= |p| == |c|
    ensures r >= 0.0
  {
    if d == 0 then 0.0 else DistTo(p, c, d - 1) + Square(p[d - 1] - V(c[d - 1]))
  }

  function Dist(p: seq<real>, c: seq<Coord>): (r: real)
    requires |p| == |c|
  {
    DistTo(p, c, |p|)
  }

  /** Every point is in a cluster. */
  ghost predicate InClusters(a: seq<int>, n: nat, k: nat) { |a| == n && forall i :: 0 <= i < n ==> 0 <= a[i] < k }

  /** Every point is in a cluster with a proper centroid. */
  ghost predicate Placed(x: Points, a: seq<int>, c: Centroids) {
    InClusters(a, |x|, |c|) && forall i :: 0 <= i < |x| ==> Finite(c[a[i]])
  }

  /** The sum of squared distances of the first n points from their centroids. */
  ghost function Total(x: Points, a: seq<int>, c: Centroids, dim: nat, n: nat): real
    requires Dims(x, c, dim) && InClusters(a, |x|, |c|) && n <= |x|
  {
    if n == 0 then 0.0 else Total(x, a, c, dim, n - 1) + Dist(x[n - 1], c[a[n - 1]])
  }

  // ---- Means ------------------------------------------------------------------------------------

  function Members(a: seq<int>, j: int, n: nat): nat
    requires n <= |a|
  {
    if n == 0 then 0 else Members(a, j, n - 1) + if a[n - 1] == j then 1 else 0
  }

  /** The sum of one coordinate over the members of cluster j. */
  function SumOf(x: Points, a: seq<int>, j: int, d: nat, n: nat): real
    requires n <= |x| == |a| && forall i :: 0 <= i < |x| ==> d < |x[i]|
  {
    if n == 0 then 0.0 else SumOf(x, a, j, d, n - 1) + if a[n - 1] == j then x[n - 1][d] else 0.0
  }

  /** Every centroid is the mean of its cluster's points, or not a number for an empty cluster. */
  ghost predicate Means(x: Points, a: seq<int>, c: Centroids, dim: nat) {
    && Dims(x, c, dim) && InClusters(a, |x|, |c|)
    && forall j, d :: 0 <= j < |c| && 0 <= d < dim ==>
         c[j][d] == if Members(a, j, |x|) == 0 then NaN else Val(Over(SumOf(x, a, j, d, |x|), Members(a, j, |x|)))
  }

  /** The squared differences of one coordinate from v, over the members of cluster j. */
  function Spread(x: Points, a: seq<int>, j: int, d: nat, v: real, n: nat): real
    requires n <= |x| == |a| && forall i :: 0 <= i < |x| ==> d < |x[i]|
  {
    if n == 0 then 0.0 else Spread(x, a, j, d, v, n - 1) + if a[n - 1] == j then Square(x[n - 1][d] - v) else 0.0
  }

  /** The squared distances over d dimensions, over the members of cluster j. */
  ghost function ClusterTotal(x: Points, a: seq<int>, c: Centroids, dim: nat, j: nat, d: nat, n: nat): real
    requires Dims(x, c, dim) && |a| == |x| && j < |c| && d <= dim && n <= |x|
  {
    if n == 0 then 0.0 else
    ClusterTotal(x, a, c, dim, j, d, n - 1) + if a[n - 1] == j then DistTo(x[n - 1], c[j], d) else 0.0
  }

  function Times(a: real, b: real): real { a * b }

  lemma SquareOfDifference(x: real, v: real, m: real)
    ensures Square(x - v) == Square(x - m) + Square(m - v) + Times(2.0 * (m - v), x - m)
  {}

  lemma TimesAdds(f: real, a: real, b: real)
    ensures Times(f, a) + Times(f, b) == Times(f, a + b) && Times(a, f) + Times(b, f) == Times(a + b, f)
            && Times(f, 0.0) == Times(0.0, f) == 0.0
  {}

  /** Moving the reference value from m to v adds the same square for every member, and the sum of the
      members' differences from m, weighted. */
  lemma {:induction false} SpreadMoved(x: Points, a: seq<int>, j: int, d: nat, v: real, m: real, n: nat)
    requires n <= |x| == |a| && forall i :: 0 <= i < |x| ==> d < |x[i]|
    ensures Spread(x, a, j, d, v, n)
         == Spread(x, a, j, d, m, n) + Times(Members(a, j, n) as real, Square(m - v))
            + Times(2.0 * (m - v), SumOf(x, a, j, d, n) - Times(Members(a, j, n) as real, m))
  {
    hide Times, Square;
    TimesAdds(2.0 * (m - v), 0.0, 0.0);
    TimesAdds(Square(m - v), 0.0, 0.0);
    TimesAdds(m, 0.0, 0.0);
    if n > 0 {
      SpreadMoved(x, a, j, d, v, m, n - 1);
      if a[n - 1] == j {
        var y, k, f := x[n - 1][d], Members(a, j, n - 1) as real, 2.0 * (m - v);
        SquareOfDifference(y, v, m);
        OneTimes(m);
        OneTimes(Square(m - v));
        TimesAdds(Square(m - v), k, 1.0);
        TimesAdds(m, k, 1.0);
        TimesAdds(f, SumOf(x, a, j, d, n - 1) - Times(k, m), y - m);
      }
    }
  }

  lemma OneTimes(x: real)
    ensures Times(1.0, x) == x
  {}

  lemma MeanOf(sum: real, n: nat)
    requires n > 0
    ensures Times(n as real, Over(sum, n)) == sum
  {}

  lemma TimesNonNegative(a: real, b: real)
    requires a >= 0.0 && b >= 0.0
    ensures Times(a, b) >= 0.0
  {}

  /** No value is closer to the members than their mean. */
  lemma MeanIsBest(x: Points, a: seq<int>, j: int, d: nat, v: real)
    requires |a| == |x| && (forall i :: 0 <= i < |x| ==> d < |x[i]|) && Members(a, j, |x|) > 0
    ensures Spread(x, a, j, d, Over(SumOf(x, a, j, d, |x|), Members(a, j, |x|)), |x|) <= Spread(x, a, j, d, v, |x|)
  {
    hide Times, Square, Over;
    var n := Members(a, j, |x|);
    var m := Over(SumOf(x, a, j, d, |x|), n);
    SpreadMoved(x, a, j, d, v, m, |x|);
    MeanOf(SumOf(x, a, j, d, |x|), n);
    TimesAdds(2.0 * (m - v), 0.0, 0.0);
    TimesNonNegative(n as real, Square(m - v));
  }

  lemma {:induction false} ClusterTotalStep(x: Points, a: seq<int>, c: Centroids, dim: nat, j: nat, d: nat, n: nat)
    requires Dims(x, c, dim) && |a| == |x| && j < |c| && 0 < d <= dim && n <= |x|
    ensures ClusterTotal(x, a, c, dim, j, d, n)
            == ClusterTotal(x, a, c, dim, j, d - 1, n) + Spread(x, a, j, d - 1, V(c[j][d - 1]), n)
  {
    hide Square;
    if n > 0 {
      ClusterTotalStep(x, a, c, dim, j, d, n - 1);
    }
  }

  lemma {:induction false} ClusterTotalNone(x: Points, a: seq<int>, c: Centroids, dim: nat, j: nat, n: nat)
    requires Dims(x, c, dim) && |a| == |x| && j < |c| && n <= |x|
    ensures ClusterTotal(x, a, c, dim, j, 0, n) == 0.0
  {
    if n > 0 {
      ClusterTotalNone(x, a, c, dim, j, n - 1);
    }
  }

  lemma {:induction false} ClusterTotalEmpty(x: Points, a: seq<int>, c: Centroids, dim: nat, j: nat, d: nat, n: nat)
    requires Dims(x, c, dim) && |a| == |x| && j < |c| && d <= dim && n <= |x| && Members(a, j, n) == 0
    ensures ClusterTotal(x, a, c, dim, j, d, n) == 0.0
  {
    if n > 0 {
      ClusterTotalEmpty(x, a, c, dim, j, d, n - 1);
    }
  }

  /** Within a cluster no centroid is better than the mean. */
  lemma {:induction false} ClusterMeanIsBest(x: Points, a: seq<int>, m: Centroids, c: Centroids, dim: nat, j: nat,
                                             d: nat)
    requires Means(x, a, m, dim) && Dims(x, c, dim) && |c| == |m| && j < |m| && d <= dim && Members(a, j, |x|) > 0
    ensures ClusterTotal(x, a, m, dim, j, d, |x|) <= ClusterTotal(x, a, c, dim, j, d, |x|)
  {
    hide Over, Spread;
    if d == 0 {
      ClusterTotalNone(x, a, m, dim, j, |x|);
      ClusterTotalNone(x, a, c, dim, j, |x|);
    } else {
      ClusterMeanIsBest(x, a, m, c, dim, j, d - 1);
      ClusterTotalStep(x, a, m, dim, j, d, |x|);
      ClusterTotalStep(x, a, c, dim, j, d, |x|);
      MeanIsBest(x, a, j, d - 1, V(c[j][d - 1]));
    }
  }

  /** The totals of the first k clusters. */
  ghost function ClusterTotals(x: Points, a: seq<int>, c: Centroids, dim: nat, k: nat, n: nat): real
    requires Dims(x, c, dim) && |a| == |x| && k <= |c| && n <= |x|
  {
    if k == 0 then 0.0 else ClusterTotals(x, a, c, dim, k - 1, n) + ClusterTotal(x, a, c, dim, k - 1, dim, n)
  }

  lemma {:induction false} ClusterTotalsStep(x: Points, a: seq<int>, c: Centroids, dim: nat, k: nat, n: nat)
    requires Dims(x, c, dim) && InClusters(a, |x|, |c|) && k <= |c| && 0 < n <= |x|
    ensures ClusterTotals(x, a, c, dim, k, n)
         == ClusterTotals(x, a, c, dim, k, n - 1) + if a[n - 1] < k then Dist(x[n - 1], c[a[n - 1]]) else 0.0
  {
    hide DistTo;
    if k > 0 {
      ClusterTotalsStep(x, a, c, dim, k - 1, n);
    }
  }

  lemma {:induction false} ClusterTotalsNone(x: Points, a: seq<int>, c: Centroids, dim: nat, k: nat)
    requires Dims(x, c, dim) && |a| == |x| && k <= |c|
    ensures ClusterTotals(x, a, c, dim, k, 0) == 0.0
  {
    if k > 0 {
      ClusterTotalsNone(x, a, c, dim, k - 1);
    }
  }

  /** The total is the sum over the clusters. */
  lemma {:induction false} TotalByCluster(x: Points, a: seq<int>, c: Centroids, dim: nat, n: nat)
    requires Dims(x, c, dim) && InClusters(a, |x|, |c|) && n <= |x|
    ensures Total(x, a, c, dim, n) == ClusterTotals(x, a, c, dim, |c|, n)
  {
    if n == 0 {
      ClusterTotalsNone(x, a, c, dim, |c|);
    } else {
      TotalByCluster(x, a, c, dim, n - 1);
      ClusterTotalsStep(x, a, c, dim, |c|, n);
    }
  }

  lemma {:induction false} MeansAreBestTo(x: Points, a: seq<int>, m: Centroids, c: Centroids, dim: nat, k: nat)
    requires Means(x, a, m, dim) && Dims(x, c, dim) && |c| == |m| && k <= |m|
    ensures ClusterTotals(x, a, m, dim, k, |x|) <= ClusterTotals(x, a, c, dim, k, |x|)
  {
    MeansDims(x, a, m, dim);
    hide Means, ClusterTotal;
    if k > 0 {
      MeansAreBestTo(x, a, m, c, dim, k - 1);
      if Members(a, k - 1, |x|) > 0 {
        ClusterMeanIsBest(x, a, m, c, dim, k - 1, dim);
      } else {
        ClusterTotalEmpty(x, a, m, dim, k - 1, dim, |x|);
        ClusterTotalEmpty(x, a, c, dim, k - 1, dim, |x|);
      }
    }
  }

  /** For given clusters no centroids have a lower total than their means. */
  lemma MeansAreBest(x: Points, a: seq<int>, m: Centroids, c: Centroids, dim: nat)
    requires Means(x, a, m, dim) && Dims(x, c, dim) && |c| == |m|
    ensures InClusters(a, |x|, |m|) && Total(x, a, m, dim, |x|) <= Total(x, a, c, dim, |x|)
  {
    MeansAreBestTo(x, a, m, c, dim, |m|);
    TotalByCluster(x, a, m, dim, |x|);
    TotalByCluster(x, a, c, dim, |x|);
  }

  // ---- Nearest centroids ------------------------------------------------------------------------

  /** Cluster j has the nearest proper centroid, the first one of equals. */
  ghost predicate Nearest(p: seq<real>, c: Centroids, j: int)
    requires forall l :: 0 <= l < |c| ==> |c[l]| == |p|
  {
    && 0 <= j < |c| && Finite(c[j])
    && (forall l :: 0 <= l < |c| && Finite(c[l]) ==> Dist(p, c[j]) <= Dist(p, c[l]))
    && (forall l :: 0 <= l < j && Finite(c[l]) ==> Dist(p, c[j]) < Dist(p, c[l]))
  }

  ghost predicate AllNearest(x: Points, a: seq<int>, c: Centroids, dim: nat) {
    Dims(x, c, dim) && |a| == |x| && forall i :: 0 <= i < |x| ==> Nearest(x[i], c, a[i])
  }

  /** For given centroids no clusters have a lower total than those of the nearest centroids. */
  lemma {:induction false} NearestAreBest(x: Points, a: seq<int>, b: seq<int>, c: Centroids, dim: nat, n: nat)
    requires AllNearest(x, a, c, dim) && Placed(x, b, c) && n <= |x|
    ensures InClusters(a, |x|, |c|) && Total(x, a, c, dim, n) <= Total(x, b, c, dim, n)
  {
    hide DistTo, Finite;
    if n > 0 {
      NearestAreBest(x, a, b, c, dim, n - 1);
      assert Nearest(x[n - 1], c, a[n - 1]);
    }
  }

  lemma NearestIsPlaced(x: Points, a: seq<int>, c: Centroids, dim: nat)
    requires AllNearest(x, a, c, dim)
    ensures Placed(x, a, c)
  {}

  /** A cluster with a member has a proper mean. */
  lemma MeansArePlaced(x: Points, a: seq<int>, c: Centroids, dim: nat)
    requires Means(x, a, c, dim)
    ensures Placed(x, a, c)
  {
    forall i | 0 <= i < |x|
      ensures Finite(c[a[i]])
    {
      SomeMember(a, i, |x|);
    }
  }

  lemma {:induction false} SomeMember(a: seq<int>, i: nat, n: nat)
    requires i < n <= |a|
    ensures Members(a, a[i], n) > 0
  {
    if i < n - 1 {
      SomeMember(a, i, n - 1);
    }
  }

  /** One batch step, from clusters a with means m over nearest clusters b to their means m', does not
      raise the total. */
  lemma BatchDescends(x: Points, a: seq<int>, m: Centroids, b: seq<int>, m': Centroids, dim: nat)
    requires Means(x, a, m, dim) && AllNearest(x, b, m, dim) && Means(x, b, m', dim) && |m| == |m'|
    ensures InClusters(a, |x|, |m|) && InClusters(b, |x|, |m|)
    ensures Total(x, b, m', dim, |x|) <= Total(x, b, m, dim, |x|) <= Total(x, a, m, dim, |x|)
  {
    hide Means, AllNearest, Placed, Nearest;
    MeansArePlaced(x, a, m, dim);
    assert InClusters(a, |x|, |m|) by { PlacedIn(x, a, m); }
    NearestAreBest(x, b, a, m, dim, |x|);
    MeansDims(x, a, m, dim);
    MeansAreBest(x, b, m', m, dim);
  }

  lemma PlacedIn(x: Points, a: seq<int>, c: Centroids)
    requires Placed(x, a, c)
    ensures InClusters(a, |x|, |c|)
  {}

  lemma MeansDims(x: Points, a: seq<int>, c: Centroids, dim: nat)
    requires Means(x, a, c, dim)
    ensures Dims(x, c, dim) && InClusters(a, |x|, |c|)
  {}

  /** Clusters that are both settled stay: their means are the centroids they have, and the nearest
      centroids are those they have. */
  lemma SettledStays(x: Points, a: seq<int>, c: Centroids, dim: nat, c': Centroids, a': seq<int>)
    requires Means(x, a, c, dim) && AllNearest(x, a, c, dim)
    requires Means(x, a, c', dim) && |c'| == |c| && AllNearest(x, a', c, dim)
    ensures c' == c && a' == a
  {
    hide DistTo, Over, SumOf, Members;
    forall j | 0 <= j < |c|
      ensures c'[j] == c[j]
    {
      forall d | 0 <= d < dim
        ensures c'[j][d] == c[j][d]
      {}
    }
    forall i | 0 <= i < |x|
      ensures a'[i] == a[i]
    {
      assert Nearest(x[i], c, a[i]) && Nearest(x[i], c, a'[i]);
    }
  }

  /** A cluster that became empty stays empty: its centroid is not a number, and nothing is nearest
      to that. */
  lemma EmptyStaysEmpty(x: Points, a: seq<int>, m: Centroids, b: seq<int>, dim: nat, j: nat)
    requires Means(x, a, m, dim) && AllNearest(x, b, m, dim) && dim > 0 && j < |m| && Members(a, j, |x|) == 0
    ensures Members(b, j, |x|) == 0
  {
    hide DistTo;
    assert m[j][0].NaN?;
    forall i | 0 <= i < |x|
      ensures b[i] != j
    {
      assert Nearest(x[i], m, b[i]);
    }
    NoMembers(b, j, |x|);
  }

  lemma {:induction false} NoMembers(a: seq<int>, j: int, n: nat)
    requires n <= |a| && forall i :: 0 <= i < n ==> a[i] != j
    ensures Members(a, j, n) == 0
  {
    if n > 0 {
      NoMembers(a, j, n - 1);
    }
  }

  // ---- The program ------------------------------------------------------------------------------

  /** A value to compare with that starts as infinity. */
  datatype Level = Big | At(v: real)

  predicate Below(c: Coord, b: Level) { c.Val? && (b.Big? || c.v < b.v) }

  predicate Above(c: Coord, b: Level) { c.Val? && b.At? && c.v > b.v }

  /** What the computed distance comes out as. */
  ghost function Distance(p: seq<real>, c: seq<Coord>): Coord
    requires |p| == |c|
  {
    if Finite(c) then Val(Dist(p, c)) else NaN
  }

  ghost function Rows(c: array2<Coord>): (r: Centroids)
    reads c
    ensures |r| == c.Length0 && forall j :: 0 <= j < |r| ==> |r[j]| == c.Length1
    ensures forall j, d :: 0 <= j < |r| && 0 <= d < c.Length1 ==> r[j][d] == c[j, d]
  {
    seq(c.Length0, j requires 0 <= j < c.Length0 reads c => seq(c.Length1,
      d requires 0 <= d < c.Length1 reads c => c[j, d]))
  }

  method CalcDistance(p: seq<real>, centroid: array2<Coord>, j: nat) returns (r: Coord)
    requires j < centroid.Length0 && centroid.Length1 == |p|
    ensures r == Distance(p, Rows(centroid)[j])
  {
    ghost var c := Rows(centroid)[j];
    r := Val(0.0);
    var d := 0;
    while d < |p|
      invariant 0 <= d <= |p|
      invariant r == if forall e :: 0 <= e < d ==> c[e].Val? then Val(DistTo(p, c, d)) else NaN
    {
      assert c[d] == centroid[j, d];
      r := if r.NaN? || centroid[j, d].NaN? then NaN else Val(r.v + Square(p[d] - centroid[j, d].v));
      d := d + 1;
    }
  }

  method CalcAllDistances(x: Points, centroid: array2<Coord>, dist: array2<Coord>)
    requires Dims(x, Rows(centroid), centroid.Length1) && dist.Length0 == |x| && dist.Length1 == centroid.Length0
             && dist != centroid
    modifies dist
    ensures forall i, j :: 0 <= i < |x| && 0 <= j < centroid.Length0 ==> dist[i, j] == Distance(x[i], Rows(centroid)[j])
  {
    hide Distance;
    var i := 0;
    while i < |x|
      invariant 0 <= i <= |x|
      invariant forall h, j :: 0 <= h < i && 0 <= j < centroid.Length0 ==>
                  dist[h, j] == Distance(x[h], Rows(centroid)[j])
    {
      var j := 0;
      while j < centroid.Length0
        invariant 0 <= j <= centroid.Length0
        invariant forall h, l :: 0 <= h < i && 0 <= l < centroid.Length0 ==>
                    dist[h, l] == Distance(x[h], Rows(centroid)[l])
        invariant forall l :: 0 <= l < j ==> dist[i, l] == Distance(x[i], Rows(centroid)[l])
      {
        var cur := CalcDistance(x[i], centroid, j);
        dist[i, j] := cur;
        j := j + 1;
      }
      i := i + 1;
    }
  }

  /** The first of the smallest numbers in a row, -1 when it has none. */
  method ChooseCluster(dist: array2<Coord>, i: nat) returns (best: int)
    requires i < dist.Length0
    ensures -1 <= best < dist.Length1
    ensures best == -1 ==> forall l :: 0 <= l < dist.Length1 ==> dist[i, l].NaN?
    ensures best >= 0 ==> dist[i, best].Val?
    ensures best >= 0 ==> forall l :: 0 <= l < dist.Length1 && dist[i, l].Val? ==> dist[i, best].v <= dist[i, l].v
    ensures best >= 0 ==> forall l :: 0 <= l < best && dist[i, l].Val? ==> dist[i, best].v < dist[i, l].v
  {
    best := -1;
    var closest := Big;
    var j := 0;
    while j < dist.Length1
      invariant 0 <= j <= dist.Length1 && -1 <= best < j
      invariant best == -1 ==> closest == Big && forall l :: 0 <= l < j ==> dist[i, l].NaN?
      invariant best >= 0 ==> dist[i, best].Val? && closest == At(dist[i, best].v)
      invariant best >= 0 ==> forall l :: 0 <= l < j && dist[i, l].Val? ==> dist[i, best].v <= dist[i, l].v
      invariant best >= 0 ==> forall l :: 0 <= l < best && dist[i, l].Val? ==> dist[i, best].v < dist[i, l].v
    {
      var cur := dist[i, j];
      if Below(cur, closest) {
        best := j;
        closest := At(cur.v);
      }
      j := j + 1;
    }
  }

  method ChooseAllClusters(dist: array2<Coord>, assignment: array<int>, ghost x: Points, ghost c: Centroids,
                           ghost dim: nat)
    requires dist.Length0 == |x| == assignment.Length && dist.Length1 == |c| && Dims(x, c, dim)
    requires forall i, j :: 0 <= i < |x| && 0 <= j < |c| ==> dist[i, j] == Distance(x[i], c[j])
    requires |x| > 0 ==> exists j :: 0 <= j < |c| && Finite(c[j])
    modifies assignment
    ensures AllNearest(x, assignment[..], c, dim)
  {
    hide Dist, Finite;
    var i := 0;
    while i < dist.Length0
      invariant 0 <= i <= |x| && forall h :: 0 <= h < i ==> Nearest(x[h], c, assignment[h])
    {
      var best := ChooseCluster(dist, i);
      assert forall l :: 0 <= l < |c| ==> dist[i, l] == Distance(x[i], c[l]);
      assignment[i] := best;
      i := i + 1;
    }
  }

  /** A sum is no number when a term is none. */
  function Sum(a: Coord, b: Coord): Coord { if a.NaN? || b.NaN? then NaN else Val(a.v + b.v) }

  /** Every point is in a cluster or in none, which is -1. */
  ghost predicate InSomeOrNone(a: seq<int>, n: nat, k: nat) { |a| == n && forall i :: 0 <= i < n ==> -1 <= a[i] < k }

  /** The sum of the distances of the first n points, without those in no cluster. */
  ghost function Together(x: Points, a: seq<int>, c: Centroids, dim: nat, n: nat): Coord
    requires Dims(x, c, dim) && InSomeOrNone(a, |x|, |c|) && n <= |x|
  {
    if n == 0 then Val(0.0)
    else if a[n - 1] == -1 then Together(x, a, c, dim, n - 1)
    else Sum(Together(x, a, c, dim, n - 1), Distance(x[n - 1], c[a[n - 1]]))
  }

  /** Where every point is at a proper centroid, that is the total. */
  lemma {:induction false} TogetherIsTotal(x: Points, a: seq<int>, c: Centroids, dim: nat, n: nat)
    requires Dims(x, c, dim) && Placed(x, a, c) && n <= |x|
    ensures InSomeOrNone(a, |x|, |c|) && Together(x, a, c, dim, n) == Val(Total(x, a, c, dim, n))
  {
    hide Finite;
    if n > 0 {
      TogetherIsTotal(x, a, c, dim, n - 1);
      assert Finite(c[a[n - 1]]);
    }
  }

  method CalcTotalDistance(x: Points, centroid: array2<Coord>, assignment: array<int>) returns (total: Coord)
    requires Dims(x, Rows(centroid), centroid.Length1) && InSomeOrNone(assignment[..], |x|, centroid.Length0)
    ensures total == Together(x, assignment[..], Rows(centroid), centroid.Length1, |x|)
  {
    hide Finite;
    total := Val(0.0);
    ghost var a := assignment[..];
    var i := 0;
    while i < |x|
      invariant 0 <= i <= |x| && total == Together(x, a, Rows(centroid), centroid.Length1, i)
    {
      var active := assignment[i];
      assert a[i] == active;
      if active != -1 {
        var d := CalcDistance(x[i], centroid, active);
        total := Sum(total, d);
      }
      i := i + 1;
    }
  }

  /** Sums up the points of each cluster and divides by their number. */
  method CalcClusterCentroids(x: Points, assignment: array<int>, centroid: array2<Coord>)
    requires Dims(x, Rows(centroid), centroid.Length1) && InClusters(assignment[..], |x|, centroid.Length0)
    requires centroid.Length0 <= MAX_CLUSTERS
    modifies centroid
    ensures Means(x, assignment[..], Rows(centroid), centroid.Length1)
  {
    hide Over;
    var k, dim := centroid.Length0, centroid.Length1;
    ghost var a := assignment[..];
    var count := new int[MAX_CLUSTERS];
    var j := 0;
    while j < k
      invariant 0 <= j <= k && forall l :: 0 <= l < j ==> count[l] == 0
      invariant forall l, e :: 0 <= l < j && 0 <= e < dim ==> centroid[l, e] == Val(0.0)
    {
      count[j] := 0;
      ClearRow(centroid, j);
      j := j + 1;
    }
    var i := 0;
    while i < |x|
      invariant 0 <= i <= |x| && forall l :: 0 <= l < k ==> count[l] == Members(a, l, i)
      invariant forall l, e :: 0 <= l < k && 0 <= e < dim ==> centroid[l, e] == Val(SumOf(x, a, l, e, i))
    {
      var active := assignment[i];
      assert active == a[i];
      count[active] := count[active] + 1;
      AddPoint(x[i], centroid, active);
      i := i + 1;
    }
    j := 0;
    while j < k
      invariant 0 <= j <= k && forall l :: 0 <= l < k ==> count[l] == Members(a, l, |x|)
      invariant forall l, e :: 0 <= l < j && 0 <= e < dim ==> centroid[l, e] == MeanCoord(x, a, l, e)
      invariant forall l, e :: j <= l < k && 0 <= e < dim ==> centroid[l, e] == Val(SumOf(x, a, l, e, |x|))
    {
      NothingToSum(x, a, j, dim);
      DivideRow(centroid, j, count[j]);
      j := j + 1;
    }
  }

  ghost function MeanCoord(x: Points, a: seq<int>, j: int, d: nat): Coord
    requires |a| == |x| && forall i :: 0 <= i < |x| ==> d < |x[i]|
  {
    if Members(a, j, |x|) == 0 then NaN else Val(Over(SumOf(x, a, j, d, |x|), Members(a, j, |x|)))
  }

  lemma NothingToSum(x: Points, a: seq<int>, j: int, dim: nat)
    requires |a| == |x| && forall i :: 0 <= i < |x| ==> |x[i]| == dim
    ensures Members(a, j, |x|) == 0 ==> forall d :: 0 <= d < dim ==> SumOf(x, a, j, d, |x|) == 0.0
  {
    if Members(a, j, |x|) == 0 {
      forall d | 0 <= d < dim
        ensures SumOf(x, a, j, d, |x|) == 0.0
      {
        EmptySum(x, a, j, d, |x|);
      }
    }
  }

  lemma {:induction false} EmptySum(x: Points, a: seq<int>, j: int, d: nat, n: nat)
    requires n <= |x| == |a| && (forall i :: 0 <= i < |x| ==> d < |x[i]|) && Members(a, j, n) == 0
    ensures SumOf(x, a, j, d, n) == 0.0
  {
    if n > 0 {
      EmptySum(x, a, j, d, n - 1);
    }
  }

  method ClearRow(centroid: array2<Coord>, j: nat)
    requires j < centroid.Length0
    modifies centroid
    ensures forall l, e :: 0 <= l < centroid.Length0 && 0 <= e < centroid.Length1 ==>
              centroid[l, e] == if l == j then Val(0.0) else old(centroid[l, e])
  {
    var d := 0;
    while d < centroid.Length1
      invariant 0 <= d <= centroid.Length1
      invariant forall l, e :: 0 <= l < centroid.Length0 && 0 <= e < centroid.Length1 ==>
                  centroid[l, e] == if l == j && e < d then Val(0.0) else old(centroid[l, e])
    {
      centroid[j, d] := Val(0.0);
      d := d + 1;
    }
  }

  method AddPoint(p: seq<real>, centroid: array2<Coord>, j: nat)
    requires j < centroid.Length0 && |p| == centroid.Length1
    modifies centroid
    ensures forall l, e :: 0 <= l < centroid.Length0 && 0 <= e < centroid.Length1 ==>
              centroid[l, e] == if l == j then Plus(old(centroid[l, e]), p[e]) else old(centroid[l, e])
  {
    var d := 0;
    while d < centroid.Length1
      invariant 0 <= d <= centroid.Length1
      invariant forall l, e :: 0 <= l < centroid.Length0 && 0 <= e < centroid.Length1 ==>
                  centroid[l, e] == if l == j && e < d then Plus(old(centroid[l, e]), p[e]) else old(centroid[l, e])
    {
      centroid[j, d] := Plus(centroid[j, d], p[d]);
      d := d + 1;
    }
  }

  /** Divides a row of numbers; of an empty cluster they are all zero, and 0 / 0 is not a number. */
  method DivideRow(centroid: array2<Coord>, j: nat, n: nat)
    requires j < centroid.Length0 && forall e :: 0 <= e < centroid.Length1 ==> centroid[j, e].Val?
    requires n == 0 ==> forall e :: 0 <= e < centroid.Length1 ==> centroid[j, e].v == 0.0
    modifies centroid
    ensures forall l, e :: 0 <= l < centroid.Length0 && 0 <= e < centroid.Length1 ==>
              centroid[l, e] == if l == j then (if n == 0 then NaN else Val(Over(old(centroid[l, e]).v, n)))
                else old(centroid[l, e])
  {
    hide Over;
    var d := 0;
    while d < centroid.Length1
      invariant 0 <= d <= centroid.Length1
      invariant forall l, e :: 0 <= l < centroid.Length0 && 0 <= e < centroid.Length1 ==>
                  centroid[l, e] == if l == j && e < d
                    then (if n == 0 then NaN else Val(Over(old(centroid[l, e]).v, n))) else old(centroid[l, e])
    {
      centroid[j, d] := if n == 0 then NaN else Val(Over(centroid[j, d].v, n));
      d := d + 1;
    }
  }

  method CopyAssignment(src: array<int>, tgt: array<int>)
    requires src.Length == tgt.Length && src != tgt
    modifies tgt
    ensures tgt[..] == src[..]
  {
    var i := 0;
    while i < src.Length
      invariant 0 <= i <= src.Length && tgt[..i] == src[..i]
    {
      tgt[i] := src[i];
      i := i + 1;
    }
  }

  method AssignmentChangeCount(a: array<int>, b: array<int>) returns (n: nat)
    requires a.Length == b.Length
    ensures n == 0 <==> a[..] == b[..]
  {
    n := 0;
    var i := 0;
    while i < a.Length
      invariant 0 <= i <= a.Length && (n == 0 <==> a[..i] == b[..i])
    {
      if a[i] != b[i] {
        n := n + 1;
      }
      i := i + 1;
    }
  }

  ghost predicate NonIncreasing(s: seq<real>) { forall i, j :: 0 <= i < |s| && j == i + 1 && j < |s| ==> s[j] <= s[i] }

  /** Batch updates until nothing changes, or for MAX_ITERATIONS rounds. The total never goes up, so the
      branch for a worse solution is dead. In the end every point is with its nearest centroid; when
      nothing changed, every centroid is the mean of its points as well. */
  method KMeans(x: Points, centroid: array2<Coord>, final: array<int>)
    returns (converged: bool, ghost prev: seq<int>, ghost totals: seq<real>)
    requires Dims(x, Rows(centroid), centroid.Length1) && centroid.Length0 <= MAX_CLUSTERS && final.Length == |x|
    requires |x| > 0 ==> exists j :: 0 <= j < centroid.Length0 && Finite(Rows(centroid)[j])
    modifies centroid, final
    ensures Means(x, prev, Rows(centroid), centroid.Length1)
            && AllNearest(x, final[..], Rows(centroid), centroid.Length1)
    ensures converged ==> final[..] == prev
    ensures !converged ==> |totals| == MAX_ITERATIONS
    ensures NonIncreasing(totals) && 0 < |totals| <= MAX_ITERATIONS
    ensures totals[|totals| - 1] == Total(x, prev, Rows(centroid), centroid.Length1, |x|)
  {
    hide Means, AllNearest, Placed, Finite, Nearest, Total;
    var n, k := |x|, centroid.Length0;
    ghost var dim := centroid.Length1;
    var dist := new Coord[n, k];
    var cur, before := new int[n], new int[n];
    MoveToNearest(x, centroid, dist, cur);
    CopyAssignment(cur, before);
    var prevTotal := Big;
    var iteration := 0;
    converged, totals, prev := false, [], cur[..];
    while iteration < MAX_ITERATIONS
      invariant 0 <= iteration <= MAX_ITERATIONS && |totals| == iteration
      invariant Dims(x, Rows(centroid), dim) && InClusters(cur[..], n, k)
      invariant NonIncreasing(totals) && before[..] == prev
      invariant if iteration == 0 then prevTotal == Big else prevTotal == At(totals[iteration - 1])
      invariant iteration > 0 ==> Means(x, prev, Rows(centroid), dim) && AllNearest(x, cur[..], Rows(centroid), dim)
      invariant iteration > 0 ==>
                  InClusters(prev, n, k) && totals[iteration - 1] == Total(x, prev, Rows(centroid), dim, n)
      invariant fresh(cur) && fresh(before) && fresh(dist)
    {
      ghost var was := Rows(centroid);
      var total := MoveCentroids(x, cur, centroid);
      if iteration > 0 {
        BatchDescends(x, prev, was, cur[..], Rows(centroid), dim);
      }
      if Above(total, prevTotal) {
        // The solution would be worse: the assignment before would be put back.
        assert false;
      }
      CopyAssignment(cur, before);
      totals := totals + [total.v];
      prev := cur[..];
      SomeProper(x, prev, Rows(centroid));
      MoveToNearest(x, centroid, dist, cur);
      var changes := AssignmentChangeCount(cur, before);
      if changes == 0 {
        converged := true;
        break;
      }
      prevTotal := At(total.v);
      iteration := iteration + 1;
    }
    CopyAssignment(cur, final);
  }

  /** Moves all points to the nearest cluster. */
  method MoveToNearest(x: Points, centroid: array2<Coord>, dist: array2<Coord>, cur: array<int>)
    requires Dims(x, Rows(centroid), centroid.Length1) && cur.Length == dist.Length0 == |x|
    requires dist.Length1 == centroid.Length0 && dist != centroid
    requires |x| > 0 ==> exists j :: 0 <= j < centroid.Length0 && Finite(Rows(centroid)[j])
    modifies dist, cur
    ensures AllNearest(x, cur[..], Rows(centroid), centroid.Length1) && InClusters(cur[..], |x|, centroid.Length0)
  {
    hide Finite, AllNearest, Placed, Distance;
    CalcAllDistances(x, centroid, dist);
    ChooseAllClusters(dist, cur, x, Rows(centroid), centroid.Length1);
    NearestIsPlaced(x, cur[..], Rows(centroid), centroid.Length1);
    PlacedIn(x, cur[..], Rows(centroid));
  }

  /** Moves the centroids to the means of their clusters, and adds up the distances to them. */
  method MoveCentroids(x: Points, cur: array<int>, centroid: array2<Coord>) returns (total: Coord)
    requires Dims(x, Rows(centroid), centroid.Length1) && InClusters(cur[..], |x|, centroid.Length0)
    requires centroid.Length0 <= MAX_CLUSTERS
    modifies centroid
    ensures Means(x, cur[..], Rows(centroid), centroid.Length1) && Placed(x, cur[..], Rows(centroid))
    ensures total == Val(Total(x, cur[..], Rows(centroid), centroid.Length1, |x|))
  {
    hide Means, Placed, Total;
    CalcClusterCentroids(x, cur, centroid);
    MeansArePlaced(x, cur[..], Rows(centroid), centroid.Length1);
    MeansDims(x, cur[..], Rows(centroid), centroid.Length1);
    TogetherIsTotal(x, cur[..], Rows(centroid), centroid.Length1, |x|);
    total := CalcTotalDistance(x, centroid, cur);
  }

  lemma SomeProper(x: Points, a: seq<int>, c: Centroids)
    requires Placed(x, a, c)
    ensures |x| > 0 ==> exists j :: 0 <= j < |c| && Finite(c[j])
  {
    if |x| > 0 {
      assert Finite(c[a[0]]);
    }
  }
}
