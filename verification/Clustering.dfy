/** Average-linkage clustering: `OfflineDiarizer._ahc`. */
module Clustering {
  import opened Common

  // The specification merges the first closest pair of clusters, where the distance of two
  // clusters is recomputed from scratch as the mean of all pairwise distances of their members.
  // The method keeps a matrix up to date in place with the Lance-Williams formula instead, and
  // is proved to return the labels of the specification's clusters.

  type Vec = seq<real>
  type Matrix = seq<seq<real>>
  type Cluster = seq<nat>

  function Dot(a: Vec, b: Vec): real {
    if a == [] || b == [] then 0.0 else a[0] * b[0] + Dot(a[1..], b[1..])
  }

  lemma {:induction false} DotSymmetric(a: Vec, b: Vec)
    ensures Dot(a, b) == Dot(b, a)
    decreases |a|
  {
    if a != [] && b != [] {
      DotSymmetric(a[1..], b[1..]);
    }
  }

  /** `1 - cosine` of unit vectors. */
  function Distances(embs: seq<Vec>): Matrix {
    seq(|embs|, i requires 0 <= i < |embs| => seq(|embs|, j requires 0 <= j < |embs| => 1.0 - Dot(embs[i], embs[j])))
  }

  predicate Square(d: Matrix) { forall i :: 0 <= i < |d| ==> |d[i]| == |d| }

  predicate Symmetric(d: Matrix)
    requires Square(d)
  {
    forall i, j :: 0 <= i < |d| && 0 <= j < |d| ==> d[i][j] == d[j][i]
  }

  lemma DistancesSymmetric(embs: seq<Vec>)
    ensures Square(Distances(embs)) && Symmetric(Distances(embs))
  {
    forall i, j | 0 <= i < |embs| && 0 <= j < |embs| ensures Distances(embs)[i][j] == Distances(embs)[j][i] {
      DotSymmetric(embs[i], embs[j]);
    }
  }

  // ------------------------------------------------------------------
  // Mean distance of two clusters
  // ------------------------------------------------------------------

  predicate Within(c: Cluster, n: nat) { forall k :: 0 <= k < |c| ==> c[k] < n }

  function RowSum(d: Matrix, i: nat, b: Cluster): real
    requires Square(d) && i < |d| && Within(b, |d|)
  {
    if b == [] then 0.0 else d[i][b[0]] + RowSum(d, i, b[1..])
  }

  function CrossSum(d: Matrix, a: Cluster, b: Cluster): real
    requires Square(d) && Within(a, |d|) && Within(b, |d|)
  {
    if a == [] then 0.0 else RowSum(d, a[0], b) + CrossSum(d, a[1..], b)
  }

  function Ratio(s: real, x: nat, y: nat): real
    requires x > 0 && y > 0
  {
    s / (x as real * y as real)
  }

  /** The mean of all pairwise distances between members of a and members of b. */
  function Mean(d: Matrix, a: Cluster, b: Cluster): real
    requires Square(d) && Within(a, |d|) && Within(b, |d|) && a != [] && b != []
  {
    Ratio(CrossSum(d, a, b), |a|, |b|)
  }

  lemma {:induction false} CrossSumAppend(d: Matrix, a1: Cluster, a2: Cluster, b: Cluster)
    requires Square(d) && Within(a1, |d|) && Within(a2, |d|) && Within(b, |d|)
    ensures CrossSum(d, a1 + a2, b) == CrossSum(d, a1, b) + CrossSum(d, a2, b)
  {
    if a1 == [] {
      assert a1 + a2 == a2;
    } else {
      assert (a1 + a2)[1..] == a1[1..] + a2;
      CrossSumAppend(d, a1[1..], a2, b);
    }
  }

  lemma {:induction false} CrossSumColumn(d: Matrix, a: Cluster, b: Cluster)
    requires Square(d) && Symmetric(d) && Within(a, |d|) && Within(b, |d|) && b != []
    ensures CrossSum(d, a, b) == RowSum(d, b[0], a) + CrossSum(d, a, b[1..])
  {
    if a != [] {
      CrossSumColumn(d, a[1..], b);
    }
  }

  lemma {:induction false} CrossSumEmpty(d: Matrix, a: Cluster)
    requires Square(d) && Within(a, |d|)
    ensures CrossSum(d, a, []) == 0.0
  {
    if a != [] {
      CrossSumEmpty(d, a[1..]);
    }
  }

  lemma {:induction false} CrossSumSymmetric(d: Matrix, a: Cluster, b: Cluster)
    requires Square(d) && Symmetric(d) && Within(a, |d|) && Within(b, |d|)
    ensures CrossSum(d, a, b) == CrossSum(d, b, a)
    decreases |b|
  {
    if b == [] {
      CrossSumEmpty(d, a);
    } else {
      CrossSumColumn(d, a, b);
      CrossSumSymmetric(d, a, b[1..]);
    }
  }

  lemma RatioSymmetric(s: real, x: nat, y: nat)
    requires x > 0 && y > 0
    ensures Ratio(s, x, y) == Ratio(s, y, x)
  {
    assert x as real * y as real == y as real * x as real;
  }

  lemma MeanSymmetric(d: Matrix, a: Cluster, b: Cluster)
    requires Square(d) && Symmetric(d) && Within(a, |d|) && Within(b, |d|) && a != [] && b != []
    ensures Mean(d, a, b) == Mean(d, b, a)
  {
    CrossSumSymmetric(d, a, b);
    RatioSymmetric(CrossSum(d, a, b), |a|, |b|);
  }

  lemma ScaledBack(s: real, x: real, y: real)
    requires x > 0.0 && y > 0.0
    ensures x * (s / (x * y)) == s / y
  {
    var q := s / (x * y);
    assert q * (x * y) == s;
    assert (x * q) * y == s;
  }

  lemma QuotientSum(s: real, t: real, x: real, y: real)
    requires x > 0.0 && y > 0.0
    ensures (s / y + t / y) / x == (s + t) / (x * y)
  {
    var u := (s / y + t / y) / x;
    assert u * x == s / y + t / y;
    assert (s / y + t / y) * y == s + t;
    assert u * (x * y) == (u * x) * y == s + t;
  }

  /** Weighted mean of means, on plain numbers. */
  lemma WeightedMean(s: real, t: real, x: real, y: real, z: real)
    requires x > 0.0 && y > 0.0 && z > 0.0
    ensures (x * (s / (x * z)) + y * (t / (y * z))) / (x + y) == (s + t) / ((x + y) * z)
  {
    ScaledBack(s, x, z);
    ScaledBack(t, y, z);
    QuotientSum(s, t, x + y, z);
  }

  lemma DivideBound(m: real, s: real, x: real)
    requires x > 0.0 && x * m <= s
    ensures m <= s / x
  {
    assert (s / x) * x == s;
  }

  lemma NonNegative(x: real, y: real)
    requires x >= 0.0 && y >= 0.0
    ensures x * y >= 0.0
  {
  }

  lemma WeightedBound(m: real, p: real, q: real, x: real, y: real)
    requires x > 0.0 && y > 0.0 && m <= p && m <= q
    ensures m <= (x * p + y * q) / (x + y)
  {
    var u, v := x * (p - m), y * (q - m);
    NonNegative(x, p - m);
    NonNegative(y, q - m);
    assert x * p == u + x * m && y * q == v + y * m;
    assert (x + y) * m == x * m + y * m;
    DivideBound(m, x * p + y * q, x + y);
  }

  function Weighted(x: nat, y: nat, p: real, q: real): real
    requires x > 0 && y > 0
  {
    (x as real * p + y as real * q) / (x as real + y as real)
  }

  lemma WeightedRatio(s: real, t: real, x: nat, y: nat, z: nat)
    requires x > 0 && y > 0 && z > 0
    ensures Weighted(x, y, Ratio(s, x, z), Ratio(t, y, z)) == Ratio(s + t, x + y, z)
  {
    WeightedMean(s, t, x as real, y as real, z as real);
    assert (x + y) as real == x as real + y as real;
  }

  /** The Lance-Williams update computes the mean distance of the merged cluster. */
  lemma LanceWilliams(d: Matrix, a: Cluster, b: Cluster, c: Cluster)
    requires Square(d) && Within(a, |d|) && Within(b, |d|) && Within(c, |d|) && a != [] && b != [] && c != []
    ensures Weighted(|a|, |b|, Mean(d, a, c), Mean(d, b, c)) == Mean(d, a + b, c)
  {
    CrossSumAppend(d, a, b, c);
    WeightedRatio(CrossSum(d, a, c), CrossSum(d, b, c), |a|, |b|, |c|);
  }

  /** Merging cannot bring a third cluster closer than the nearer of the two was. */
  lemma MergedIsNoCloser(d: Matrix, a: Cluster, b: Cluster, c: Cluster, m: real)
    requires Square(d) && Within(a, |d|) && Within(b, |d|) && Within(c, |d|) && a != [] && b != [] && c != []
    requires m <= Mean(d, a, c) && m <= Mean(d, b, c)
    ensures m <= Mean(d, a + b, c)
  {
    LanceWilliams(d, a, b, c);
    WeightedBound(m, Mean(d, a, c), Mean(d, b, c), |a| as real, |b| as real);
  }

  // ------------------------------------------------------------------
  // The specification: merge the first closest pair, by exact mean distance
  // ------------------------------------------------------------------

  predicate ClustersOk(d: Matrix, cs: seq<Cluster>) {
    Square(d) && forall p :: 0 <= p < |cs| ==> cs[p] != [] && Within(cs[p], |d|)
  }

  function M(d: Matrix, cs: seq<Cluster>, p: nat, q: nat): real
    requires ClustersOk(d, cs) && p < |cs| && q < |cs|
  {
    Mean(d, cs[p], cs[q])
  }

  predicate Before(p: nat, q: nat, a: nat, b: nat) { p < a || (p == a && q < b) }

  /** Among the pairs before (a, b) in scanning order, (i, j) is the first of least distance. */
  ghost predicate FirstClosest(d: Matrix, cs: seq<Cluster>, a: nat, b: nat, i: nat, j: nat)
    requires ClustersOk(d, cs)
  {
    && i < j < |cs| && Before(i, j, a, b)
    && forall p: nat, q: nat {:trigger M(d, cs, p, q)} :: p < q < |cs| && Before(p, q, a, b) ==>
         M(d, cs, i, j) <= M(d, cs, p, q) && (Before(p, q, i, j) ==> M(d, cs, i, j) < M(d, cs, p, q))
  }

  lemma FirstClosestExists(d: Matrix, cs: seq<Cluster>) returns (i: nat, j: nat)
    requires ClustersOk(d, cs) && |cs| >= 2
    ensures FirstClosest(d, cs, |cs|, 0, i, j)
  {
    i, j := 0, 1;
    var a: nat, b: nat := 0, 2;
    while a < |cs|
      invariant a <= |cs| && b <= |cs| && (a < |cs| ==> a < b)
      invariant FirstClosest(d, cs, a, b, i, j)
      decreases |cs| - a, |cs| - b
    {
      if b == |cs| {
        a, b := a + 1, if a + 2 <= |cs| then a + 2 else |cs|;
      } else {
        if M(d, cs, a, b) < M(d, cs, i, j) {
          i, j := a, b;
        }
        b := b + 1;
      }
    }
  }

  lemma FirstClosestUnique(d: Matrix, cs: seq<Cluster>, i: nat, j: nat, k: nat, l: nat)
    requires ClustersOk(d, cs) && FirstClosest(d, cs, |cs|, 0, i, j) && FirstClosest(d, cs, |cs|, 0, k, l)
    ensures i == k && j == l
  {
    assert M(d, cs, i, j) == M(d, cs, k, l);
  }

  ghost function ClosestPair(d: Matrix, cs: seq<Cluster>): (pair: (nat, nat))
    requires ClustersOk(d, cs) && |cs| >= 2
    ensures FirstClosest(d, cs, |cs|, 0, pair.0, pair.1)
  {
    assert exists i: nat, j: nat :: FirstClosest(d, cs, |cs|, 0, i, j) by {
      var i, j := FirstClosestExists(d, cs);
    }
    var i: nat, j: nat :| FirstClosest(d, cs, |cs|, 0, i, j);
    (i, j)
  }

  function Merge(cs: seq<Cluster>, i: nat, j: nat): (r: seq<Cluster>)
    requires i < j < |cs|
    ensures |r| == |cs| - 1
    ensures forall p :: 0 <= p < |r| ==> r[p] == if p == i then cs[i] + cs[j] else cs[Skip(p, j)]
  {
    cs[..i] + [cs[i] + cs[j]] + cs[i + 1..j] + cs[j + 1..]
  }

  /** Position before the removal of position j. */
  function Skip(p: nat, j: nat): nat { if p < j then p else p + 1 }

  /** When the speaker count is unknown. */
  datatype Limit = Limit(stopDistance: real, maxSpeakers: int)

  datatype Outcome = Outcome(clusters: seq<Cluster>, heights: seq<real>)

  ghost predicate Stops(d: Matrix, cs: seq<Cluster>, limit: Option<Limit>)
    requires ClustersOk(d, cs) && |cs| >= 2
  {
    var (i, j) := ClosestPair(d, cs);
    limit.Some? && M(d, cs, i, j) > limit.value.stopDistance && |cs| <= limit.value.maxSpeakers
  }

  /** The clusters at the end and the distances at which merges happened, in order. */
  ghost function Agglomerate(d: Matrix, cs: seq<Cluster>, target: nat, limit: Option<Limit>): Outcome
    requires ClustersOk(d, cs) && target >= 1
    decreases |cs|
  {
    if |cs| <= target || Stops(d, cs, limit) then Outcome(cs, [])
    else
      var (i, j) := ClosestPair(d, cs);
      var rest := Agglomerate(d, Merge(cs, i, j), target, limit);
      rest.(heights := [M(d, cs, i, j)] + rest.heights)
  }

  // ------------------------------------------------------------------
  // Properties of the specification
  // ------------------------------------------------------------------

  /** Every index below n is in exactly one place of one cluster. */
  ghost predicate Partition(cs: seq<Cluster>, n: nat) {
    && (forall p, k :: 0 <= p < |cs| && 0 <= k < |cs[p]| ==> cs[p][k] < n)
    && (forall p, k, q, l :: 0 <= p < |cs| && 0 <= k < |cs[p]| && 0 <= q < |cs| && 0 <= l < |cs[q]| && cs[p][k] == cs[q][l]
          ==> p == q && k == l)
    && (forall x: nat :: x < n ==> Covered(cs, x))
  }

  ghost predicate Covered(cs: seq<Cluster>, x: nat) { exists p :: 0 <= p < |cs| && x in cs[p] }

  lemma MergeCovers(cs: seq<Cluster>, n: nat, i: nat, j: nat, x: nat)
    requires Partition(cs, n) && i < j < |cs| && x < n
    ensures Covered(Merge(cs, i, j), x)
  {
    var r := Merge(cs, i, j);
    assert Covered(cs, x);
    var p :| 0 <= p < |cs| && x in cs[p];
    var p1 := if p == j then i else if p < j then p else p - 1;
    assert x in r[p1];
  }

  lemma MergeDistinct(cs: seq<Cluster>, n: nat, i: nat, j: nat, p: nat, k: nat, q: nat, l: nat)
    requires Partition(cs, n) && i < j < |cs|
    requires var r := Merge(cs, i, j);
      p < |r| && k < |r[p]| && q < |r| && l < |r[q]| && r[p][k] == r[q][l]
    ensures p == q && k == l && Merge(cs, i, j)[p][k] < n
  {
    var (p0, k0) := Source(cs, i, j, p, k);
    var (q0, l0) := Source(cs, i, j, q, l);
    assert cs[p0][k0] == cs[q0][l0];
  }

  lemma MergeKeepsPartition(cs: seq<Cluster>, n: nat, i: nat, j: nat)
    requires Partition(cs, n) && i < j < |cs|
    ensures Partition(Merge(cs, i, j), n)
  {
    var r := Merge(cs, i, j);
    forall x: nat | x < n ensures Covered(r, x) {
      MergeCovers(cs, n, i, j, x);
    }
    forall p, k | 0 <= p < |r| && 0 <= k < |r[p]| ensures r[p][k] < n {
      MergeDistinct(cs, n, i, j, p, k, p, k);
    }
    forall p, k, q, l | 0 <= p < |r| && 0 <= k < |r[p]| && 0 <= q < |r| && 0 <= l < |r[q]| && r[p][k] == r[q][l]
      ensures p == q && k == l
    {
      MergeDistinct(cs, n, i, j, p, k, q, l);
    }
  }

  /** Where element k of merged cluster p comes from. */
  function Source(cs: seq<Cluster>, i: nat, j: nat, p: nat, k: nat): (at: (nat, nat))
    requires i < j < |cs| && p < |cs| - 1 && k < |Merge(cs, i, j)[p]|
    ensures at.0 < |cs| && at.1 < |cs[at.0]| && cs[at.0][at.1] == Merge(cs, i, j)[p][k]
  {
    if p == i && k >= |cs[i]| then (j, k - |cs[i]|) else if p == i then (i, k) else (Skip(p, j), k)
  }

  lemma MergeKeepsOk(d: Matrix, cs: seq<Cluster>, i: nat, j: nat)
    requires ClustersOk(d, cs) && i < j < |cs|
    ensures ClustersOk(d, Merge(cs, i, j))
  {
  }

  /** The result partitions the indices. */
  lemma {:induction false} AgglomeratePartitions(d: Matrix, cs: seq<Cluster>, target: nat, limit: Option<Limit>)
    requires ClustersOk(d, cs) && target >= 1 && Partition(cs, |d|)
    ensures Partition(Agglomerate(d, cs, target, limit).clusters, |d|)
    decreases |cs|
  {
    if !(|cs| <= target || Stops(d, cs, limit)) {
      var (i, j) := ClosestPair(d, cs);
      MergeKeepsPartition(cs, |d|, i, j);
      AgglomeratePartitions(d, Merge(cs, i, j), target, limit);
    }
  }

  /** All pairs of clusters are at least m apart. */
  ghost predicate ApartBy(d: Matrix, cs: seq<Cluster>, m: real)
    requires ClustersOk(d, cs)
  {
    forall p: nat, q: nat {:trigger M(d, cs, p, q)} :: p < |cs| && q < |cs| && p != q ==> m <= M(d, cs, p, q)
  }

  lemma ClosestBounds(d: Matrix, cs: seq<Cluster>)
    requires ClustersOk(d, cs) && Symmetric(d) && |cs| >= 2
    ensures var (i, j) := ClosestPair(d, cs); ApartBy(d, cs, M(d, cs, i, j))
  {
    var (i, j) := ClosestPair(d, cs);
    forall p: nat, q: nat | p < |cs| && q < |cs| && p != q ensures M(d, cs, i, j) <= M(d, cs, p, q) {
      MeanSymmetric(d, cs[p], cs[q]);
      assert M(d, cs, p, q) == M(d, cs, q, p);
      assert p < q ==> Before(p, q, |cs|, 0);
    }
  }

  lemma MergeKeepsApart(d: Matrix, cs: seq<Cluster>, i: nat, j: nat, m: real)
    requires ClustersOk(d, cs) && Symmetric(d) && i < j < |cs| && ApartBy(d, cs, m)
    ensures ApartBy(d, Merge(cs, i, j), m)
  {
    var r := Merge(cs, i, j);
    forall p: nat, q: nat | p < |r| && q < |r| && p != q ensures m <= M(d, r, p, q) {
      MeanSymmetric(d, r[p], r[q]);
      var p0, q0 := Skip(p, j), Skip(q, j);
      assert M(d, cs, p0, q0) == Mean(d, cs[p0], cs[q0]);
      if p == i {
        assert m <= M(d, cs, i, q0) && m <= M(d, cs, j, q0);
        MergedIsNoCloser(d, cs[i], cs[j], cs[q0], m);
      } else if q == i {
        assert m <= M(d, cs, i, p0) && m <= M(d, cs, j, p0);
        MergedIsNoCloser(d, cs[i], cs[j], cs[p0], m);
      }
    }
  }

  ghost predicate NonDecreasingFrom(hs: seq<real>, m: real) {
    && (forall k :: 0 <= k < |hs| ==> m <= hs[k])
    && (forall k, l :: 0 <= k < l < |hs| ==> hs[k] <= hs[l])
  }

  /** Successive merge distances never decrease. */
  lemma {:induction false} HeightsNeverDecrease(d: Matrix, cs: seq<Cluster>, target: nat, limit: Option<Limit>, m: real)
    requires ClustersOk(d, cs) && Symmetric(d) && target >= 1 && ApartBy(d, cs, m)
    ensures NonDecreasingFrom(Agglomerate(d, cs, target, limit).heights, m)
    decreases |cs|
  {
    if !(|cs| <= target || Stops(d, cs, limit)) {
      var (i, j) := ClosestPair(d, cs);
      ClosestBounds(d, cs);
      MergeKeepsApart(d, cs, i, j, M(d, cs, i, j));
      HeightsNeverDecrease(d, Merge(cs, i, j), target, limit, M(d, cs, i, j));
    }
  }

  /** What holds where it stops, and at every merge on the way. */
  lemma {:induction false} StopsWhereItShould(d: Matrix, cs: seq<Cluster>, target: nat, limit: Option<Limit>)
    requires ClustersOk(d, cs) && Symmetric(d) && target >= 1
    ensures var o := Agglomerate(d, cs, target, limit);
      && ClustersOk(d, o.clusters) && |o.clusters| + |o.heights| == |cs|
      && (limit.None? ==> |o.clusters| == Min(target, |cs|))
      && (limit.Some? ==>
            && (|o.clusters| <= target
                || (|o.clusters| <= limit.value.maxSpeakers
                    && forall p: nat, q: nat :: p < |o.clusters| && q < |o.clusters| && p != q
                         ==> M(d, o.clusters, p, q) > limit.value.stopDistance))
            && forall k :: 0 <= k < |o.heights| && o.heights[k] > limit.value.stopDistance
                 ==> |cs| - k > limit.value.maxSpeakers)
    decreases |cs|
  {
    if |cs| > target {
      ClosestBounds(d, cs);
      if !Stops(d, cs, limit) {
        var (i, j) := ClosestPair(d, cs);
        MergeKeepsOk(d, cs, i, j);
        StopsWhereItShould(d, Merge(cs, i, j), target, limit);
      }
    }
  }

  function Singletons(n: nat): seq<Cluster> { seq(n, i => [i]) }

  function TargetCount(numSpeakers: Option<int>, n: nat): nat {
    if numSpeakers.Some? then Max(1, Min(numSpeakers.value, n)) else 1
  }

  function StopLimit(numSpeakers: Option<int>, minSim: real, maxSpeakers: int): Option<Limit> {
    if numSpeakers.Some? then None else Some(Limit(1.0 - minSim, maxSpeakers))
  }

  lemma SingletonsOk(d: Matrix)
    requires Square(d)
    ensures ClustersOk(d, Singletons(|d|)) && Partition(Singletons(|d|), |d|)
  {
    var cs := Singletons(|d|);
    forall x: nat | x < |d| ensures Covered(cs, x) {
      assert x in cs[x];
    }
  }

  /** What `_ahc` computes, from the embeddings on. */
  ghost function Clustered(embs: seq<Vec>, numSpeakers: Option<int>, minSim: real, maxSpeakers: int): Outcome {
    DistancesSymmetric(embs);
    SingletonsOk(Distances(embs));
    Agglomerate(Distances(embs), Singletons(|embs|), TargetCount(numSpeakers, |embs|), StopLimit(numSpeakers, minSim, maxSpeakers))
  }

  /** The result of clustering n embeddings: a partition of the indices; merge distances
      that never decrease; with a count k exactly max(1, min(k, n)) clusters; otherwise one
      cluster, or at most maxSpeakers that are all more than 1 - minSim apart on average,
      and merges above that only while there were more than maxSpeakers. */
  lemma ClusteringLaw(embs: seq<Vec>, numSpeakers: Option<int>, minSim: real, maxSpeakers: int)
    requires embs != []
    ensures var (o, d, n) := (Clustered(embs, numSpeakers, minSim, maxSpeakers), Distances(embs), |embs|);
      && ClustersOk(d, o.clusters) && Partition(o.clusters, n)
      && (forall k, l :: 0 <= k < l < |o.heights| ==> o.heights[k] <= o.heights[l])
      && (numSpeakers.Some? ==> |o.clusters| == Max(1, Min(numSpeakers.value, n)))
      && (numSpeakers.None? ==>
            && (|o.clusters| == 1
                || (|o.clusters| <= maxSpeakers
                    && forall p: nat, q: nat :: p < |o.clusters| && q < |o.clusters| && p != q
                         ==> M(d, o.clusters, p, q) > 1.0 - minSim))
            && forall k :: 0 <= k < |o.heights| && o.heights[k] > 1.0 - minSim ==> n - k > maxSpeakers)
  {
    var d, cs := Distances(embs), Singletons(|embs|);
    DistancesSymmetric(embs);
    SingletonsOk(d);
    var target, limit := TargetCount(numSpeakers, |embs|), StopLimit(numSpeakers, minSim, maxSpeakers);
    AgglomeratePartitions(d, cs, target, limit);
    StopsWhereItShould(d, cs, target, limit);
    if |cs| >= 2 {
      var (i, j) := ClosestPair(d, cs);
      ClosestBounds(d, cs);
      HeightsNeverDecrease(d, cs, target, limit, M(d, cs, i, j));
    }
    assert Covered(Clustered(embs, numSpeakers, minSim, maxSpeakers).clusters, 0);
  }

  // ------------------------------------------------------------------
  // The algorithm, in place
  // ------------------------------------------------------------------

  datatype Ext = Finite(v: real) | Infinite

  predicate Less(a: Ext, b: Ext) { a.Finite? && (b.Finite? ==> a.v < b.v) }

  ghost predicate ActiveOk(n: nat, active: seq<nat>) {
    && (forall p :: 0 <= p < |active| ==> active[p] < n)
    && (forall p, q :: 0 <= p < |active| && 0 <= q < |active| && p != q ==> active[p] != active[q])
  }

  /** The bookkeeping lists describe the clusters cs. */
  ghost predicate ListsOk(d: Matrix, cs: seq<Cluster>, sizes: seq<nat>, active: seq<nat>, members: seq<Cluster>) {
    && ClustersOk(d, cs) && ActiveOk(|d|, active)
    && |active| == |cs| && |sizes| == |d| && |members| == |d|
    && (forall p :: 0 <= p < |cs| ==> members[active[p]] == cs[p] && sizes[active[p]] == |cs[p]|)
  }

  /** The matrix entry of two active clusters is their exact mean distance. */
  ghost predicate MatrixOk(d: Matrix, cs: seq<Cluster>, dist: array2<Ext>, active: seq<nat>)
    requires ClustersOk(d, cs) && ActiveOk(|d|, active) && |active| == |cs|
    requires dist.Length0 == |d| && dist.Length1 == |d|
    reads dist
  {
    forall p: nat, q: nat {:trigger M(d, cs, p, q)} :: p < |cs| && q < |cs| && p != q
      ==> dist[active[p], active[q]] == Finite(M(d, cs, p, q))
  }

  method FindClosest(dist: array2<Ext>, active: seq<nat>, ghost d: Matrix, ghost cs: seq<Cluster>)
    returns (bestI: nat, bestJ: nat, bestD: Ext)
    requires ClustersOk(d, cs) && ActiveOk(|d|, active) && |active| == |cs| >= 2
    requires dist.Length0 == |d| && dist.Length1 == |d| && MatrixOk(d, cs, dist, active)
    ensures var (i, j) := ClosestPair(d, cs);
      bestI == active[i] && bestJ == active[j] && bestD == Finite(M(d, cs, i, j))
  {
    bestI, bestJ, bestD := 0, 0, Infinite;
    ghost var i: nat, j: nat := 0, 0;
    for ai := 0 to |active|
      invariant ai >= 2 ==> bestD.Finite?
      invariant if bestD.Infinite? then ai == 0
                else FirstClosest(d, cs, ai, ai + 1, i, j) && bestI == active[i] && bestJ == active[j] && bestD == Finite(M(d, cs, i, j))
    {
      var ci := active[ai];
      for aj := ai + 1 to |active|
        invariant if bestD.Infinite? then ai == 0 && aj == 1
                  else FirstClosest(d, cs, ai, aj, i, j) && bestI == active[i] && bestJ == active[j] && bestD == Finite(M(d, cs, i, j))
      {
        var cj := active[aj];
        assert dist[ci, cj] == Finite(M(d, cs, ai, aj));
        if Less(dist[ci, cj], bestD) {
          bestD := dist[ci, cj];
          bestI, bestJ := ci, cj;
          i, j := ai, aj;
        }
      }
    }
    ghost var (k, l) := ClosestPair(d, cs);
    FirstClosestUnique(d, cs, i, j, k, l);
  }

  /** What the entry of positions p and q must be once positions below upto are updated. */
  ghost function Expected(d: Matrix, cs: seq<Cluster>, i: nat, j: nat, upto: nat, p: nat, q: nat): real
    requires ClustersOk(d, cs) && i < j < |cs| && p < |cs| && q < |cs|
  {
    if p == i && q < upto && q != i && q != j then Mean(d, cs[i] + cs[j], cs[q])
    else if q == i && p < upto && p != i && p != j then Mean(d, cs[p], cs[i] + cs[j])
    else M(d, cs, p, q)
  }

  ghost predicate PartlyMerged(d: Matrix, cs: seq<Cluster>, dist: array2<Ext>, active: seq<nat>, i: nat, j: nat, upto: nat)
    requires ClustersOk(d, cs) && ActiveOk(|d|, active) && |active| == |cs| && i < j < |cs|
    requires dist.Length0 == |d| && dist.Length1 == |d|
    reads dist
  {
    forall p: nat, q: nat {:trigger Expected(d, cs, i, j, upto, p, q)} :: p < |cs| && q < |cs| && p != q
      ==> dist[active[p], active[q]] == Finite(Expected(d, cs, i, j, upto, p, q))
  }

  lemma UpdatedEntry(d: Matrix, cs: seq<Cluster>, i: nat, j: nat, r: nat)
    requires ClustersOk(d, cs) && Symmetric(d) && i < j < |cs| && r < |cs| && r != i && r != j
    ensures Weighted(|cs[i]|, |cs[j]|, M(d, cs, i, r), M(d, cs, j, r)) == Mean(d, cs[i] + cs[j], cs[r])
    ensures Mean(d, cs[i] + cs[j], cs[r]) == Mean(d, cs[r], cs[i] + cs[j])
  {
    LanceWilliams(d, cs[i], cs[j], cs[r]);
    MeanSymmetric(d, cs[i] + cs[j], cs[r]);
  }

  method UpdateDistances(dist: array2<Ext>, active: seq<nat>, bestI: nat, bestJ: nat, ni: nat, nj: nat,
                         ghost d: Matrix, ghost cs: seq<Cluster>, ghost i: nat, ghost j: nat)
    requires ClustersOk(d, cs) && Symmetric(d) && ActiveOk(|d|, active) && |active| == |cs| && i < j < |cs|
    requires dist.Length0 == |d| && dist.Length1 == |d| && MatrixOk(d, cs, dist, active)
    requires bestI == active[i] && bestJ == active[j] && ni == |cs[i]| && nj == |cs[j]|
    modifies dist
    ensures PartlyMerged(d, cs, dist, active, i, j, |cs|)
  {
    for r := 0 to |active|
      invariant PartlyMerged(d, cs, dist, active, i, j, r)
    {
      var ck := active[r];
      if ck != bestI && ck != bestJ {
        assert dist[bestI, ck] == Finite(Expected(d, cs, i, j, r, i, r)) && dist[bestJ, ck] == Finite(Expected(d, cs, i, j, r, j, r));
        var newD := Weighted(ni, nj, dist[bestI, ck].v, dist[bestJ, ck].v);
        UpdatedEntry(d, cs, i, j, r);
        label before:
        dist[bestI, ck] := Finite(newD);
        dist[ck, bestI] := Finite(newD);
        forall p: nat, q: nat | p < |cs| && q < |cs| && p != q
          ensures dist[active[p], active[q]] == Finite(Expected(d, cs, i, j, r + 1, p, q))
        {
          assert old@before(dist[active[p], active[q]]) == Finite(Expected(d, cs, i, j, r, p, q));
        }
      } else {
        forall p: nat, q: nat | p < |cs| && q < |cs| && p != q
          ensures dist[active[p], active[q]] == Finite(Expected(d, cs, i, j, r + 1, p, q))
        {
          assert dist[active[p], active[q]] == Finite(Expected(d, cs, i, j, r, p, q));
        }
      }
    }
  }

  /** `active.remove(x)` */
  function Remove(active: seq<nat>, x: nat): seq<nat> {
    if active == [] then [] else if active[0] == x then active[1..] else [active[0]] + Remove(active[1..], x)
  }

  lemma {:induction false} RemoveAt(n: nat, active: seq<nat>, j: nat)
    requires ActiveOk(n, active) && j < |active|
    ensures Remove(active, active[j]) == active[..j] + active[j + 1..]
    decreases j
  {
    if j > 0 {
      assert active[0] != active[j];
      RemoveAt(n, active[1..], j - 1);
      assert active[1..][..j - 1] == active[1..j] && active[1..][j - 1 + 1..] == active[j + 1..];
    }
  }

  lemma RemovedOk(n: nat, active: seq<nat>, j: nat)
    requires ActiveOk(n, active) && j < |active|
    ensures var a := Remove(active, active[j]);
      ActiveOk(n, a) && |a| == |active| - 1 && forall p :: 0 <= p < |a| ==> a[p] == active[Skip(p, j)]
  {
    RemoveAt(n, active, j);
  }

  lemma MergedMatrix(d: Matrix, cs: seq<Cluster>, dist: array2<Ext>, active: seq<nat>, i: nat, j: nat)
    requires ClustersOk(d, cs) && ActiveOk(|d|, active) && |active| == |cs| && i < j < |cs|
    requires dist.Length0 == |d| && dist.Length1 == |d|
    requires forall p: nat, q: nat {:trigger Expected(d, cs, i, j, |cs|, p, q)} ::
               p < |cs| && q < |cs| && p != q && p != j && q != j ==>
                 dist[active[p], active[q]] == Finite(Expected(d, cs, i, j, |cs|, p, q))
    ensures var (r, a) := (Merge(cs, i, j), Remove(active, active[j]));
      ClustersOk(d, r) && ActiveOk(|d|, a) && |a| == |r| && MatrixOk(d, r, dist, a)
  {
    var r, a := Merge(cs, i, j), Remove(active, active[j]);
    MergeKeepsOk(d, cs, i, j);
    RemovedOk(|d|, active, j);
    forall p: nat, q: nat | p < |r| && q < |r| && p != q ensures dist[a[p], a[q]] == Finite(M(d, r, p, q)) {
      var e := Expected(d, cs, i, j, |cs|, Skip(p, j), Skip(q, j));
      assert e == M(d, r, p, q);
    }
  }

  lemma InitialMatrix(embs: seq<Vec>, dist: array2<Ext>, active: seq<nat>)
    requires dist.Length0 == |embs| && dist.Length1 == |embs| && active == seq(|embs|, i => i)
    requires forall i, j :: 0 <= i < |embs| && 0 <= j < |embs| && i != j ==> dist[i, j] == Finite(1.0 - Dot(embs[i], embs[j]))
    ensures var (d, cs) := (Distances(embs), Singletons(|embs|)); ClustersOk(d, cs) && MatrixOk(d, cs, dist, active)
  {
    var d, cs := Distances(embs), Singletons(|embs|);
    forall p: nat, q: nat | p < |cs| && q < |cs| && p != q ensures dist[active[p], active[q]] == Finite(M(d, cs, p, q)) {
      assert RowSum(d, p, [q]) == d[p][q] + RowSum(d, p, []) && CrossSum(d, [p], [q]) == RowSum(d, p, [q]) + CrossSum(d, [], [q]);
    }
  }

  lemma MergedLists(d: Matrix, cs: seq<Cluster>, sizes: seq<nat>, active: seq<nat>, members: seq<Cluster>, i: nat, j: nat)
    requires ClustersOk(d, cs) && ActiveOk(|d|, active) && |active| == |cs| && i < j < |cs| && |sizes| == |d| && |members| == |d|
    requires members[active[i]] == cs[i] + cs[j] && sizes[active[i]] == |cs[i]| + |cs[j]|
    requires forall p :: 0 <= p < |cs| && p != i ==> members[active[p]] == cs[p] && sizes[active[p]] == |cs[p]|
    ensures ListsOk(d, Merge(cs, i, j), sizes, Remove(active, active[j]), members)
  {
    MergeKeepsOk(d, cs, i, j);
    RemovedOk(|d|, active, j);
  }

  /** Merges the cluster of bestJ into that of bestI. */
  method MergePair(dist: array2<Ext>, sizes: seq<nat>, active: seq<nat>, members: seq<Cluster>, bestI: nat, bestJ: nat,
                   ghost d: Matrix, ghost cs: seq<Cluster>, ghost i: nat, ghost j: nat)
    returns (sizes1: seq<nat>, active1: seq<nat>, members1: seq<Cluster>)
    requires dist.Length0 == |d| && dist.Length1 == |d| && ClustersOk(d, cs) && Symmetric(d)
    requires ListsOk(d, cs, sizes, active, members) && MatrixOk(d, cs, dist, active)
    requires i < j < |cs| && bestI == active[i] && bestJ == active[j]
    modifies dist
    ensures ListsOk(d, Merge(cs, i, j), sizes1, active1, members1) && MatrixOk(d, Merge(cs, i, j), dist, active1)
  {
    var ni, nj := sizes[bestI], sizes[bestJ];
    UpdateDistances(dist, active, bestI, bestJ, ni, nj, d, cs, i, j);
    sizes1 := sizes[bestI := ni + nj];
    members1 := members[bestI := members[bestI] + members[bestJ]];
    label before:
    dist[bestI, bestJ] := Infinite;
    dist[bestJ, bestI] := Infinite;
    forall p: nat, q: nat | p < |cs| && q < |cs| && p != q && p != j && q != j
      ensures dist[active[p], active[q]] == Finite(Expected(d, cs, i, j, |cs|, p, q))
    {
      assert old@before(dist[active[p], active[q]]) == Finite(Expected(d, cs, i, j, |cs|, p, q));
    }
    MergedMatrix(d, cs, dist, active, i, j);
    MergedLists(d, cs, sizes1, active, members1, i, j);
    active1 := Remove(active, bestJ);
  }

  method AssignLabels(n: nat, active: seq<nat>, members: seq<Cluster>, ghost cs: seq<Cluster>) returns (labels: array<nat>)
    requires Partition(cs, n) && ActiveOk(n, active) && |members| == n && |active| == |cs|
    requires forall p :: 0 <= p < |cs| ==> members[active[p]] == cs[p]
    ensures fresh(labels) && labels.Length == n
    ensures forall c, k :: 0 <= c < |cs| && 0 <= k < |cs[c]| ==> labels[cs[c][k]] == c
  {
    labels := new nat[n](_ => 0);
    for newId := 0 to |active|
      invariant forall c, k :: 0 <= c < newId && 0 <= k < |cs[c]| ==> labels[cs[c][k]] == c
    {
      var c := active[newId];
      for m := 0 to |members[c]|
        invariant forall c, k :: 0 <= c < newId && 0 <= k < |cs[c]| ==> labels[cs[c][k]] == c
        invariant forall l :: 0 <= l < m ==> labels[cs[newId][l]] == newId
      {
        labels[members[c][m]] := newId;
      }
    }
  }

  method InitialDistances(embs: seq<Vec>) returns (dist: array2<Ext>)
    ensures var (d, cs) := (Distances(embs), Singletons(|embs|));
      && fresh(dist) && dist.Length0 == |embs| && dist.Length1 == |embs| && ClustersOk(d, cs)
      && MatrixOk(d, cs, dist, seq(|embs|, i => i))
  {
    var n := |embs|;
    dist := new Ext[n, n]((i, j) requires 0 <= i < n && 0 <= j < n => if i == j then Infinite else Finite(1.0 - Dot(embs[i], embs[j])));
    InitialMatrix(embs, dist, seq(n, i => i));
  }

  method MergeUntilDone(dist: array2<Ext>, n: nat, targetK: nat, numSpeakers: Option<int>, stopDistance: real, maxSpeakers: int,
                        ghost d: Matrix)
    returns (active: seq<nat>, members: seq<Cluster>)
    requires |d| == n && Square(d) && Symmetric(d) && dist.Length0 == n && dist.Length1 == n && targetK >= 1
    requires ClustersOk(d, Singletons(n)) && MatrixOk(d, Singletons(n), dist, seq(n, i => i))
    modifies dist
    ensures var limit := if numSpeakers.Some? then None else Some(Limit(stopDistance, maxSpeakers));
      var cs := Agglomerate(d, Singletons(n), targetK, limit).clusters;
      ActiveOk(n, active) && |members| == n && |active| == |cs| && forall p :: 0 <= p < |cs| ==> members[active[p]] == cs[p]
  {
    var sizes: seq<nat> := seq(n, i => 1);
    active := seq(n, i => i);
    members := seq(n, i => [i]);
    ghost var limit := if numSpeakers.Some? then None else Some(Limit(stopDistance, maxSpeakers));
    ghost var cs := Singletons(n);
    ghost var goal := Agglomerate(d, cs, targetK, limit).clusters;
    while |active| > targetK
      invariant ListsOk(d, cs, sizes, active, members) && MatrixOk(d, cs, dist, active)
      invariant Agglomerate(d, cs, targetK, limit).clusters == goal
      decreases |active|
    {
      var bestI, bestJ, bestD := FindClosest(dist, active, d, cs);
      ghost var (i, j) := ClosestPair(d, cs);
      if numSpeakers.None? && bestD.v > stopDistance && |active| <= maxSpeakers {
        break;
      }
      sizes, active, members := MergePair(dist, sizes, active, members, bestI, bestJ, d, cs, i, j);
      cs := Merge(cs, i, j);
    }
    assert cs == goal;
  }

  method Ahc(embs: seq<Vec>, numSpeakers: Option<int>, minSim: real, maxSpeakers: int) returns (labels: array<nat>)
    ensures fresh(labels) && labels.Length == |embs|
    ensures var cs := Clustered(embs, numSpeakers, minSim, maxSpeakers).clusters;
      Partition(cs, |embs|) && forall c, k :: 0 <= c < |cs| && 0 <= k < |cs[c]| ==> labels[cs[c][k]] == c
  {
    var n := |embs|;
    ghost var d := Distances(embs);
    DistancesSymmetric(embs);
    SingletonsOk(d);
    var targetK := TargetCount(numSpeakers, n);
    AgglomeratePartitions(d, Singletons(n), targetK, StopLimit(numSpeakers, minSim, maxSpeakers));
    var dist := InitialDistances(embs);
    var active, members := MergeUntilDone(dist, n, targetK, numSpeakers, 1.0 - minSim, maxSpeakers, d);
    labels := AssignLabels(n, active, members, Clustered(embs, numSpeakers, minSim, maxSpeakers).clusters);
  }
}
