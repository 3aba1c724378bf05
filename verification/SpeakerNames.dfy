/**
 What becomes of cluster labels: `_finalize` of diarization.py, without centroids and
 confidences.
 */
module SpeakerNames {

  // ------------------------------------------------------------------
  // Python's stable sort
  // ------------------------------------------------------------------

  ghost predicate Order<T(!new)>(leq: (T, T) -> bool) {
    && (forall a, b :: leq(a, b) || leq(b, a))
    && (forall a, b, c :: leq(a, b) && leq(b, c) ==> leq(a, c))
  }

  ghost predicate SortedBy<T>(xs: seq<T>, leq: (T, T) -> bool) { forall i, j :: 0 <= i < j < |xs| ==> leq(xs[i], xs[j]) }

  function Insert<T>(x: T, ys: seq<T>, leq: (T, T) -> bool): seq<T> {
    if ys == [] || leq(x, ys[0]) then [x] + ys else [ys[0]] + Insert(x, ys[1..], leq)
  }

  function Sorted<T>(xs: seq<T>, leq: (T, T) -> bool): seq<T> {
    if xs == [] then [] else Insert(xs[0], Sorted(xs[1..], leq), leq)
  }

  lemma {:induction false} InsertAdds<T>(x: T, ys: seq<T>, leq: (T, T) -> bool)
    ensures multiset(Insert(x, ys, leq)) == multiset{x} + multiset(ys)
  {
    if ys != [] && !leq(x, ys[0]) {
      assert ys == [ys[0]] + ys[1..];
      InsertAdds(x, ys[1..], leq);
    }
  }

  lemma InsertedFrom<T>(x: T, ys: seq<T>, leq: (T, T) -> bool, k: nat)
    requires k < |Insert(x, ys, leq)|
    ensures Insert(x, ys, leq)[k] == x || Insert(x, ys, leq)[k] in ys
  {
    InsertAdds(x, ys, leq);
    assert Insert(x, ys, leq)[k] in multiset(Insert(x, ys, leq));
  }

  lemma {:induction false} InsertSorts<T(!new)>(x: T, ys: seq<T>, leq: (T, T) -> bool)
    requires Order(leq) && SortedBy(ys, leq)
    ensures SortedBy(Insert(x, ys, leq), leq)
  {
    if ys != [] && !leq(x, ys[0]) {
      var rest := Insert(x, ys[1..], leq);
      InsertSorts(x, ys[1..], leq);
      forall k | 0 <= k < |rest|
        ensures leq(ys[0], rest[k])
      {
        InsertedFrom(x, ys[1..], leq, k);
      }
    }
  }

  lemma {:induction false} SortedSorts<T(!new)>(xs: seq<T>, leq: (T, T) -> bool)
    requires Order(leq)
    ensures SortedBy(Sorted(xs, leq), leq) && multiset(Sorted(xs, leq)) == multiset(xs)
  {
    if xs != [] {
      assert xs == [xs[0]] + xs[1..];
      SortedSorts(xs[1..], leq);
      InsertSorts(xs[0], Sorted(xs[1..], leq), leq);
      InsertAdds(xs[0], Sorted(xs[1..], leq), leq);
    }
  }

  /** The elements that sort like v, in their order. */
  function Alike<T>(xs: seq<T>, v: T, leq: (T, T) -> bool): seq<T> {
    if xs == [] then []
    else (if leq(xs[0], v) && leq(v, xs[0]) then [xs[0]] else []) + Alike(xs[1..], v, leq)
  }

  lemma AlikeCons<T>(x: T, ys: seq<T>, v: T, leq: (T, T) -> bool)
    ensures Alike([x] + ys, v, leq) == Alike([x], v, leq) + Alike(ys, v, leq)
  {
    assert ([x] + ys)[1..] == ys && [x][1..] == [];
  }

  lemma {:induction false} InsertInFront<T(!new)>(x: T, ys: seq<T>, v: T, leq: (T, T) -> bool)
    requires Order(leq)
    ensures Alike(Insert(x, ys, leq), v, leq) == Alike([x], v, leq) + Alike(ys, v, leq)
  {
    if ys == [] || leq(x, ys[0]) {
      AlikeCons(x, ys, v, leq);
    } else {
      InsertInFront(x, ys[1..], v, leq);
      AlikeCons(ys[0], Insert(x, ys[1..], leq), v, leq);
      AlikeCons(ys[0], ys[1..], v, leq);
      assert [ys[0]] + ys[1..] == ys;
      assert Alike([x], v, leq) == [] || Alike([ys[0]], v, leq) == [];
    }
  }

  /** The sort is stable: elements that sort alike keep their order. */
  lemma {:induction false} SortedKeepsOrder<T(!new)>(xs: seq<T>, v: T, leq: (T, T) -> bool)
    requires Order(leq)
    ensures Alike(Sorted(xs, leq), v, leq) == Alike(xs, v, leq)
  {
    if xs != [] {
      var rest := Sorted(xs[1..], leq);
      SortedKeepsOrder(xs[1..], v, leq);
      InsertInFront(xs[0], rest, v, leq);
      AlikeCons(xs[0], xs[1..], v, leq);
      assert [xs[0]] + xs[1..] == xs;
      assert Sorted(xs, leq) == Insert(xs[0], rest, leq);
    }
  }

  // ------------------------------------------------------------------
  // Names
  // ------------------------------------------------------------------

  datatype Segment = Segment(start: real, end: real, speaker: nat)

  /** The labels in use, each once. */
  function Distinct(labels: seq<nat>): (ds: seq<nat>)
    ensures forall c :: c in ds <==> c in labels
    ensures forall i, j :: 0 <= i < j < |ds| ==> ds[i] != ds[j]
  {
    if labels == [] then []
    else
      var n := |labels| - 1;
      assert labels == labels[..n] + [labels[n]];
      var ds := Distinct(labels[..n]);
      if labels[n] in ds then ds else ds + [labels[n]]
  }

  /** The earliest start among the items with a label. */
  function Earliest(starts: seq<real>, labels: seq<nat>, c: nat): (t: real)
    requires |starts| >= |labels| && c in labels
    ensures forall i :: 0 <= i < |labels| && labels[i] == c ==> t <= starts[i]
    ensures exists i :: 0 <= i < |labels| && labels[i] == c && t == starts[i]
  {
    var n := |labels| - 1;
    assert labels == labels[..n] + [labels[n]];
    if c !in labels[..n] then
      assert forall i :: 0 <= i < n ==> labels[..n][i] == labels[i];
      starts[n]
    else
      var t := Earliest(starts, labels[..n], c);
      if labels[n] == c && starts[n] < t then starts[n] else t
  }

  function EarliestOf(starts: seq<real>, labels: seq<nat>, c: nat): real
    requires |starts| >= |labels|
  {
    if c in labels then Earliest(starts, labels, c) else 0.0
  }

  /** Earlier speakers come first; the label decides between equals. */
  function SpeaksFirst(starts: seq<real>, labels: seq<nat>): ((nat, nat) -> bool)
    requires |starts| >= |labels|
  {
    (a: nat, b: nat) =>
      EarliestOf(starts, labels, a) < EarliestOf(starts, labels, b)
      || (EarliestOf(starts, labels, a) == EarliestOf(starts, labels, b) && a <= b)
  }

  /** `order`: the labels in the order in which they are numbered. */
  function NamingOrder(starts: seq<real>, labels: seq<nat>): seq<nat>
    requires |starts| >= |labels|
  {
    Sorted(Distinct(labels), SpeaksFirst(starts, labels))
  }

  function Find(order: seq<nat>, c: nat): (k: nat)
    requires c in order
    ensures k < |order| && order[k] == c
  {
    if order[0] == c then 0 else 1 + Find(order[1..], c)
  }

  lemma OrderIs(starts: seq<real>, labels: seq<nat>)
    requires |starts| >= |labels|
    ensures var order := NamingOrder(starts, labels);
      && SortedBy(order, SpeaksFirst(starts, labels)) && |order| == |Distinct(labels)|
      && (forall c :: c in order <==> c in labels)
      && (forall i, j :: 0 <= i < j < |order| ==> order[i] != order[j])
  {
    var ds, order := Distinct(labels), NamingOrder(starts, labels);
    SortedSorts(ds, SpeaksFirst(starts, labels));
    forall c
      ensures c in order <==> c in labels
    {
      assert c in order <==> c in multiset(order);
      assert c in ds <==> c in multiset(ds);
    }
    SameSize(order, ds);
    OnceEach(ds);
    forall i, j | 0 <= i < j < |order|
      ensures order[i] != order[j]
    {
      assert multiset(order)[order[i]] <= 1;
      if order[i] == order[j] { TwiceIn(order, i, j); }
    }
  }

  lemma SameSize<T>(a: seq<T>, b: seq<T>)
    requires multiset(a) == multiset(b)
    ensures |a| == |b|
  {
    assert |multiset(a)| == |a| && |multiset(b)| == |b|;
  }

  lemma {:induction false} OnceEach(ds: seq<nat>)
    requires forall i, j :: 0 <= i < j < |ds| ==> ds[i] != ds[j]
    ensures forall c :: multiset(ds)[c] <= 1
  {
    if ds != [] {
      var n := |ds| - 1;
      assert ds == ds[..n] + [ds[n]];
      OnceEach(ds[..n]);
      assert ds[n] !in ds[..n];
    }
  }

  lemma TwiceIn<T>(s: seq<T>, i: nat, j: nat)
    requires i < j < |s| && s[i] == s[j]
    ensures multiset(s)[s[i]] >= 2
  {
    assert s == s[..i] + [s[i]] + s[i + 1..j] + [s[j]] + s[j + 1..];
  }

  /** The name of item i. */
  function NameOf(starts: seq<real>, labels: seq<nat>, i: nat): nat
    requires |starts| >= |labels| && i < |labels|
  {
    OrderIs(starts, labels);
    Find(NamingOrder(starts, labels), labels[i])
  }

  predicate BySpan(a: Segment, b: Segment) { a.start < b.start || (a.start == b.start && a.end <= b.end) }

  function Named(starts: seq<real>, ends: seq<real>, labels: seq<nat>): (segments: seq<Segment>)
    requires |starts| == |ends| == |labels|
    ensures |segments| == |labels|
  {
    seq(|labels|, i requires 0 <= i < |labels| => Segment(starts[i], ends[i], NameOf(starts, labels, i)))
  }

  function Finalized(starts: seq<real>, ends: seq<real>, labels: seq<nat>): seq<Segment>
    requires |starts| == |ends| == |labels|
  {
    Sorted(Named(starts, ends, labels), BySpan)
  }

  ghost predicate PlacesOf(order: seq<nat>, remap: map<nat, nat>) {
    forall k :: 0 <= k < |order| ==> order[k] in remap && remap[order[k]] == k
  }

  lemma RemapNames(starts: seq<real>, labels: seq<nat>, remap: map<nat, nat>, i: nat)
    requires |starts| >= |labels| && i < |labels| && PlacesOf(NamingOrder(starts, labels), remap)
    ensures labels[i] in remap && remap[labels[i]] == NameOf(starts, labels, i)
  {
    OrderIs(starts, labels);
    assert NamingOrder(starts, labels)[NameOf(starts, labels, i)] == labels[i];
  }

  /** `remap`: the place of each label in the order. */
  method Remap(order: seq<nat>) returns (remap: map<nat, nat>)
    requires forall i, j :: 0 <= i < j < |order| ==> order[i] != order[j]
    ensures PlacesOf(order, remap)
  {
    remap := map[];
    for i := 0 to |order|
      invariant forall k :: 0 <= k < i ==> order[k] in remap && remap[order[k]] == k
    {
      remap := remap[order[i] := i];
    }
  }

  /** The labels in the order of their earliest starts, and the name of each. */
  method NameLabels(starts: seq<real>, labels: seq<nat>) returns (remap: map<nat, nat>)
    requires |starts| >= |labels|
    ensures forall i :: 0 <= i < |labels| ==> labels[i] in remap && remap[labels[i]] == NameOf(starts, labels, i)
  {
    var order := NamingOrder(starts, labels);
    OrderIs(starts, labels);
    remap := Remap(order);
    forall i | 0 <= i < |labels| ensures labels[i] in remap && remap[labels[i]] == NameOf(starts, labels, i) {
      RemapNames(starts, labels, remap, i);
    }
  }

  method Finalize(starts: seq<real>, ends: seq<real>, labels: seq<nat>) returns (segments: seq<Segment>)
    requires |starts| == |ends| == |labels|
    ensures segments == Finalized(starts, ends, labels)
  {
    var remap := NameLabels(starts, labels);
    ghost var named := Named(starts, ends, labels);
    segments := [];
    for i := 0 to |labels|
      invariant |segments| == i && forall k :: 0 <= k < i ==> segments[k] == named[k]
    {
      segments := segments + [Segment(starts[i], ends[i], remap[labels[i]])];
    }
    assert segments == named;
    segments := Sorted(segments, BySpan);
  }

  /** Items share a name exactly when they share a cluster; the names are 0 to the number of
      clusters, and a lower name belongs to a speaker who was heard no later. */
  lemma NamesFollowClusters(starts: seq<real>, labels: seq<nat>, i: nat, j: nat)
    requires |starts| >= |labels| && i < |labels| && j < |labels|
    ensures NameOf(starts, labels, i) == NameOf(starts, labels, j) <==> labels[i] == labels[j]
    ensures NameOf(starts, labels, i) < |Distinct(labels)|
    ensures NameOf(starts, labels, i) < NameOf(starts, labels, j) ==>
      Earliest(starts, labels, labels[i]) <= Earliest(starts, labels, labels[j])
  {
    OrderIs(starts, labels);
    var order, a, b := NamingOrder(starts, labels), NameOf(starts, labels, i), NameOf(starts, labels, j);
    assert order[a] == labels[i] && order[b] == labels[j];
    if a < b { assert SpeaksFirst(starts, labels)(order[a], order[b]); }
  }

  /** Every name below the number of clusters is in use. */
  lemma EveryNameIsUsed(starts: seq<real>, labels: seq<nat>, k: nat)
    requires |starts| >= |labels| && k < |Distinct(labels)|
    ensures exists i :: 0 <= i < |labels| && NameOf(starts, labels, i) == k
  {
    OrderIs(starts, labels);
    var order := NamingOrder(starts, labels);
    assert order[k] in order;
    var i :| 0 <= i < |labels| && labels[i] == order[k];
    assert order[NameOf(starts, labels, i)] == order[k];
  }

  /** The transcript is in time order and has exactly the named items; items with the same span
      stay as they were. */
  lemma FinalizedInOrder(starts: seq<real>, ends: seq<real>, labels: seq<nat>)
    requires |starts| == |ends| == |labels|
    ensures var out := Finalized(starts, ends, labels);
      && SortedBy(out, BySpan) && |out| == |labels|
      && multiset(out) == multiset(Named(starts, ends, labels))
      && forall v :: Alike(out, v, BySpan) == Alike(Named(starts, ends, labels), v, BySpan)
  {
    forall v ensures Alike(Finalized(starts, ends, labels), v, BySpan) == Alike(Named(starts, ends, labels), v, BySpan) {
      SortedKeepsOrder(Named(starts, ends, labels), v, BySpan);
    }
    SortedSorts(Named(starts, ends, labels), BySpan);
    SameSize(Finalized(starts, ends, labels), Named(starts, ends, labels));
  }
}
