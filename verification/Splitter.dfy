/**
 Splitting long audio at silence: `_pick_cuts` and the candidate scan of the two splitters.

 Lengths are in samples.  What counts as a silent frame (an RMS threshold, or webrtcvad) is a
 parameter.
 */
module Splitter {
  import opened Common

  datatype Sizes = Sizes(maxSeg: int, minSeg: int, minFrag: int, minTail: int)

  /** Without progress per cut the greedy walk would not end. */
  predicate SizesOk(z: Sizes) { z.minSeg >= 1 && z.maxSeg >= 1 }

  // ------------------------------------------------------------------
  // Cut selection
  // ------------------------------------------------------------------

  predicate InWindow(z: Sizes, last: int, c: int) { last + z.minSeg <= c <= last + z.maxSeg }

  /** The silence point closest to maxSeg from the last cut, or a hard cut there. */
  function NextCut(z: Sizes, cand: seq<int>, last: int): (c: int)
    requires SizesOk(z)
    ensures last < c <= last + z.maxSeg
    ensures forall k :: 0 <= k < |cand| && InWindow(z, last, cand[k]) ==> cand[k] <= c
    ensures (exists k :: 0 <= k < |cand| && InWindow(z, last, cand[k]) && cand[k] == c) || c == last + z.maxSeg
  {
    var best := LastInWindow(z, cand, last);
    if best.Some? then best.value else last + z.maxSeg
  }

  function LastInWindow(z: Sizes, cand: seq<int>, last: int): (best: Option<int>)
    ensures best.None? ==> forall k :: 0 <= k < |cand| ==> !InWindow(z, last, cand[k])
    ensures best.Some? ==>
      && (exists k :: 0 <= k < |cand| && InWindow(z, last, cand[k]) && cand[k] == best.value)
      && (forall k :: 0 <= k < |cand| && InWindow(z, last, cand[k]) ==> cand[k] <= best.value)
  {
    if cand == [] then None
    else
      var n := |cand| - 1;
      var rest := LastInWindow(z, cand[..n], last);
      assert forall k :: 0 <= k < n ==> cand[k] == cand[..n][k];
      if !InWindow(z, last, cand[n]) || (rest.Some? && rest.value >= cand[n]) then rest else Some(cand[n])
  }

  function RawCuts(z: Sizes, cand: seq<int>, n: int, last: int): seq<int>
    requires SizesOk(z)
    decreases n - last
  {
    if n - last > z.maxSeg then [last] + RawCuts(z, cand, n, NextCut(z, cand, last)) else [last, n]
  }

  function Pop(cuts: seq<int>, i: nat): seq<int>
    requires i < |cuts|
  {
    cuts[..i] + cuts[i + 1..]
  }

  /** Removes from position i on every cut that opens a fragment shorter than minFrag. */
  function MergeFragments(z: Sizes, cuts: seq<int>, i: nat): seq<int>
    decreases |cuts|, |cuts| - i
  {
    if i >= |cuts| - 1 then cuts
    else if cuts[i + 1] - cuts[i] < z.minFrag then MergeFragments(z, Pop(cuts, i), i)
    else MergeFragments(z, cuts, i + 1)
  }

  function MergeTail(z: Sizes, cuts: seq<int>): seq<int>
    decreases |cuts|
  {
    if |cuts| >= 3 && cuts[|cuts| - 1] - cuts[|cuts| - 2] < z.minTail then MergeTail(z, Pop(cuts, |cuts| - 2)) else cuts
  }

  function FinalCuts(z: Sizes, cand: seq<int>, n: int): seq<int>
    requires SizesOk(z)
  {
    MergeTail(z, MergeFragments(z, RawCuts(z, cand, n, 0), 1))
  }

  /** Cuts run from 0 to n without standing still (but for the one segment of no audio). */
  ghost predicate CutsOk(cuts: seq<int>, n: int) {
    && |cuts| >= 2 && cuts[0] == 0 && cuts[|cuts| - 1] == n
    && forall k :: 0 <= k < |cuts| - 1 ==> cuts[k] <= cuts[k + 1] && (n > 0 ==> cuts[k] < cuts[k + 1])
  }

  method GreedyCuts(n: nat, cand: seq<int>, z: Sizes) returns (cuts: seq<int>)
    requires SizesOk(z)
    ensures cuts == RawCuts(z, cand, n, 0)
  {
    cuts := [0];
    while n - cuts[|cuts| - 1] > z.maxSeg
      invariant |cuts| >= 1
      invariant RawCuts(z, cand, n, 0) == cuts[..|cuts| - 1] + RawCuts(z, cand, n, cuts[|cuts| - 1])
      decreases n - cuts[|cuts| - 1]
    {
      ghost var before := cuts;
      cuts := cuts + [NextCut(z, cand, cuts[|cuts| - 1])];
      assert cuts[..|cuts| - 1] == before[..|before| - 1] + [before[|before| - 1]];
    }
    cuts := cuts + [n];
  }

  method DropFragments(raw: seq<int>, z: Sizes) returns (cuts: seq<int>)
    ensures cuts == MergeFragments(z, raw, 1)
  {
    cuts := raw;
    var i := 1;
    while i < |cuts| - 1
      invariant 1 <= i && MergeFragments(z, cuts, i) == MergeFragments(z, raw, 1)
      decreases |cuts|, |cuts| - i
    {
      if cuts[i + 1] - cuts[i] < z.minFrag {
        cuts := Pop(cuts, i);
      } else {
        i := i + 1;
      }
    }
  }

  method DropTail(merged: seq<int>, z: Sizes) returns (cuts: seq<int>)
    ensures cuts == MergeTail(z, merged)
  {
    cuts := merged;
    while |cuts| >= 3 && cuts[|cuts| - 1] - cuts[|cuts| - 2] < z.minTail
      invariant MergeTail(z, cuts) == MergeTail(z, merged)
      decreases |cuts|
    {
      cuts := Pop(cuts, |cuts| - 2);
    }
  }

  method PickCuts<T>(audio: seq<T>, cand: seq<int>, z: Sizes) returns (segments: seq<seq<T>>)
    requires SizesOk(z)
    ensures CutsOk(FinalCuts(z, cand, |audio|), |audio|)
    ensures segments == Segments(audio, FinalCuts(z, cand, |audio|))
  {
    var cuts := GreedyCuts(|audio|, cand, z);
    cuts := DropFragments(cuts, z);
    cuts := DropTail(cuts, z);
    FinalCutsOk(z, cand, |audio|);
    CutsInRange(cuts, |audio|);
    segments := seq(|cuts| - 1, k requires 0 <= k < |cuts| - 1 => audio[cuts[k]..cuts[k + 1]]);
  }

  lemma {:induction false} MergedOk(z: Sizes, cuts: seq<int>, n: int, i: nat)
    requires CutsOk(cuts, n) && 1 <= i
    ensures CutsOk(MergeFragments(z, cuts, i), n)
    decreases |cuts|, |cuts| - i
  {
    if i < |cuts| - 1 {
      PopKeepsCuts(cuts, n, i);
      MergedOk(z, if cuts[i + 1] - cuts[i] < z.minFrag then Pop(cuts, i) else cuts, n,
               if cuts[i + 1] - cuts[i] < z.minFrag then i else i + 1);
    }
  }

  lemma {:induction false} TailOk(z: Sizes, cuts: seq<int>, n: int)
    requires CutsOk(cuts, n)
    ensures CutsOk(MergeTail(z, cuts), n)
    decreases |cuts|
  {
    if |cuts| >= 3 && cuts[|cuts| - 1] - cuts[|cuts| - 2] < z.minTail {
      PopKeepsCuts(cuts, n, |cuts| - 2);
      TailOk(z, Pop(cuts, |cuts| - 2), n);
    }
  }

  lemma FinalCutsOk(z: Sizes, cand: seq<int>, n: nat)
    requires SizesOk(z)
    ensures CutsOk(FinalCuts(z, cand, n), n)
  {
    RawCutsOk(z, cand, n, 0);
    MergedOk(z, RawCuts(z, cand, n, 0), n, 1);
    TailOk(z, MergeFragments(z, RawCuts(z, cand, n, 0), 1), n);
  }

  ghost function Segments<T>(audio: seq<T>, cuts: seq<int>): seq<seq<T>>
    requires CutsOk(cuts, |audio|)
  {
    CutsInRange(cuts, |audio|);
    seq(|cuts| - 1, k requires 0 <= k < |cuts| - 1 => audio[cuts[k]..cuts[k + 1]])
  }

  lemma CutsInRange(cuts: seq<int>, n: int)
    requires CutsOk(cuts, n)
    ensures forall k, l :: 0 <= k <= l < |cuts| ==> 0 <= cuts[k] <= cuts[l] <= n
  {
    forall k, l | 0 <= k <= l < |cuts| ensures cuts[k] <= cuts[l] { Ascending(cuts, n, k, l); }
  }

  lemma Ascending(cuts: seq<int>, n: int, k: nat, l: nat)
    requires CutsOk(cuts, n) && k <= l < |cuts|
    ensures cuts[k] <= cuts[l]
    decreases l
  {
    if k < l { Ascending(cuts, n, k, l - 1); }
  }

  lemma PopKeepsCuts(cuts: seq<int>, n: int, i: nat)
    requires CutsOk(cuts, n) && 1 <= i < |cuts| - 1
    ensures CutsOk(Pop(cuts, i), n)
  {
    var r := Pop(cuts, i);
    forall k | 0 <= k < |r| - 1 ensures r[k] <= r[k + 1] && (n > 0 ==> r[k] < r[k + 1]) {
      if k == i - 1 {
        assert cuts[k] <= cuts[k + 1] <= cuts[k + 2] && r[k + 1] == cuts[k + 2];
      }
    }
  }

  lemma {:induction false} RawCutsOk(z: Sizes, cand: seq<int>, n: int, last: int)
    requires SizesOk(z) && last <= n
    ensures var raw := RawCuts(z, cand, n, last); |raw| >= 2 && raw[0] == last && raw[|raw| - 1] == n
    ensures var raw := RawCuts(z, cand, n, last);
      forall k :: 0 <= k < |raw| - 1 ==> raw[k] <= raw[k + 1] && (last < n ==> raw[k] < raw[k + 1])
    decreases n - last
  {
    if n - last > z.maxSeg { RawCutsOk(z, cand, n, NextCut(z, cand, last)); }
  }

  // ------------------------------------------------------------------
  // What the segments are worth
  // ------------------------------------------------------------------

  function Concat<T>(segments: seq<seq<T>>): seq<T> {
    if segments == [] then [] else Concat(segments[..|segments| - 1]) + segments[|segments| - 1]
  }

  /** The segments concatenate to the input. */
  lemma {:induction false} SegmentsConcatenate<T>(audio: seq<T>, cuts: seq<int>, k: nat)
    requires CutsOk(cuts, |audio|) && k < |cuts|
    ensures 0 <= cuts[k] <= |audio| && Concat(Segments(audio, cuts)[..k]) == audio[..cuts[k]]
  {
    CutsInRange(cuts, |audio|);
    var segments := Segments(audio, cuts);
    if k > 0 {
      SegmentsConcatenate(audio, cuts, k - 1);
      assert segments[..k][..k - 1] == segments[..k - 1] && segments[..k][k - 1] == audio[cuts[k - 1]..cuts[k]];
    }
  }

  function Len(cuts: seq<int>, k: nat): int
    requires k + 1 < |cuts|
  {
    cuts[k + 1] - cuts[k]
  }

  /** Two consecutive segments total more than maxSeg. */
  ghost predicate PairsLong(z: Sizes, cuts: seq<int>) { forall k :: 0 <= k < |cuts| - 2 ==> cuts[k + 2] - cuts[k] > z.maxSeg }

  ghost predicate AllWithin(z: Sizes, cuts: seq<int>) { forall k :: 0 <= k < |cuts| - 1 ==> Len(cuts, k) <= z.maxSeg }

  lemma PrependCut(z: Sizes, last: int, rest: seq<int>)
    requires |rest| >= 2 && rest[0] - last <= z.maxSeg && rest[1] - last > z.maxSeg
    requires PairsLong(z, rest) && AllWithin(z, rest)
    ensures PairsLong(z, [last] + rest) && AllWithin(z, [last] + rest)
  {
    var raw := [last] + rest;
    forall k | 0 <= k < |raw| - 2 ensures raw[k + 2] - raw[k] > z.maxSeg {
      if k > 0 { assert rest[k - 1 + 2] - rest[k - 1] > z.maxSeg; }
    }
    forall k | 0 <= k < |raw| - 1 ensures Len(raw, k) <= z.maxSeg {
      if k > 0 { assert Len(rest, k - 1) <= z.maxSeg; }
    }
  }

  /** What the greedy choice rules out: a cut after the next one was also in reach. */
  lemma TwoCutsApart(z: Sizes, cand: seq<int>, last: int)
    requires SizesOk(z)
    ensures NextCut(z, cand, NextCut(z, cand, last)) - last > z.maxSeg
  {
  }

  /** The greedy choice: raw segments are within maxSeg, any two in a row exceed it. */
  lemma {:induction false} GreedyChoice(z: Sizes, cand: seq<int>, n: int, last: int)
    requires SizesOk(z) && last <= n
    ensures PairsLong(z, RawCuts(z, cand, n, last)) && AllWithin(z, RawCuts(z, cand, n, last))
    decreases n - last
  {
    if n - last > z.maxSeg {
      var c := NextCut(z, cand, last);
      RawCutsOk(z, cand, n, c);
      GreedyChoice(z, cand, n, c);
      TwoCutsApart(z, cand, last);
      if n - c > z.maxSeg { RawCutsOk(z, cand, n, NextCut(z, cand, c)); }
      PrependCut(z, last, RawCuts(z, cand, n, c));
    }
  }

  /** No two fragments in a row: what follows a fragment is none. */
  predicate Spaced(z: Sizes) { 2 * z.minFrag <= z.maxSeg + 2 }

  /** Moreover what follows a fragment is no short tail. */
  predicate Roomy(z: Sizes) {
    && Spaced(z) && 0 <= z.minTail <= z.maxSeg + 1
    && z.minFrag <= z.minTail + 1 && z.minFrag + z.minTail <= z.maxSeg + 2
  }

  /** A segment is within maxSeg, or has absorbed one fragment and is followed by a segment
      that makes up for it. */
  ghost predicate Absorbed(z: Sizes, cuts: seq<int>, k: nat)
    requires k + 1 < |cuts|
  {
    Len(cuts, k) <= z.maxSeg
    || (Len(cuts, k) < z.maxSeg + z.minFrag && (k + 2 < |cuts| ==> Len(cuts, k + 1) >= z.maxSeg + 2 - z.minFrag))
  }

  ghost predicate Mergeable(z: Sizes, cuts: seq<int>, n: int, i: nat) {
    && CutsOk(cuts, n) && PairsLong(z, cuts) && 1 <= i
    && (forall k :: 0 <= k < |cuts| - 1 ==> Absorbed(z, cuts, k))
    && (forall k :: i <= k < |cuts| - 1 ==> Len(cuts, k) <= z.maxSeg)
    && (forall k :: 1 <= k < i && k < |cuts| - 1 ==> Len(cuts, k) >= z.minFrag)
  }

  lemma PopKeepsPairs(z: Sizes, cuts: seq<int>, n: int, i: nat)
    requires CutsOk(cuts, n) && PairsLong(z, cuts) && 1 <= i < |cuts| - 1
    ensures PairsLong(z, Pop(cuts, i))
  {
    var r := Pop(cuts, i);
    forall k | 0 <= k < |r| - 2 ensures r[k + 2] - r[k] > z.maxSeg {
      if k < i {
        assert cuts[k + 2] - cuts[k] > z.maxSeg && (k + 3 < |cuts| ==> cuts[k + 2] <= cuts[k + 3]);
      } else {
        assert cuts[k + 3] - cuts[k + 1] > z.maxSeg;
      }
    }
  }

  /** Lengths after a pop: two segments become one, the others stay. */
  lemma PopLengths(cuts: seq<int>, i: nat, k: nat)
    requires 1 <= i < |cuts| - 1 && k < |cuts| - 2
    ensures Len(Pop(cuts, i), k) ==
      if k < i - 1 then Len(cuts, k) else if k == i - 1 then Len(cuts, k) + Len(cuts, i) else Len(cuts, k + 1)
  {
  }

  lemma PopAbsorbs(z: Sizes, cuts: seq<int>, n: int, i: nat, k: nat)
    requires Spaced(z) && Mergeable(z, cuts, n, i) && i < |cuts| - 1 && Len(cuts, i) < z.minFrag && k < |cuts| - 2
    ensures Absorbed(z, Pop(cuts, i), k)
  {
    var r := Pop(cuts, i);
    PopLengths(cuts, i, k);
    assert Absorbed(z, cuts, k) && Absorbed(z, cuts, k + 1);
    if k + 1 < |r| - 1 {
      PopLengths(cuts, i, k + 1);
    }
    if k == i - 1 && i + 2 < |cuts| {
      assert cuts[i + 2] - cuts[i] > z.maxSeg;
      assert Len(cuts, i + 1) + Len(cuts, i) > z.maxSeg;
    }
    if k == i - 2 {
      assert Len(r, k + 1) == Len(cuts, k + 1) + Len(cuts, i) && cuts[i] <= cuts[i + 1];
    }
  }

  lemma PopFragment(z: Sizes, cuts: seq<int>, n: int, i: nat)
    requires Spaced(z) && Mergeable(z, cuts, n, i) && i < |cuts| - 1 && Len(cuts, i) < z.minFrag
    ensures Mergeable(z, Pop(cuts, i), n, i)
  {
    var r := Pop(cuts, i);
    PopKeepsPairs(z, cuts, n, i);
    PopKeepsCuts(cuts, n, i);
    forall k | 0 <= k < |r| - 1
      ensures Absorbed(z, r, k) && (k >= i ==> Len(r, k) <= z.maxSeg) && (1 <= k < i ==> Len(r, k) >= z.minFrag)
    {
      PopAbsorbs(z, cuts, n, i, k);
      PopLengths(cuts, i, k);
      assert 1 <= k < i ==> Len(cuts, k) >= z.minFrag && cuts[i] <= cuts[i + 1];
    }
  }

  lemma {:induction false} FragmentsMerged(z: Sizes, cuts: seq<int>, n: int, i: nat)
    requires Spaced(z) && Mergeable(z, cuts, n, i)
    ensures var r := MergeFragments(z, cuts, i); Mergeable(z, r, n, |r|)
    decreases |cuts|, |cuts| - i
  {
    if i < |cuts| - 1 {
      if Len(cuts, i) < z.minFrag {
        PopFragment(z, cuts, n, i);
        FragmentsMerged(z, Pop(cuts, i), n, i);
      } else {
        FragmentsMerged(z, cuts, n, i + 1);
      }
    }
  }

  ghost predicate Promised(z: Sizes, cuts: seq<int>) {
    && (forall k :: 0 <= k < |cuts| - 1 ==> Len(cuts, k) <= z.maxSeg + z.minTail)
    && (forall k :: 1 <= k < |cuts| - 1 ==> Len(cuts, k) >= z.minFrag)
    && (|cuts| >= 2 ==> Len(cuts, |cuts| - 2) >= z.minTail)
  }

  lemma PopTailLengths(z: Sizes, cuts: seq<int>, n: int, k: nat)
    requires Roomy(z) && Mergeable(z, cuts, n, |cuts|) && |cuts| >= 3 && Len(cuts, |cuts| - 2) < z.minTail
    requires k < |cuts| - 2
    ensures Len(Pop(cuts, |cuts| - 2), k) <= z.maxSeg + z.minTail && (k >= 1 ==> Len(Pop(cuts, |cuts| - 2), k) >= z.minFrag)
    ensures k == |cuts| - 3 ==> Len(Pop(cuts, |cuts| - 2), k) > z.maxSeg
  {
    var m := |cuts|;
    PopLengths(cuts, m - 2, k);
    assert Absorbed(z, cuts, k);
    assert cuts[m - 1] - cuts[m - 3] == Len(cuts, m - 3) + Len(cuts, m - 2);
    assert cuts[(m - 3) + 2] - cuts[m - 3] > z.maxSeg;
  }

  lemma PopTail(z: Sizes, cuts: seq<int>, n: int)
    requires Roomy(z) && Mergeable(z, cuts, n, |cuts|) && |cuts| >= 3 && Len(cuts, |cuts| - 2) < z.minTail
    ensures Promised(z, Pop(cuts, |cuts| - 2)) && MergeTail(z, cuts) == Pop(cuts, |cuts| - 2)
  {
    var r := Pop(cuts, |cuts| - 2);
    forall k: nat | k < |r| - 1
      ensures Len(r, k) <= z.maxSeg + z.minTail && (k >= 1 ==> Len(r, k) >= z.minFrag) && (k == |r| - 2 ==> Len(r, k) > z.maxSeg)
    {
      PopTailLengths(z, cuts, n, k);
    }
  }

  /** The tail merge fires at most once and then everything promised holds. */
  lemma TailMergedOnce(z: Sizes, cuts: seq<int>, n: int)
    requires Roomy(z) && Mergeable(z, cuts, n, |cuts|) && n > z.maxSeg
    ensures Promised(z, MergeTail(z, cuts))
    ensures |MergeTail(z, cuts)| >= |cuts| - 1
  {
    if |cuts| >= 3 && Len(cuts, |cuts| - 2) < z.minTail {
      PopTail(z, cuts, n);
    } else {
      forall k | 0 <= k < |cuts| - 1 ensures Len(cuts, k) <= z.maxSeg + z.minTail { assert Absorbed(z, cuts, k); }
    }
  }

  /** For any candidates: when the sizes leave room and the audio is longer than maxSeg, no
      segment exceeds maxSeg + minTail, all but the first have at least minFrag, the last at
      least minTail, and the tail merge fires at most once. */
  lemma SegmentLengths(z: Sizes, cand: seq<int>, n: int)
    requires SizesOk(z) && Roomy(z) && n > z.maxSeg
    ensures CutsOk(FinalCuts(z, cand, n), n) && Promised(z, FinalCuts(z, cand, n))
    ensures |FinalCuts(z, cand, n)| >= |MergeFragments(z, RawCuts(z, cand, n, 0), 1)| - 1
  {
    var raw := RawCuts(z, cand, n, 0);
    RawCutsOk(z, cand, n, 0);
    GreedyChoice(z, cand, n, 0);
    assert forall k :: 0 <= k < |raw| - 1 ==> Absorbed(z, raw, k);
    FragmentsMerged(z, raw, n, 1);
    var merged := MergeFragments(z, raw, 1);
    TailMergedOnce(z, merged, n);
    TailOk(z, merged, n);
  }

  ghost predicate BoundHolds(z: Sizes)
    requires SizesOk(z)
  {
    forall cand: seq<int>, n: nat {:trigger FinalCuts(z, cand, n)} :: n > z.maxSeg ==>
      forall k :: 0 <= k < |FinalCuts(z, cand, n)| - 1 ==> Len(FinalCuts(z, cand, n), k) <= z.maxSeg + z.minTail
  }

  // ------------------------------------------------------------------
  // When the documented bound holds
  // ------------------------------------------------------------------

  /** No segment can be pushed beyond maxSeg + minTail: fragments are not longer than that
      allows, and either only the last segment can be one, or they are single samples, or there
      is room for one beside a short tail. */
  predicate Bounded(z: Sizes) {
    && 0 <= z.minTail && z.minFrag <= z.minTail + 1 && z.minFrag <= z.maxSeg
    && (z.minFrag <= z.minSeg || z.minFrag <= 2 || (Spaced(z) && z.minFrag + z.minTail <= z.maxSeg + 2))
  }

  ghost predicate UpTo(cuts: seq<int>, last: int, others: int) {
    forall k :: 0 <= k < |cuts| - 1 ==> Len(cuts, k) <= if k == |cuts| - 2 then last else others
  }

  /** A tail is merged while it is short, so into a segment of at most maxSeg + 1 any number of
      merges is harmless. */
  lemma {:induction false} TailStaysWithin(z: Sizes, cuts: seq<int>, n: int)
    requires CutsOk(cuts, n) && UpTo(cuts, z.maxSeg + z.minTail, z.maxSeg + 1) && UpTo(cuts, z.maxSeg + z.minTail, z.maxSeg + z.minTail)
    ensures var r := MergeTail(z, cuts); UpTo(r, z.maxSeg + z.minTail, z.maxSeg + z.minTail)
    decreases |cuts|
  {
    if |cuts| >= 3 && Len(cuts, |cuts| - 2) < z.minTail {
      var r := Pop(cuts, |cuts| - 2);
      PopKeepsCuts(cuts, n, |cuts| - 2);
      forall k | 0 <= k < |r| - 1 ensures Len(r, k) <= (if k == |r| - 2 then z.maxSeg + z.minTail else z.maxSeg + 1)
                                          && Len(r, k) <= z.maxSeg + z.minTail {
        PopLengths(cuts, |cuts| - 2, k);
        assert Len(cuts, k) <= z.maxSeg + 1;
      }
      TailStaysWithin(z, r, n);
    }
  }

  /** Raw cuts are minSeg apart, or hard cuts; only the last segment may be shorter. */
  lemma {:induction false} OnlyLastShort(z: Sizes, cand: seq<int>, n: int, last: int)
    requires SizesOk(z) && last <= n && z.minFrag <= z.minSeg && z.minFrag <= z.maxSeg
    ensures var raw := RawCuts(z, cand, n, last); forall k :: 0 <= k < |raw| - 2 ==> Len(raw, k) >= z.minFrag
    decreases n - last
  {
    if n - last > z.maxSeg {
      var c := NextCut(z, cand, last);
      var rest := RawCuts(z, cand, n, c);
      RawCutsOk(z, cand, n, c);
      OnlyLastShort(z, cand, n, c);
      var raw := [last] + rest;
      forall k | 0 <= k < |raw| - 2 ensures Len(raw, k) >= z.minFrag {
        if k > 0 { assert Len(rest, k - 1) >= z.minFrag; }
      }
    }
  }

  lemma {:induction false} LastMerged(z: Sizes, cuts: seq<int>, n: int, i: nat)
    requires CutsOk(cuts, n) && 1 <= i && AllWithin(z, cuts) && 0 <= z.minTail && z.minFrag <= z.minTail + 1
    requires forall k :: 0 <= k < |cuts| - 2 ==> Len(cuts, k) >= z.minFrag
    ensures UpTo(MergeFragments(z, cuts, i), z.maxSeg + z.minTail, z.maxSeg)
    decreases |cuts| - i
  {
    if i < |cuts| - 1 {
      if Len(cuts, i) < z.minFrag {
        var r := Pop(cuts, i);
        assert i == |cuts| - 2 && MergeFragments(z, r, i) == r;
        forall k | 0 <= k < |r| - 1 ensures Len(r, k) <= if k == |r| - 2 then z.maxSeg + z.minTail else z.maxSeg {
          PopLengths(cuts, i, k);
        }
      } else {
        LastMerged(z, cuts, n, i + 1);
      }
    }
  }

  lemma BoundedSuffices(z: Sizes, cand: seq<int>, n: int)
    requires SizesOk(z) && Bounded(z) && n > z.maxSeg
    ensures var cuts := FinalCuts(z, cand, n); UpTo(cuts, z.maxSeg + z.minTail, z.maxSeg + z.minTail)
  {
    var raw := RawCuts(z, cand, n, 0);
    RawCutsOk(z, cand, n, 0);
    GreedyChoice(z, cand, n, 0);
    MergedOk(z, raw, n, 1);
    if z.minFrag <= z.minSeg {
      OnlyLastShort(z, cand, n, 0);
      LastMerged(z, raw, n, 1);
      TailStaysWithin(z, MergeFragments(z, raw, 1), n);
    } else if z.minFrag <= 2 {
      assert forall k :: 0 <= k < |raw| - 1 ==> Absorbed(z, raw, k);
      FragmentsMerged(z, raw, n, 1);
      var merged := MergeFragments(z, raw, 1);
      forall k | 0 <= k < |merged| - 1 ensures Len(merged, k) <= z.maxSeg + 1 <= z.maxSeg + z.minTail {
        assert Absorbed(z, merged, k);
      }
      TailStaysWithin(z, merged, n);
    } else {
      SegmentLengths(z, cand, n);
    }
  }

  /** One segment: everything was merged into the first. */
  ghost predicate AllInOne(z: Sizes, cand: seq<int>, n: int)
    requires SizesOk(z)
  {
    FinalCuts(z, cand, n) == [0, n] && n > z.maxSeg + z.minTail
  }

  lemma {:induction false} AllFragments(z: Sizes, cuts: seq<int>, n: int)
    requires CutsOk(cuts, n) && forall k :: 1 <= k < |cuts| - 1 ==> Len(cuts, k) < z.minFrag
    ensures MergeFragments(z, cuts, 1) == [0, n]
    decreases |cuts|
  {
    if |cuts| > 2 {
      var r := Pop(cuts, 1);
      PopKeepsCuts(cuts, n, 1);
      forall k | 1 <= k < |r| - 1 ensures Len(r, k) < z.minFrag {
        assert Len(cuts, k + 1) < z.minFrag;
      }
      AllFragments(z, r, n);
      assert Len(cuts, 1) < z.minFrag;
    } else {
      assert cuts == [0, n];
    }
  }

  lemma {:induction false} AllTail(z: Sizes, cuts: seq<int>, n: int)
    requires CutsOk(cuts, n) && n - cuts[1] < z.minTail
    ensures MergeTail(z, cuts) == [0, n]
    decreases |cuts|
  {
    if |cuts| > 2 {
      CutsInRange(cuts, n);
      var r := Pop(cuts, |cuts| - 2);
      PopKeepsCuts(cuts, n, |cuts| - 2);
      AllTail(z, r, n);
    }
  }

  /** Merging fragments does not move the end of the first segment back. */
  lemma {:induction false} FirstCutMovesOn(z: Sizes, cuts: seq<int>, n: int, i: nat)
    requires CutsOk(cuts, n) && 1 <= i
    ensures var r := MergeFragments(z, cuts, i); |r| >= 2 && r[1] >= cuts[1]
    decreases |cuts|, |cuts| - i
  {
    if i < |cuts| - 1 {
      PopKeepsCuts(cuts, n, i);
      if Len(cuts, i) < z.minFrag {
        FirstCutMovesOn(z, Pop(cuts, i), n, i);
      } else {
        FirstCutMovesOn(z, cuts, n, i + 1);
      }
    }
  }

  /** A hard cut, a fragment of the greatest length, and n - c2 samples more. */
  lemma FragmentAfterHardCut(z: Sizes, n: int)
    requires SizesOk(z) && z.minSeg < z.minFrag <= z.maxSeg && n > 2 * z.maxSeg
    ensures var (c1, c2) := (z.maxSeg, z.maxSeg + z.minFrag - 1);
      RawCuts(z, [c2], n, 0) == [0, c1] + RawCuts(z, [c2], n, c2)
  {
    var c1, c2 := z.maxSeg, z.maxSeg + z.minFrag - 1;
    var cand := [c2];
    assert cand[0] == c2 && !InWindow(z, 0, c2) && InWindow(z, c1, c2);
    assert NextCut(z, cand, 0) == c1 && NextCut(z, cand, c1) == c2;
    assert RawCuts(z, cand, n, c1) == [c1] + RawCuts(z, cand, n, c2);
    assert RawCuts(z, cand, n, 0) == [0] + RawCuts(z, cand, n, c1);
  }

  /** Segments that all are fragments. */
  lemma TooLongByHardCuts(z: Sizes) returns (n: nat)
    requires SizesOk(z) && 0 <= z.minTail && z.maxSeg < z.minFrag
    ensures n > z.maxSeg && AllInOne(z, [], n)
  {
    n := z.maxSeg + z.minTail + 1;
    var raw := RawCuts(z, [], n, 0);
    RawCutsOk(z, [], n, 0);
    GreedyChoice(z, [], n, 0);
    forall k | 1 <= k < |raw| - 1 ensures Len(raw, k) < z.minFrag { assert Len(raw, k) <= z.maxSeg; }
    AllFragments(z, raw, n);
  }

  /** A last fragment longer than minTail. */
  lemma TooLongByLast(z: Sizes) returns (n: nat)
    requires SizesOk(z) && 0 <= z.minTail && z.minTail + 1 < z.minFrag <= z.maxSeg
    ensures n > z.maxSeg && AllInOne(z, [], n)
  {
    n := z.maxSeg + z.minFrag - 1;
    assert NextCut(z, [], 0) == z.maxSeg;
    assert RawCuts(z, [], n, z.maxSeg) == [z.maxSeg, n];
    assert RawCuts(z, [], n, 0) == [0, z.maxSeg, n];
    AllFragments(z, [0, z.maxSeg, n], n);
  }

  /** A maximal segment that absorbs two fragments. */
  lemma TooLongByTwo(z: Sizes) returns (n: nat)
    requires SizesOk(z) && 0 <= z.minTail && z.minSeg < z.minFrag <= z.maxSeg
    requires !Spaced(z) && z.minFrag + z.minTail <= z.maxSeg + 2
    ensures n > z.maxSeg && AllInOne(z, [z.maxSeg + z.minFrag - 1], n)
  {
    var c2 := z.maxSeg + z.minFrag - 1;
    n := c2 + z.minFrag - 1;
    FragmentAfterHardCut(z, n);
    assert RawCuts(z, [c2], n, c2) == [c2, n];
    AllFragments(z, [0, z.maxSeg, c2, n], n);
    assert [0, z.maxSeg] + [c2, n] == [0, z.maxSeg, c2, n];
  }

  /** A first fragment, and what follows it, end up in the first segment. */
  lemma FirstAbsorbsRest(z: Sizes, raw: seq<int>, n: int)
    requires CutsOk(raw, n) && |raw| >= 4 && Len(raw, 1) < z.minFrag && n - raw[2] < z.minTail
    ensures MergeTail(z, MergeFragments(z, raw, 1)) == [0, n]
  {
    var r := Pop(raw, 1);
    PopKeepsCuts(raw, n, 1);
    FirstCutMovesOn(z, r, n, 1);
    MergedOk(z, r, n, 1);
    AllTail(z, MergeFragments(z, r, 1), n);
  }

  /** A maximal segment that absorbs a fragment and then a tail of the greatest length. */
  lemma TooLongByTail(z: Sizes) returns (n: nat)
    requires SizesOk(z) && z.minSeg < z.minFrag <= z.maxSeg && 3 <= z.minFrag <= z.minTail + 1
    requires z.minFrag + z.minTail > z.maxSeg + 2
    ensures n > z.maxSeg && AllInOne(z, [z.maxSeg + z.minFrag - 1], n)
  {
    var c2 := z.maxSeg + z.minFrag - 1;
    n := c2 + z.minTail - 1;
    var raw := RawCuts(z, [c2], n, 0);
    FragmentAfterHardCut(z, n);
    RawCutsOk(z, [c2], n, c2);
    RawCutsOk(z, [c2], n, 0);
    assert raw[1] == z.maxSeg && raw[2] == c2;
    FirstAbsorbsRest(z, raw, n);
  }

  /** Two hard cuts and no tail merge at all. */
  lemma NegativeTail(z: Sizes)
    requires SizesOk(z) && z.minTail < 0
    ensures var cuts := FinalCuts(z, [], 2 * z.maxSeg); |cuts| >= 2 && Len(cuts, 0) > z.maxSeg + z.minTail
  {
    var c, n := z.maxSeg, 2 * z.maxSeg;
    assert NextCut(z, [], 0) == c;
    assert RawCuts(z, [], n, c) == [c, n];
    assert RawCuts(z, [], n, 0) == [0, c, n];
    assert Pop([0, c, n], 1) == [0, n];
    assert MergeFragments(z, [0, n], 1) == [0, n] && MergeFragments(z, [0, c, n], 2) == [0, c, n];
  }

  /** The documented bound maxSeg + minTail holds for all audio and candidates exactly when the
      sizes are Bounded, whatever they are. */
  lemma BoundIffBounded(z: Sizes)
    requires SizesOk(z)
    ensures BoundHolds(z) <==> Bounded(z)
  {
    if Bounded(z) {
      forall cand: seq<int>, n: nat | n > z.maxSeg
        ensures forall k :: 0 <= k < |FinalCuts(z, cand, n)| - 1 ==> Len(FinalCuts(z, cand, n), k) <= z.maxSeg + z.minTail
      {
        BoundedSuffices(z, cand, n);
      }
    } else if z.minTail < 0 {
      NegativeTail(z);
    } else {
      var cand, n := TooLong(z);
      assert Len(FinalCuts(z, cand, n), 0) == n;
    }
  }

  /** Otherwise there is audio that ends up in one segment beyond the bound. */
  lemma TooLong(z: Sizes) returns (cand: seq<int>, n: nat)
    requires SizesOk(z) && 0 <= z.minTail && !Bounded(z)
    ensures n > z.maxSeg && AllInOne(z, cand, n)
  {
    if z.maxSeg < z.minFrag {
      cand := [];
      n := TooLongByHardCuts(z);
    } else if z.minTail + 1 < z.minFrag {
      cand := [];
      n := TooLongByLast(z);
    } else {
      cand := [z.maxSeg + z.minFrag - 1];
      if z.minFrag + z.minTail > z.maxSeg + 2 {
        n := TooLongByTail(z);
      } else {
        n := TooLongByTwo(z);
      }
    }
  }

  // ------------------------------------------------------------------
  // Candidates: the middle of every long enough silence
  // ------------------------------------------------------------------

  ghost predicate Silence(silent: seq<bool>, a: nat, b: nat) {
    && a < b <= |silent| && (forall k :: a <= k < b ==> silent[k])
    && (a > 0 ==> !silent[a - 1]) && (b < |silent| ==> !silent[b])
  }

  function Middle(a: nat, b: nat, frameLen: nat): nat { (a + b) / 2 * frameLen }

  /** A candidate is the first sample of a silent frame, as far from the beginning of the silence
      as from its end, give or take a frame. */
  lemma MiddleIsCentral(silent: seq<bool>, a: nat, b: nat, frameLen: nat)
    requires Silence(silent, a, b) && frameLen > 0
    ensures var f := Middle(a, b, frameLen) / frameLen;
      && Middle(a, b, frameLen) == f * frameLen && a <= f < b && silent[f] && b - f - 1 <= f - a <= b - f
  {
    QuotientUnique(Middle(a, b, frameLen), frameLen, (a + b) / 2, 0);
  }

  /** Candidates of the silences that end at or before frame upto. */
  ghost predicate CandidatesOk(silent: seq<bool>, minRun: nat, frameLen: nat, upto: nat, cand: seq<int>) {
    && (forall k :: 0 <= k < |cand| ==> MiddleOfSilence(silent, minRun, frameLen, upto, cand[k]))
    && (forall a: nat, b: nat :: Silence(silent, a, b) && b <= upto && b - a >= minRun ==> Middle(a, b, frameLen) in cand)
  }

  function WithRun(cand: seq<int>, minRun: nat, frameLen: nat, a: nat, b: nat): seq<int> {
    if b - a >= minRun then cand + [Middle(a, b, frameLen)] else cand
  }

  lemma SilenceUnique(silent: seq<bool>, a: nat, b: nat, c: nat, e: nat)
    requires Silence(silent, a, b) && Silence(silent, c, e) && a < e <= b
    ensures a == c && b == e
  {
    if e < b { assert false; }
    if c < a { assert false; }
    if a < c { assert false; }
  }

  ghost predicate MiddleOfSilence(silent: seq<bool>, minRun: nat, frameLen: nat, upto: nat, x: int) {
    exists a: nat, b: nat :: Silence(silent, a, b) && b <= upto && b - a >= minRun && x == Middle(a, b, frameLen)
  }

  lemma RunCloses(silent: seq<bool>, minRun: nat, frameLen: nat, a: nat, b: nat, cand: seq<int>)
    requires Silence(silent, a, b) && CandidatesOk(silent, minRun, frameLen, a, cand)
    ensures CandidatesOk(silent, minRun, frameLen, b, WithRun(cand, minRun, frameLen, a, b))
  {
    var cand1 := WithRun(cand, minRun, frameLen, a, b);
    forall k | 0 <= k < |cand1| ensures MiddleOfSilence(silent, minRun, frameLen, b, cand1[k]) {
      if k < |cand| { assert MiddleOfSilence(silent, minRun, frameLen, a, cand[k]); }
    }
    forall c: nat, e: nat | Silence(silent, c, e) && e <= b && e - c >= minRun ensures Middle(c, e, frameLen) in cand1 {
      if e > a {
        SilenceUnique(silent, a, b, c, e);
        assert cand1[|cand|] == Middle(a, b, frameLen);
      } else {
        assert Middle(c, e, frameLen) in cand;
      }
    }
  }

  lemma LoudFrame(silent: seq<bool>, minRun: nat, frameLen: nat, i: nat, cand: seq<int>)
    requires i < |silent| && !silent[i] && CandidatesOk(silent, minRun, frameLen, i, cand)
    ensures CandidatesOk(silent, minRun, frameLen, i + 1, cand)
  {
    forall k | 0 <= k < |cand| ensures MiddleOfSilence(silent, minRun, frameLen, i + 1, cand[k]) {
      assert MiddleOfSilence(silent, minRun, frameLen, i, cand[k]);
    }
  }

  method FindCandidates(silent: seq<bool>, minRun: nat, frameLen: nat) returns (cand: seq<int>)
    ensures CandidatesOk(silent, minRun, frameLen, |silent|, cand)
  {
    cand := [];
    var runStart: Option<nat> := None;
    for i := 0 to |silent|
      invariant runStart.None? ==> i == 0 || !silent[i - 1]
      invariant runStart.Some? ==> var a := runStart.value;
        a < i && (a > 0 ==> !silent[a - 1]) && forall k :: a <= k < i ==> silent[k]
      invariant CandidatesOk(silent, minRun, frameLen, if runStart.Some? then runStart.value else i, cand)
    {
      if silent[i] {
        if runStart.None? {
          runStart := Some(i);
        }
      } else {
        if runStart.Some? {
          RunCloses(silent, minRun, frameLen, runStart.value, i, cand);
        }
        if runStart.Some? && i - runStart.value >= minRun {
          cand := cand + [Middle(runStart.value, i, frameLen)];
        }
        LoudFrame(silent, minRun, frameLen, i, cand);
        runStart := None;
      }
    }
    if runStart.Some? {
      RunCloses(silent, minRun, frameLen, runStart.value, |silent|, cand);
    }
    if runStart.Some? && |silent| - runStart.value >= minRun {
      cand := cand + [Middle(runStart.value, |silent|, frameLen)];
    }
  }

  lemma FrameInRange(n: nat, frameLen: nat, i: nat)
    requires frameLen > 0 && i < n / frameLen
    ensures i * frameLen + frameLen <= n
  {
    assert (i + 1) * frameLen <= n / frameLen * frameLen;
  }

  function Frame<T>(audio: seq<T>, frameLen: nat, i: nat): seq<T>
    requires frameLen > 0 && i < |audio| / frameLen
  {
    FrameInRange(|audio|, frameLen, i);
    audio[i * frameLen..i * frameLen + frameLen]
  }

  function SilentFrames<T>(audio: seq<T>, frameLen: nat, isSilent: seq<T> -> bool): seq<bool>
    requires frameLen > 0
  {
    seq(|audio| / frameLen, i requires 0 <= i < |audio| / frameLen => isSilent(Frame(audio, frameLen, i)))
  }

  ghost predicate CutAt<T>(audio: seq<T>, z: Sizes, frameLen: nat, minRun: nat, isSilent: seq<T> -> bool,
                           cand: seq<int>, segments: seq<seq<T>>)
    requires SizesOk(z) && frameLen > 0
  {
    && CandidatesOk(SilentFrames(audio, frameLen, isSilent), minRun, frameLen, |SilentFrames(audio, frameLen, isSilent)|, cand)
    && CutsOk(FinalCuts(z, cand, |audio|), |audio|) && segments == Segments(audio, FinalCuts(z, cand, |audio|))
  }

  lemma PiecesConcatenate<T>(audio: seq<T>, cuts: seq<int>, segments: seq<seq<T>>)
    requires CutsOk(cuts, |audio|) && segments == Segments(audio, cuts)
    ensures Concat(segments) == audio
  {
    CutsInRange(cuts, |audio|);
    SegmentsConcatenate(audio, cuts, |cuts| - 1);
    assert segments[..|cuts| - 1] == segments && audio[..cuts[|cuts| - 1]] == audio;
  }

  lemma PiecesBounded<T>(audio: seq<T>, z: Sizes, cand: seq<int>, segments: seq<seq<T>>)
    requires SizesOk(z) && Bounded(z) && |audio| > z.maxSeg
    requires CutsOk(FinalCuts(z, cand, |audio|), |audio|) && segments == Segments(audio, FinalCuts(z, cand, |audio|))
    ensures forall k :: 0 <= k < |segments| ==> |segments[k]| <= z.maxSeg + z.minTail
  {
    var cuts := FinalCuts(z, cand, |audio|);
    CutsInRange(cuts, |audio|);
    BoundedSuffices(z, cand, |audio|);
    forall k | 0 <= k < |segments| ensures |segments[k]| <= z.maxSeg + z.minTail {
      assert |segments[k]| == Len(cuts, k);
    }
  }

  /** There is no frame exactly when the audio is shorter than one. */
  lemma NoFrame<T>(audio: seq<T>, frameLen: nat, isSilent: seq<T> -> bool)
    requires frameLen > 0
    ensures |SilentFrames(audio, frameLen, isSilent)| == 0 <==> |audio| < frameLen
  {
    var n := |audio|;
    QuotientUnique(n, frameLen, n / frameLen, n % frameLen);
    if n < frameLen { QuotientUnique(n, frameLen, 0, n); }
  }

  /** Cutting long audio, whatever the candidates. */
  method CutAtCandidates<T>(audio: seq<T>, cand: seq<int>, z: Sizes) returns (segments: seq<seq<T>>)
    requires SizesOk(z) && |audio| > z.maxSeg
    ensures CutsOk(FinalCuts(z, cand, |audio|), |audio|) && segments == Segments(audio, FinalCuts(z, cand, |audio|))
    ensures Concat(segments) == audio
    ensures Bounded(z) ==> forall k :: 0 <= k < |segments| ==> |segments[k]| <= z.maxSeg + z.minTail
  {
    segments := PickCuts(audio, cand, z);
    PiecesConcatenate(audio, FinalCuts(z, cand, |audio|), segments);
    if Bounded(z) { PiecesBounded(audio, z, cand, segments); }
  }

  /** Both splitters, with what they take for silence as a parameter. */
  method SplitAtSilence<T>(audio: seq<T>, z: Sizes, frameLen: nat, minRun: nat, isSilent: seq<T> -> bool)
    returns (segments: seq<seq<T>>)
    requires SizesOk(z) && frameLen > 0
    ensures Concat(segments) == audio
    ensures Bounded(z) && (|audio| <= z.maxSeg || |audio| >= frameLen) ==>
      (forall k :: 0 <= k < |segments| ==> |segments[k]| <= z.maxSeg + z.minTail)
    ensures |audio| > z.maxSeg && |audio| >= frameLen ==> (exists cand :: CutAt(audio, z, frameLen, minRun, isSilent, cand, segments))
  {
    var silent := SilentFrames(audio, frameLen, isSilent);
    NoFrame(audio, frameLen, isSilent);
    if |audio| <= z.maxSeg || |silent| == 0 {
      assert Concat([audio]) == Concat([]) + audio;
      return [audio];
    }
    var cand := FindCandidates(silent, minRun, frameLen);
    segments := CutAtCandidates(audio, cand, z);
    assert CutAt(audio, z, frameLen, minRun, isSilent, cand, segments);
  }
}
