/** Keeping one element of every run that is long enough. */
module Runs {

  /** How many elements in front are the same as the first. */
  function RunLength<T>(xs: seq<T>, same: (T, T) -> bool): (r: nat)
    ensures xs == [] <==> r == 0
    ensures r <= |xs|
  {
    if |xs| <= 1 then |xs|
    else if same(xs[0], xs[1]) then 1 + RunLength(xs[1..], same)
    else 1
  }

  /** A run that is over: one of it, or all of it. */
  function Cut<T>(run: seq<T>, enough: (nat, T) -> bool): seq<T> {
    if run != [] && enough(|run|, run[0]) then [run[0]] else run
  }

  function Collapsed<T>(xs: seq<T>, same: (T, T) -> bool, enough: (nat, T) -> bool): seq<T> {
    if xs == [] then []
    else
      var n := RunLength(xs, same);
      Cut(xs[..n], enough) + Collapsed(xs[n..], same, enough)
  }

  /** Symmetric and transitive; an element need not be the same as itself. */
  ghost predicate Sameness<T(!new)>(same: (T, T) -> bool) {
    && (forall a, b :: same(a, b) ==> same(b, a))
    && (forall a, b, c :: same(a, b) && same(b, c) ==> same(a, c))
  }

  ghost predicate IsRun<T>(xs: seq<T>, same: (T, T) -> bool) {
    xs != [] && forall k :: 0 < k < |xs| ==> same(xs[0], xs[k])
  }

  /** The run in front is as long as can be. */
  lemma {:induction false} RunLengthIs<T(!new)>(xs: seq<T>, same: (T, T) -> bool)
    requires xs != [] && Sameness(same)
    ensures var n := RunLength(xs, same);
      IsRun(xs[..n], same) && (n < |xs| ==> !same(xs[0], xs[n]))
  {
    if |xs| > 1 && same(xs[0], xs[1]) {
      var rest, n := xs[1..], RunLength(xs, same);
      RunLengthIs(rest, same);
      assert forall k :: 1 < k < n ==> rest[..n - 1][k - 1] == xs[k];
      assert n < |xs| ==> rest[n - 1] == xs[n];
    }
  }

  lemma {:induction false} RunLengthUnique<T(!new)>(xs: seq<T>, same: (T, T) -> bool, n: nat)
    requires Sameness(same) && 0 < n <= |xs| && IsRun(xs[..n], same) && (n < |xs| ==> !same(xs[0], xs[n]))
    ensures RunLength(xs, same) == n
    decreases n
  {
    if n > 1 {
      var rest := xs[1..];
      assert same(xs[0], xs[..n][1]);
      assert forall k {:trigger rest[..n - 1][k]} :: 0 < k < n - 1 ==> rest[..n - 1][k] == xs[..n][k + 1];
      RunLengthUnique(rest, same, n - 1);
    }
  }

  lemma RunEnds<T(!new)>(run: seq<T>, rest: seq<T>, same: (T, T) -> bool, enough: (nat, T) -> bool)
    requires Sameness(same) && IsRun(run, same) && (rest != [] ==> !same(run[0], rest[0]))
    ensures RunLength(run + rest, same) == |run|
    ensures Collapsed(run + rest, same, enough) == Cut(run, enough) + Collapsed(rest, same, enough)
  {
    assert (run + rest)[..|run|] == run && (run + rest)[|run|..] == rest;
    RunLengthUnique(run + rest, same, |run|);
  }

  /** A run in front, and what is left of it, against the rest and what is left of that. */
  lemma Split<T(!new)>(xs: seq<T>, same: (T, T) -> bool) returns (run: seq<T>, rest: seq<T>)
    requires xs != [] && Sameness(same)
    ensures xs == run + rest && |run| == RunLength(xs, same) && IsRun(run, same)
    ensures rest == xs[|run|..] && |rest| < |xs| && (rest != [] ==> !same(run[0], rest[0]))
  {
    RunLengthIs(xs, same);
    run, rest := xs[..RunLength(xs, same)], xs[RunLength(xs, same)..];
  }

  lemma {:induction false} FirstStays<T(!new)>(xs: seq<T>, same: (T, T) -> bool, enough: (nat, T) -> bool)
    requires xs != []
    ensures Collapsed(xs, same, enough) != [] && Collapsed(xs, same, enough)[0] == xs[0]
  {
    assert xs[..RunLength(xs, same)][0] == xs[0];
  }

  /** The rest's first element stays first, so the cut run ends where it did. */
  lemma CutRunEnds<T(!new)>(run: seq<T>, rest: seq<T>, same: (T, T) -> bool, enough: (nat, T) -> bool)
    requires Sameness(same) && IsRun(run, same) && (rest != [] ==> !same(run[0], rest[0]))
    ensures var (cut, left) := (Cut(run, enough), Collapsed(rest, same, enough));
      && RunLength(cut + left, same) == |cut|
      && Collapsed(cut + left, same, enough) == Cut(cut, enough) + Collapsed(left, same, enough)
  {
    if rest != [] { FirstStays(rest, same, enough); }
    RunEnds(Cut(run, enough), Collapsed(rest, same, enough), same, enough);
  }

  /** No run of the result is cut again. */
  lemma {:induction false} CollapsedTwice<T(!new)>(xs: seq<T>, same: (T, T) -> bool, enough: (nat, T) -> bool)
    requires Sameness(same) && forall x :: !enough(1, x)
    ensures Collapsed(Collapsed(xs, same, enough), same, enough) == Collapsed(xs, same, enough)
    decreases |xs|
  {
    if xs != [] {
      var run, rest := Split(xs, same);
      CollapsedTwice(rest, same, enough);
      CutRunEnds(run, rest, same, enough);
      RunEnds(run, rest, same, enough);
    }
  }

  predicate NoLongRun<T>(xs: seq<T>, same: (T, T) -> bool, enough: (nat, T) -> bool) {
    xs != [] ==> !enough(RunLength(xs, same), xs[0]) && NoLongRun(xs[RunLength(xs, same)..], same, enough)
  }

  /** Nothing is cut exactly when no run is long enough. */
  lemma {:induction false} UnchangedExactlyWhen<T(!new)>(xs: seq<T>, same: (T, T) -> bool, enough: (nat, T) -> bool)
    requires Sameness(same) && forall x :: !enough(1, x)
    ensures |Collapsed(xs, same, enough)| <= |xs|
    ensures Collapsed(xs, same, enough) == xs <==> NoLongRun(xs, same, enough)
    decreases |xs|
  {
    if xs != [] {
      var run, rest := Split(xs, same);
      var left := Collapsed(rest, same, enough);
      RunEnds(run, rest, same, enough);
      UnchangedExactlyWhen(rest, same, enough);
      if !enough(|run|, run[0]) { assert (run + left)[|run|..] == left; }
    }
  }

  /** One element of each run. */
  function Heads<T>(xs: seq<T>, same: (T, T) -> bool): seq<T> {
    if xs == [] then [] else [xs[0]] + Heads(xs[RunLength(xs, same)..], same)
  }

  /** Every run keeps at least its first element, in order. */
  lemma {:induction false} HeadsStay<T(!new)>(xs: seq<T>, same: (T, T) -> bool, enough: (nat, T) -> bool)
    requires Sameness(same)
    ensures Heads(Collapsed(xs, same, enough), same) == Heads(xs, same)
    decreases |xs|
  {
    if xs != [] {
      var run, rest := Split(xs, same);
      var cut, left := Cut(run, enough), Collapsed(rest, same, enough);
      HeadsStay(rest, same, enough);
      CutRunEnds(run, rest, same, enough);
      RunEnds(run, rest, same, enough);
      assert (cut + left)[|cut|..] == left && (cut + left)[0] == xs[0];
    }
  }

  /** What is done, the current run, and what is still to come. */
  ghost predicate Progress<T>(xs: seq<T>, done: seq<T>, run: seq<T>, rest: seq<T>,
                              same: (T, T) -> bool, enough: (nat, T) -> bool)
  {
    && (run == [] || IsRun(run, same))
    && Collapsed(xs, same, enough) == done + Collapsed(run + rest, same, enough)
  }

  lemma RunOver<T(!new)>(xs: seq<T>, done: seq<T>, run: seq<T>, rest: seq<T>,
                         same: (T, T) -> bool, enough: (nat, T) -> bool)
    requires Progress(xs, done, run, rest, same, enough) && Sameness(same)
    requires run != [] && rest != [] ==> !same(run[0], rest[0])
    ensures Collapsed(xs, same, enough) == (done + Cut(run, enough)) + Collapsed(rest, same, enough)
  {
    if run == [] {
      assert [] + rest == rest && done + [] == done;
    } else {
      RunEnds(run, rest, same, enough);
    }
  }

  lemma Extend<T(!new)>(xs: seq<T>, done: seq<T>, run: seq<T>, rest: seq<T>, same: (T, T) -> bool, enough: (nat, T) -> bool)
    requires Progress(xs, done, run, rest, same, enough) && Sameness(same)
    requires run != [] && rest != [] && same(run[|run| - 1], rest[0])
    ensures Progress(xs, done, run + [rest[0]], rest[1..], same, enough)
  {
    assert |run| > 1 ==> same(run[0], run[|run| - 1]);
    assert run + rest == run + [rest[0]] + rest[1..];
  }

  lemma Restart<T(!new)>(xs: seq<T>, done: seq<T>, run: seq<T>, rest: seq<T>, same: (T, T) -> bool, enough: (nat, T) -> bool)
    requires Progress(xs, done, run, rest, same, enough) && Sameness(same) && rest != []
    requires run != [] ==> !same(run[|run| - 1], rest[0])
    ensures Progress(xs, done + Cut(run, enough), [rest[0]], rest[1..], same, enough)
  {
    assert |run| > 1 ==> same(run[0], run[|run| - 1]);
    RunOver(xs, done, run, rest, same, enough);
    assert [rest[0]] + rest[1..] == rest;
  }

  /** `del kept[run_start + 1:]` for a run that is long enough. */
  method TrimRun<T>(kept: seq<T>, runStart: nat, enough: (nat, T) -> bool)
      returns (now: seq<T>, dropped: nat)
    requires (kept == [] && runStart == 0) || runStart < |kept|
    ensures now == kept[..runStart] + Cut(kept[runStart..], enough) && |now| + dropped == |kept|
  {
    now, dropped := kept, 0;
    assert kept == kept[..runStart] + kept[runStart..];
    var runLen := |kept| - runStart;
    if kept != [] && enough(runLen, kept[runStart]) {
      assert kept[..runStart + 1] == kept[..runStart] + [kept[runStart]];
      now := kept[..runStart + 1];
      dropped := runLen - 1;
    }
  }

  ghost predicate Reached<T>(xs: seq<T>, i: nat, kept: seq<T>, runStart: nat, same: (T, T) -> bool, enough: (nat, T) -> bool) {
    && i <= |xs|
    && ((i == 0 && kept == [] && runStart == 0) || runStart < |kept|)
    && Progress(xs, kept[..runStart], kept[runStart..], xs[i..], same, enough)
  }

  lemma SameAgain<T(!new)>(xs: seq<T>, i: nat, kept: seq<T>, runStart: nat, same: (T, T) -> bool, enough: (nat, T) -> bool)
    requires Reached(xs, i, kept, runStart, same, enough) && Sameness(same) && i < |xs|
    requires kept != [] && same(kept[|kept| - 1], xs[i])
    ensures Reached(xs, i + 1, kept + [xs[i]], runStart, same, enough)
  {
    var done, run, now := kept[..runStart], kept[runStart..], kept + [xs[i]];
    Extend(xs, done, run, xs[i..], same, enough);
    assert xs[i..][1..] == xs[i + 1..];
    assert now[..runStart] == done && now[runStart..] == run + [xs[i]];
  }

  lemma AnotherRun<T(!new)>(xs: seq<T>, i: nat, kept: seq<T>, runStart: nat, trimmed: seq<T>,
                            same: (T, T) -> bool, enough: (nat, T) -> bool)
    requires Reached(xs, i, kept, runStart, same, enough) && Sameness(same) && i < |xs|
    requires kept != [] ==> !same(kept[|kept| - 1], xs[i])
    requires trimmed == kept[..runStart] + Cut(kept[runStart..], enough)
    ensures Reached(xs, i + 1, trimmed + [xs[i]], |trimmed|, same, enough)
  {
    var done, run, now := kept[..runStart], kept[runStart..], trimmed + [xs[i]];
    Restart(xs, done, run, xs[i..], same, enough);
    assert xs[i..][1..] == xs[i + 1..];
    assert now[..|trimmed|] == trimmed && now[|trimmed|..] == [xs[i]];
  }

  lemma NothingYet<T>(xs: seq<T>, same: (T, T) -> bool, enough: (nat, T) -> bool)
    ensures Reached(xs, 0, [], 0, same, enough)
  {
    var none: seq<T> := [];
    assert none[..0] == none && none[0..] == none && none + (none + xs[0..]) == xs && none + xs[0..] == xs;
    assert none + Collapsed(xs, same, enough) == Collapsed(xs, same, enough);
  }

  lemma AllDone<T(!new)>(xs: seq<T>, kept: seq<T>, runStart: nat, same: (T, T) -> bool, enough: (nat, T) -> bool)
    requires Reached(xs, |xs|, kept, runStart, same, enough) && Sameness(same)
    ensures Collapsed(xs, same, enough) == kept[..runStart] + Cut(kept[runStart..], enough)
  {
    assert xs[|xs|..] == [];
    RunOver(xs, kept[..runStart], kept[runStart..], [], same, enough);
  }

  /** The pass: `runStart` is where the current run begins in what is kept. */
  method CollapseRuns<T(!new)>(xs: seq<T>, same: (T, T) -> bool, enough: (nat, T) -> bool)
      returns (kept: seq<T>, dropped: nat)
    requires Sameness(same)
    ensures kept == Collapsed(xs, same, enough) && |kept| + dropped == |xs|
  {
    kept, dropped := [], 0;
    var runStart := 0;
    NothingYet(xs, same, enough);
    for i := 0 to |xs|
      invariant runStart >= 0 && Reached(xs, i, kept, runStart, same, enough) && |kept| + dropped == i
    {
      if kept != [] && same(kept[|kept| - 1], xs[i]) {
        SameAgain(xs, i, kept, runStart, same, enough);
        kept := kept + [xs[i]];
      } else {
        var now, gone := TrimRun(kept, runStart, enough);
        AnotherRun(xs, i, kept, runStart, now, same, enough);
        kept := now + [xs[i]];
        dropped := dropped + gone;
        runStart := |kept| - 1;
        assert runStart == |now|;
      }
    }
    AllDone(xs, kept, runStart, same, enough);
    var now, gone := TrimRun(kept, runStart, enough);
    kept := now;
    dropped := dropped + gone;
  }
}
