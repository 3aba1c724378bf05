/**
 The three searches for repeated units of degenerate.py: from the front, at the end, and in
 the middle.  A unit is a word or a character; the searches only compare units.
 */
module Periods {
  import opened Common

  const MIN_TAIL_REPEATS := 6
  const MIN_TAIL_REPEATS_SINGLE_CHAR := 12
  const LONG_UNIT_WORDS := 6
  const MIN_REPEATS_LONG_UNIT := 3
  const MAX_PERIOD_UNIT_LEN := 256
  const MAX_TAIL_SCAN_UNITS := 2048
  const MIN_INTERIOR_REPEATS := 6
  const MIN_INTERIOR_REPEATS_SINGLE := 20
  const MAX_INTERIOR_UNIT_LEN := 12

  /** How many copies a unit needs; `single` is for one symbol, alone or repeated. */
  datatype Bar = Bar(repeats: nat, single: Option<nat>)

  /** A repeated stretch is never collapsed for two copies alone. */
  predicate BarOk(bar: Bar) { bar.repeats >= 3 && (bar.single.Some? ==> bar.single.value >= 3) }

  const TAIL_BAR: Bar := Bar(MIN_TAIL_REPEATS, Some(MIN_TAIL_REPEATS_SINGLE_CHAR))
  const INTERIOR_BAR: Bar := Bar(MIN_INTERIOR_REPEATS, Some(MIN_INTERIOR_REPEATS_SINGLE))

  predicate IsUniform<T(==)>(unit: seq<T>) { unit != [] && forall k :: 0 <= k < |unit| ==> unit[k] == unit[0] }

  function RepeatsNeeded<T(==)>(unit: seq<T>, bar: Bar): nat {
    if bar.single.Some? && bar.single.value > 0 && (|unit| == 1 || IsUniform(unit)) then bar.single.value
    else if |unit| >= LONG_UNIT_WORDS then Min(bar.repeats, MIN_REPEATS_LONG_UNIT)
    else bar.repeats
  }

  // ------------------------------------------------------------------
  // Copies
  // ------------------------------------------------------------------

  function Repeat<T>(u: seq<T>, k: nat): seq<T> { if k == 0 then [] else u + Repeat(u, k - 1) }

  /** How many copies of u stand side by side from position i on. */
  function CopiesFrom<T(==)>(s: seq<T>, u: seq<T>, i: nat): nat
    requires u != []
    decreases |s| - i
  {
    if i + |u| <= |s| && s[i..i + |u|] == u then 1 + CopiesFrom(s, u, i + |u|) else 0
  }

  /** How many copies of u stand side by side up to position end. */
  function CopiesUpTo<T(==)>(s: seq<T>, u: seq<T>, end: nat): nat
    requires u != [] && end <= |s|
    decreases end
  {
    if end >= |u| && s[end - |u|..end] == u then 1 + CopiesUpTo(s, u, end - |u|) else 0
  }

  lemma {:induction false} RepeatSnoc<T>(u: seq<T>, k: nat)
    ensures Repeat(u, k + 1) == Repeat(u, k) + u
  {
    if k == 0 {
      assert u + [] == [] + u;
    } else {
      RepeatSnoc(u, k - 1);
      assert u + (Repeat(u, k - 1) + u) == (u + Repeat(u, k - 1)) + u;
    }
  }

  lemma Successor(k: nat, m: nat)
    ensures (k + 1) * m == k * m + m
  {
  }

  lemma Glue<T>(s: seq<T>, i: nat, j: nat, end: nat)
    requires i <= j <= end <= |s|
    ensures s[i..end] == s[i..j] + s[j..end]
  {
  }

  lemma {:induction false} CopiesFromAre<T>(s: seq<T>, u: seq<T>, i: nat)
    requires u != [] && i <= |s|
    ensures var k := CopiesFrom(s, u, i);
      i + k * |u| <= |s| && s[i..i + k * |u|] == Repeat(u, k)
    decreases |s| - i
  {
    var k, m := CopiesFrom(s, u, i), |u|;
    if k > 0 {
      var j := i + m;
      CopiesFromAre(s, u, j);
      Successor(k - 1, m);
      var w := (k - 1) * m;
      Glue(s, i, j, j + w);
    }
  }

  lemma RepeatBefore<T>(s: seq<T>, u: seq<T>, j: nat, end: nat, k: nat, w: nat)
    requires w <= j && end == j + |u| <= |s| && s[j..end] == u && s[j - w..j] == Repeat(u, k)
    ensures s[j - w..end] == Repeat(u, k + 1)
  {
    RepeatSnoc(u, k);
    Glue(s, j - w, j, end);
  }

  lemma {:induction false} CopiesUpToAre<T>(s: seq<T>, u: seq<T>, end: nat)
    requires u != [] && end <= |s|
    ensures var k := CopiesUpTo(s, u, end);
      k * |u| <= end && s[end - k * |u|..end] == Repeat(u, k)
    decreases end
  {
    var k, m := CopiesUpTo(s, u, end), |u|;
    if k > 0 {
      CopiesUpToAre(s, u, end - m);
      RepeatBefore(s, u, end - m, end, k - 1, (k - 1) * m);
      Successor(k - 1, m);
    }
  }

  /** The counting loop of the searches from the front and in the middle. */
  method CountFrom<T(==)>(s: seq<T>, i: nat, unitLen: nat) returns (repeats: nat)
    requires unitLen >= 1 && i + unitLen <= |s|
    ensures repeats == CopiesFrom(s, s[i..i + unitLen], i)
    ensures repeats >= 1 && i + repeats * unitLen <= |s|
  {
    var unit := s[i..i + unitLen];
    repeats := 1;
    var at := i + unitLen;
    while at + unitLen <= |s| && s[at..at + unitLen] == unit
      invariant repeats >= 1 && at == i + repeats * unitLen && at <= |s|
      invariant CopiesFrom(s, unit, i) == repeats + CopiesFrom(s, unit, at)
    {
      Successor(repeats, unitLen);
      repeats := repeats + 1;
      at := at + unitLen;
    }
  }

  /** The counting loop of the search at the end. */
  method CountUpTo<T(==)>(s: seq<T>, end: nat, unitLen: nat) returns (repeats: nat)
    requires unitLen >= 1 && unitLen <= end <= |s|
    ensures repeats == CopiesUpTo(s, s[end - unitLen..end], end)
    ensures repeats >= 1 && repeats * unitLen <= end
  {
    var unit := s[end - unitLen..end];
    repeats := 1;
    while true
      invariant repeats >= 1 && repeats * unitLen <= end
      invariant CopiesUpTo(s, unit, end) == repeats + CopiesUpTo(s, unit, end - repeats * unitLen)
      decreases end - repeats * unitLen
    {
      var stop := end - repeats * unitLen;
      var start := stop - unitLen;
      if start < 0 || s[start..stop] != unit {
        break;
      }
      Successor(repeats, unitLen);
      repeats := repeats + 1;
    }
  }

  // ------------------------------------------------------------------
  // The shortest unit that will do
  // ------------------------------------------------------------------

  function FirstThat(test: nat -> bool, lo: nat, hi: nat): (r: Option<nat>)
    ensures r.Some? ==> lo <= r.value <= hi && test(r.value)
    decreases hi + 1 - lo
  {
    if lo > hi then None else if test(lo) then Some(lo) else FirstThat(test, lo + 1, hi)
  }

  lemma {:induction false} FirstThatIsFirst(test: nat -> bool, lo: nat, hi: nat, m: nat)
    requires lo <= m <= hi && test(m)
    ensures FirstThat(test, lo, hi).Some? && FirstThat(test, lo, hi).value <= m
    decreases m - lo
  {
    if lo < m { FirstThatIsFirst(test, lo + 1, hi, m); }
  }

  // ------------------------------------------------------------------
  // From the front
  // ------------------------------------------------------------------

  function MaxHeadUnit(n: nat, bar: Bar): nat {
    var single := if bar.single.Some? && bar.single.value > 0 then bar.single.value else bar.repeats;
    var divisor := Max(1, Min(bar.repeats, Min(single, MIN_REPEATS_LONG_UNIT - 1)));
    Min(n / divisor, MAX_PERIOD_UNIT_LEN)
  }

  /** The last copy was cut short. */
  predicate Truncated<T(==)>(s: seq<T>, unit: seq<T>, covered: nat)
    requires covered <= |s|
  {
    covered < |s| && |s| - covered <= |unit| && unit[..|s| - covered] == s[covered..]
  }

  /** A copy cut short counts for a long unit. */
  function HeadRepeats<T(==)>(s: seq<T>, unitLen: nat): nat
    requires 1 <= unitLen <= |s|
  {
    var unit := s[..unitLen];
    var k := CopiesFrom(s, unit, 0);
    CopiesFromAre(s, unit, 0);
    if Truncated(s, unit, k * unitLen) && unitLen >= LONG_UNIT_WORDS then k + 1 else k
  }

  /** How many units the copies from the front explain. */
  function HeadWhole<T(==)>(s: seq<T>, m: nat): (whole: nat)
    requires 1 <= m <= |s|
  {
    HeadRepeats(s, m) * m
  }

  predicate HeadQualifies<T(==)>(s: seq<T>, bar: Bar, unitLen: nat)
    requires 1 <= unitLen <= |s|
  {
    var unit := s[..unitLen];
    var k := CopiesFrom(s, unit, 0);
    CopiesFromAre(s, unit, 0);
    && HeadRepeats(s, unitLen) >= RepeatsNeeded(unit, bar)
    && (Truncated(s, unit, k * unitLen) || 10 * (k * unitLen) >= 8 * |s|)
  }

  function HeadTest<T(==)>(s: seq<T>, bar: Bar): (test: nat -> bool)
    ensures forall m: nat :: test(m) <==> 1 <= m <= |s| && HeadQualifies(s, bar, m)
  {
    m => 1 <= m <= |s| && HeadQualifies(s, bar, m)
  }

  /** The shortest unit that explains the whole. */
  function HeadUnit<T(==)>(s: seq<T>, bar: Bar): (r: Option<nat>)
    ensures r.Some? ==> 1 <= r.value <= |s|
  {
    FirstThat(HeadTest(s, bar), 1, MaxHeadUnit(|s|, bar))
  }

  /** It is found whenever there is one, and there is no shorter one. */
  lemma HeadUnitIs<T>(s: seq<T>, bar: Bar, m: nat)
    requires 1 <= m <= MaxHeadUnit(|s|, bar) && m <= |s| && HeadQualifies(s, bar, m)
    ensures HeadUnit(s, bar).Some? && HeadUnit(s, bar).value <= m && HeadQualifies(s, bar, HeadUnit(s, bar).value)
  {
    FirstThatIsFirst(HeadTest(s, bar), 1, MaxHeadUnit(|s|, bar), m);
  }

  lemma HeadUnitQualifies<T>(s: seq<T>, bar: Bar)
    requires HeadUnit(s, bar).Some?
    ensures HeadQualifies(s, bar, HeadUnit(s, bar).value)
  {
    assert HeadTest(s, bar)(HeadUnit(s, bar).value);
  }

  lemma MaxHeadUnitFits(n: nat, bar: Bar)
    ensures MaxHeadUnit(n, bar) <= n
  {
  }

  /** One round: does this unit length explain the whole, and with how many copies? */
  method TryHead<T(==)>(s: seq<T>, bar: Bar, unitLen: nat) returns (ok: bool, whole: nat)
    requires 1 <= unitLen <= |s|
    ensures ok == HeadQualifies(s, bar, unitLen) && (ok ==> whole == HeadWhole(s, unitLen))
  {
    var n, unit := |s|, s[..unitLen];
    assert unit == s[0..0 + unitLen];
    var repeats := CountFrom(s, 0, unitLen);
    var covered := repeats * unitLen;
    var truncated := covered < n && n - covered <= unitLen && unit[..n - covered] == s[covered..];
    if truncated && unitLen >= LONG_UNIT_WORDS {
      repeats := repeats + 1;
    }
    if repeats < RepeatsNeeded(unit, bar) {
      return false, 0;
    }
    if truncated {
      covered := n;
    }
    if 10 * covered < 8 * n {
      return false, 0;
    }
    return true, repeats * unitLen;
  }

  method FindPeriod<T(==)>(s: seq<T>, bar: Bar) returns (r: Option<seq<T>>, covered: nat)
    ensures r.None? <==> |s| < 4 || HeadUnit(s, bar).None?
    ensures r.None? ==> covered == 0
    ensures r.Some? ==>
      var m := HeadUnit(s, bar).value;
      r.value == s[..m] && covered == HeadWhole(s, m)
  {
    var n := |s|;
    if n < 4 {
      return None, 0;
    }
    MaxHeadUnitFits(n, bar);
    ghost var test := HeadTest(s, bar);
    var max := MaxHeadUnit(n, bar);
    for unitLen := 1 to max + 1
      invariant FirstThat(test, 1, max) == FirstThat(test, unitLen, max)
    {
      var ok, whole := TryHead(s, bar, unitLen);
      assert ok == test(unitLen);
      if ok {
        return Some(s[..unitLen]), whole;
      }
    }
    return None, 0;
  }

  // ------------------------------------------------------------------
  // At the end
  // ------------------------------------------------------------------

  function MaxTailUnit(n: nat): nat { Min(n / Min(MIN_TAIL_REPEATS, MIN_REPEATS_LONG_UNIT), MAX_PERIOD_UNIT_LEN) }

  predicate TailFits(n: nat, unitLen: nat, phase: nat) { 1 <= unitLen && phase < unitLen && unitLen + phase <= n }

  /** The unit that ends before the last `phase` units. */
  function TailOf<T>(s: seq<T>, unitLen: nat, phase: nat): seq<T>
    requires TailFits(|s|, unitLen, phase)
  {
    s[|s| - phase - unitLen..|s| - phase]
  }

  function TailCopies<T(==)>(s: seq<T>, unitLen: nat, phase: nat): nat
    requires TailFits(|s|, unitLen, phase)
  {
    CopiesUpTo(s, TailOf(s, unitLen, phase), |s| - phase)
  }

  /** What its copies cover, together with the last `phase` units. */
  function TailCovered<T(==)>(s: seq<T>, unitLen: nat, phase: nat): nat
    requires TailFits(|s|, unitLen, phase)
  {
    TailCopies(s, unitLen, phase) * unitLen + phase
  }

  /** Enough copies of the unit before a `rest` that begins another one, covering half of n. */
  predicate TailHolds<T(==)>(rest: seq<T>, unit: seq<T>, copies: nat, n: nat) {
    && rest <= unit
    && copies >= RepeatsNeeded(unit, TAIL_BAR)
    && 2 * (copies * |unit| + |rest|) >= n
  }

  predicate TailQualifies<T(==)>(s: seq<T>, unitLen: nat, phase: nat)
    requires TailFits(|s|, unitLen, phase)
  {
    TailHolds(s[|s| - phase..], TailOf(s, unitLen, phase), TailCopies(s, unitLen, phase), |s|)
  }

  /** Of the first `count` phases that qualify, the first that covers most. */
  function BestPhase<T(==)>(s: seq<T>, unitLen: nat, count: nat): (r: Option<nat>)
    requires 1 <= unitLen && count <= unitLen && 2 * unitLen <= |s|
    ensures r.Some? ==> r.value < count && TailQualifies(s, unitLen, r.value)
  {
    if count == 0 then None
    else
      var rest := BestPhase(s, unitLen, count - 1);
      if TailQualifies(s, unitLen, count - 1) && Improves(s, unitLen, count - 1, rest) then Some(count - 1) else rest
  }

  predicate Improves<T(==)>(s: seq<T>, unitLen: nat, p: nat, best: Option<nat>)
    requires TailFits(|s|, unitLen, p) && (best.Some? ==> TailFits(|s|, unitLen, best.value))
  {
    best.None? || TailCovered(s, unitLen, p) > TailCovered(s, unitLen, best.value)
  }

  lemma {:induction false} BestPhaseCoversMost<T>(s: seq<T>, unitLen: nat, count: nat, p: nat)
    requires p < count <= unitLen && 2 * unitLen <= |s| && TailQualifies(s, unitLen, p)
    ensures var r := BestPhase(s, unitLen, count);
      && r.Some? && TailCovered(s, unitLen, p) <= TailCovered(s, unitLen, r.value)
      && (p < r.value ==> TailCovered(s, unitLen, p) < TailCovered(s, unitLen, r.value))
  {
    if p < count - 1 { BestPhaseCoversMost(s, unitLen, count - 1, p); }
  }

  function TailTest<T(==)>(s: seq<T>): (test: nat -> bool)
    ensures forall m: nat :: test(m) <==> m >= 1 && 2 * m <= |s| && BestPhase(s, m, m).Some?
  {
    m => m >= 1 && 2 * m <= |s| && BestPhase(s, m, m).Some?
  }

  /** The shortest unit that some phase qualifies for. */
  function TailUnit<T(==)>(s: seq<T>): (r: Option<nat>)
    ensures r.Some? ==> r.value >= 1 && 2 * r.value <= |s| && BestPhase(s, r.value, r.value).Some?
  {
    FirstThat(TailTest(s), 1, MaxTailUnit(|s|))
  }

  /** One round of the inner loop. */
  method TryPhase<T(==)>(s: seq<T>, unitLen: nat, phase: nat) returns (ok: bool, covered: nat)
    requires TailFits(|s|, unitLen, phase)
    ensures ok == TailQualifies(s, unitLen, phase) && (ok ==> covered == TailCovered(s, unitLen, phase))
  {
    var n, end := |s|, |s| - phase;
    var unit := s[end - unitLen..end];
    assert unit == TailOf(s, unitLen, phase);
    var repeats := CountUpTo(s, end, unitLen);
    ok, covered := JudgeTail(s[end..], unit, repeats, n);
  }

  /** The tests of one phase, once its copies are counted. */
  method JudgeTail<T(==)>(rest: seq<T>, unit: seq<T>, repeats: nat, n: nat) returns (ok: bool, covered: nat)
    requires |rest| < |unit|
    ensures ok == TailHolds(rest, unit, repeats, n) && (ok ==> covered == repeats * |unit| + |rest|)
  {
    if rest != [] && rest != unit[..|rest|] {
      return false, 0;
    }
    if repeats < RepeatsNeeded(unit, TAIL_BAR) {
      return false, 0;
    }
    covered := repeats * |unit| + |rest|;
    ok := 2 * covered >= n;
  }

  /** What the source keeps of the best phase: how much it covers, and its unit. */
  function Found<T(==)>(s: seq<T>, unitLen: nat, best: Option<nat>): Option<(nat, seq<T>)>
    requires best.Some? ==> TailFits(|s|, unitLen, best.value)
  {
    if best.None? then None
    else Some((TailCovered(s, unitLen, best.value), TailOf(s, unitLen, best.value)))
  }

  method KeepBetter<T(==)>(s: seq<T>, unitLen: nat, phase: nat, best: Option<(nat, seq<T>)>, ghost was: Option<nat>)
      returns (now: Option<(nat, seq<T>)>)
    requires TailFits(|s|, unitLen, phase) && (was.Some? ==> TailFits(|s|, unitLen, was.value))
    requires best == Found(s, unitLen, was)
    ensures now == Found(s, unitLen,
                         if TailQualifies(s, unitLen, phase) && Improves(s, unitLen, phase, was) then Some(phase) else was)
  {
    var ok, covered := TryPhase(s, unitLen, phase);
    now := best;
    if ok && (best.None? || covered > best.value.0) {
      now := Some((covered, TailOf(s, unitLen, phase)));
    }
  }

  /** One round of the outer loop: the phase of this unit length that covers most. */
  method TryTail<T(==)>(s: seq<T>, unitLen: nat) returns (best: Option<(nat, seq<T>)>)
    requires 1 <= unitLen && 2 * unitLen <= |s|
    ensures best == Found(s, unitLen, BestPhase(s, unitLen, unitLen))
  {
    best := None;
    for phase := 0 to unitLen
      invariant best == Found(s, unitLen, BestPhase(s, unitLen, phase))
    {
      best := KeepBetter(s, unitLen, phase, best, BestPhase(s, unitLen, phase));
    }
  }

  method FindTailPeriod<T(==)>(s: seq<T>) returns (r: Option<seq<T>>, start: nat)
    ensures r.None? <==> |s| < 4 || |s| > MAX_TAIL_SCAN_UNITS || TailUnit(s).None?
    ensures r.None? ==> start == |s|
    ensures r.Some? ==>
      var m := TailUnit(s).value;
      Found(s, m, BestPhase(s, m, m)) == Some((|s| - start, r.value))
  {
    var n := |s|;
    if n < 4 || n > MAX_TAIL_SCAN_UNITS {
      return None, n;
    }
    ghost var test := TailTest(s);
    var max := MaxTailUnit(n);
    assert 2 * max <= n;
    for unitLen := 1 to max + 1
      invariant FirstThat(test, 1, max) == FirstThat(test, unitLen, max)
    {
      var best := TryTail(s, unitLen);
      assert best.Some? == test(unitLen);
      if best.Some? {
        CoveredFits(s, unitLen, BestPhase(s, unitLen, unitLen).value);
        return Some(best.value.1), n - best.value.0;
      }
    }
    return None, n;
  }

  /** Whenever a phase of some unit qualifies, a unit is found; none shorter qualifies, and of
      its own phases none covers more. */
  lemma TailUnitIs<T>(s: seq<T>, m: nat, p: nat)
    requires 1 <= m <= MaxTailUnit(|s|) && p < m && TailQualifies(s, m, p)
    ensures TailUnit(s).Some? && TailUnit(s).value <= m
    ensures TailUnit(s).value == m ==> TailCovered(s, m, p) <= TailCovered(s, m, BestPhase(s, m, m).value)
  {
    BestPhaseCoversMost(s, m, m, p);
    FirstThatIsFirst(TailTest(s), 1, MaxTailUnit(|s|), m);
  }

  lemma CoveredFits<T>(s: seq<T>, unitLen: nat, phase: nat)
    requires TailFits(|s|, unitLen, phase)
    ensures TailCovered(s, unitLen, phase) <= |s|
  {
    CopiesUpToAre(s, TailOf(s, unitLen, phase), |s| - phase);
  }

  // ------------------------------------------------------------------
  // In the middle
  // ------------------------------------------------------------------

  datatype Run = Run(start: nat, unitLen: nat, repeats: nat)

  function Covered(run: Run): nat { run.repeats * run.unitLen }

  const FLOOR: nat := Min(MIN_INTERIOR_REPEATS, MIN_REPEATS_LONG_UNIT)

  function MaxInteriorUnit(n: nat): nat { Min(MAX_INTERIOR_UNIT_LEN, n / FLOOR) }

  function RunAt<T(==)>(s: seq<T>, unitLen: nat, i: nat): (run: Run)
    requires unitLen >= 1 && i + unitLen <= |s|
    ensures run.start == i && run.unitLen == unitLen && run.repeats >= 1 && i + Covered(run) <= |s|
  {
    var unit := s[i..i + unitLen];
    CopiesFromAre(s, unit, i);
    Run(i, unitLen, CopiesFrom(s, unit, i))
  }

  /** Enough copies of the unit at position i. */
  predicate IsRun<T(==)>(s: seq<T>, unitLen: nat, i: nat) {
    && unitLen >= 1 && i + unitLen <= |s|
    && RunAt(s, unitLen, i).repeats >= RepeatsNeeded(s[i..i + unitLen], INTERIOR_BAR)
  }

  function Longer(best: Option<Run>, run: Run): Option<Run> {
    if best.None? || Covered(run) > Covered(best.value) then Some(run) else best
  }

  /** Where the scan goes from position i: past a run, or one further. */
  function NextStop<T(==)>(s: seq<T>, unitLen: nat, i: nat): (j: nat)
    requires unitLen >= 1 && i + unitLen <= |s|
    ensures i < j <= |s|
  {
    var run := RunAt(s, unitLen, i);
    AtLeastUnit(run);
    if IsRun(s, unitLen, i) then i + Covered(run) else i + 1
  }

  lemma AtLeastUnit(run: Run)
    requires run.repeats >= 1
    ensures Covered(run) >= run.unitLen
  {
    assert run.repeats * run.unitLen == run.unitLen + (run.repeats - 1) * run.unitLen;
  }

  predicate More(n: nat, unitLen: nat, i: nat) { unitLen >= 1 && i + unitLen * FLOOR <= n }

  /** The longest run met from position i on, starting from the best so far. */
  function Scan<T(==)>(s: seq<T>, unitLen: nat, i: nat, best: Option<Run>): Option<Run>
    decreases |s| - i
  {
    if !More(|s|, unitLen, i) then best
    else
      Scan(s, unitLen, NextStop(s, unitLen, i),
           if IsRun(s, unitLen, i) then Longer(best, RunAt(s, unitLen, i)) else best)
  }

  function ScanAll<T(==)>(s: seq<T>, unitLen: nat, best: Option<Run>): Option<Run>
    decreases MaxInteriorUnit(|s|) + 1 - unitLen
  {
    if unitLen > MaxInteriorUnit(|s|) then best else ScanAll(s, unitLen + 1, Scan(s, unitLen, 0, best))
  }

  /** The scan from i stops at j. */
  predicate Visits<T(==)>(s: seq<T>, unitLen: nat, i: nat, j: nat)
    decreases |s| - i
  {
    i == j || (More(|s|, unitLen, i) && i < j && Visits(s, unitLen, NextStop(s, unitLen, i), j))
  }

  predicate IsBest<T(==)>(s: seq<T>, best: Option<Run>) {
    best.Some? ==>
      var run := best.value;
      IsRun(s, run.unitLen, run.start) && run == RunAt(s, run.unitLen, run.start)
  }

  predicate AtLeast(best: Option<Run>, covered: nat) { best.Some? && Covered(best.value) >= covered }

  lemma {:induction false} ScanFindsRuns<T>(s: seq<T>, unitLen: nat, i: nat, best: Option<Run>)
    requires IsBest(s, best)
    ensures IsBest(s, Scan(s, unitLen, i, best)) && (best.Some? ==> AtLeast(Scan(s, unitLen, i, best), Covered(best.value)))
    decreases |s| - i
  {
    if More(|s|, unitLen, i) {
      ScanFindsRuns(s, unitLen, NextStop(s, unitLen, i),
                    if IsRun(s, unitLen, i) then Longer(best, RunAt(s, unitLen, i)) else best);
    }
  }

  /** No run the scan stops at covers more than what it returns. */
  lemma {:induction false} ScanCoversMost<T>(s: seq<T>, unitLen: nat, i: nat, best: Option<Run>, j: nat)
    requires IsBest(s, best) && Visits(s, unitLen, i, j) && More(|s|, unitLen, j) && IsRun(s, unitLen, j)
    ensures AtLeast(Scan(s, unitLen, i, best), Covered(RunAt(s, unitLen, j)))
    decreases |s| - i
  {
    var next, now := NextStop(s, unitLen, i), if IsRun(s, unitLen, i) then Longer(best, RunAt(s, unitLen, i)) else best;
    if i == j {
      ScanFindsRuns(s, unitLen, next, now);
    } else {
      ScanCoversMost(s, unitLen, next, now, j);
    }
  }

  /** A run is only passed over from inside another one. */
  lemma {:induction false} ScanMissesNoRun<T>(s: seq<T>, unitLen: nat, i: nat, best: Option<Run>, j: nat)
    requires IsBest(s, best) && i <= j && More(|s|, unitLen, j) && IsRun(s, unitLen, j)
    ensures Scan(s, unitLen, i, best).Some?
    decreases |s| - i
  {
    var next, now := NextStop(s, unitLen, i), if IsRun(s, unitLen, i) then Longer(best, RunAt(s, unitLen, i)) else best;
    if IsRun(s, unitLen, i) {
      ScanFindsRuns(s, unitLen, next, now);
    } else {
      ScanMissesNoRun(s, unitLen, next, now, j);
    }
  }

  lemma {:induction false} ScanAllFindsRuns<T>(s: seq<T>, unitLen: nat, best: Option<Run>)
    requires IsBest(s, best)
    ensures IsBest(s, ScanAll(s, unitLen, best)) && (best.Some? ==> AtLeast(ScanAll(s, unitLen, best), Covered(best.value)))
    decreases MaxInteriorUnit(|s|) + 1 - unitLen
  {
    if unitLen <= MaxInteriorUnit(|s|) {
      ScanFindsRuns(s, unitLen, 0, best);
      ScanAllFindsRuns(s, unitLen + 1, Scan(s, unitLen, 0, best));
    }
  }

  lemma {:induction false} ScanAllMissesNoRun<T>(s: seq<T>, unitLen: nat, best: Option<Run>, m: nat, j: nat)
    requires IsBest(s, best) && unitLen <= m <= MaxInteriorUnit(|s|) && IsRun(s, m, j) && More(|s|, m, j)
    ensures ScanAll(s, unitLen, best).Some?
    ensures Visits(s, m, 0, j) ==> AtLeast(ScanAll(s, unitLen, best), Covered(RunAt(s, m, j)))
    decreases m - unitLen
  {
    var now := Scan(s, unitLen, 0, best);
    ScanFindsRuns(s, unitLen, 0, best);
    ScanAllFindsRuns(s, unitLen + 1, now);
    if unitLen == m {
      ScanMissesNoRun(s, m, 0, best, j);
      if Visits(s, m, 0, j) { ScanCoversMost(s, m, 0, best, j); }
    } else {
      ScanAllMissesNoRun(s, unitLen + 1, now, m, j);
    }
  }

  function InteriorRun<T(==)>(s: seq<T>): Option<Run> {
    if |s| < 4 || |s| > MAX_TAIL_SCAN_UNITS then None else ScanAll(s, 1, None)
  }

  method ScanUnit<T(==)>(s: seq<T>, unitLen: nat, best: Option<Run>) returns (now: Option<Run>)
    requires unitLen >= 1
    ensures now == Scan(s, unitLen, 0, best)
  {
    var n, i := |s|, 0;
    now := best;
    while i + unitLen * FLOOR <= n
      invariant Scan(s, unitLen, i, now) == Scan(s, unitLen, 0, best)
      decreases n - i
    {
      var unit := s[i..i + unitLen];
      var repeats := CountFrom(s, i, unitLen);
      AtLeastUnit(Run(i, unitLen, repeats));
      assert RunAt(s, unitLen, i) == Run(i, unitLen, repeats);
      if repeats >= RepeatsNeeded(unit, INTERIOR_BAR) {
        assert IsRun(s, unitLen, i);
        var covered := repeats * unitLen;
        if now.None? || covered > Covered(now.value) {
          now := Some(Run(i, unitLen, repeats));
        }
        i := i + covered;
      } else {
        i := i + 1;
      }
    }
  }

  method FindInteriorRun<T(==)>(s: seq<T>) returns (best: Option<Run>)
    ensures best == InteriorRun(s)
  {
    var n := |s|;
    if n < 4 || n > MAX_TAIL_SCAN_UNITS {
      return None;
    }
    best := None;
    for unitLen := 1 to MaxInteriorUnit(n) + 1
      invariant ScanAll(s, 1, None) == ScanAll(s, unitLen, best)
    {
      best := ScanUnit(s, unitLen, best);
    }
  }

  lemma EnoughForFloor<T>(s: seq<T>, unitLen: nat, i: nat)
    requires IsRun(s, unitLen, i)
    ensures RunAt(s, unitLen, i).repeats >= FLOOR && More(|s|, unitLen, i)
  {
    var run := RunAt(s, unitLen, i);
    assert run.repeats * unitLen == FLOOR * unitLen + (run.repeats - FLOOR) * unitLen;
  }

  /** The search finds a run exactly when there is one, and none it stops at covers more. */
  lemma InteriorRunIs<T>(s: seq<T>)
    requires 4 <= |s| <= MAX_TAIL_SCAN_UNITS
    ensures InteriorRun(s).Some? <==> exists m: nat, j: nat :: m <= MaxInteriorUnit(|s|) && IsRun(s, m, j)
    ensures IsBest(s, InteriorRun(s))
    ensures forall m: nat, j: nat :: m <= MaxInteriorUnit(|s|) && IsRun(s, m, j) && Visits(s, m, 0, j) ==>
      AtLeast(InteriorRun(s), Covered(RunAt(s, m, j)))
  {
    ScanAllFindsRuns(s, 1, None);
    ScanAllShort(s, 1, None);
    forall m: nat, j: nat | m <= MaxInteriorUnit(|s|) && IsRun(s, m, j)
      ensures InteriorRun(s).Some? && (Visits(s, m, 0, j) ==> AtLeast(InteriorRun(s), Covered(RunAt(s, m, j))))
    {
      EnoughForFloor(s, m, j);
      ScanAllMissesNoRun(s, 1, None, m, j);
    }
  }

  lemma InteriorRunFound<T>(s: seq<T>)
    requires InteriorRun(s).Some?
    ensures IsBest(s, InteriorRun(s))
  {
    ScanAllFindsRuns(s, 1, None);
  }

  lemma {:induction false} ScanKeepsUnit<T>(s: seq<T>, unitLen: nat, i: nat, best: Option<Run>)
    requires best.Some? ==> best.value.unitLen <= unitLen
    ensures var r := Scan(s, unitLen, i, best); r.Some? ==> r.value.unitLen <= unitLen
    decreases |s| - i
  {
    if More(|s|, unitLen, i) {
      ScanKeepsUnit(s, unitLen, NextStop(s, unitLen, i),
                    if IsRun(s, unitLen, i) then Longer(best, RunAt(s, unitLen, i)) else best);
    }
  }

  lemma {:induction false} ScanAllShort<T>(s: seq<T>, unitLen: nat, best: Option<Run>)
    requires best.Some? ==> best.value.unitLen <= unitLen && best.value.unitLen <= MaxInteriorUnit(|s|)
    ensures var r := ScanAll(s, unitLen, best); r.Some? ==> r.value.unitLen <= MaxInteriorUnit(|s|)
    decreases MaxInteriorUnit(|s|) + 1 - unitLen
  {
    if unitLen <= MaxInteriorUnit(|s|) {
      ScanKeepsUnit(s, unitLen, 0, best);
      ScanAllShort(s, unitLen + 1, Scan(s, unitLen, 0, best));
    }
  }

  // ------------------------------------------------------------------
  // What is cut out
  // ------------------------------------------------------------------

  /** The first copy at `start` is kept, what follows it is dropped up to `resume`. */
  datatype Cut = Cut(start: nat, unitLen: nat, copies: nat, resume: nat)

  /** The rest is kept unless it begins another copy. */
  function Resume<T(==)>(s: seq<T>, m: nat, whole: nat): (resume: nat)
    requires m <= |s|
    ensures resume <= |s|
  {
    if whole < |s| && !(s[whole..] <= s[..m]) then whole else |s|
  }

  function HeadCut<T(==)>(s: seq<T>, bar: Bar): (r: Option<Cut>) {
    if |s| < 4 || HeadUnit(s, bar).None? then None
    else
      var m := HeadUnit(s, bar).value;
      Some(Cut(0, m, CopiesFrom(s, s[..m], 0), Resume(s, m, HeadWhole(s, m))))
  }

  function TailCut<T(==)>(s: seq<T>): (r: Option<Cut>) {
    if |s| < 4 || |s| > MAX_TAIL_SCAN_UNITS || TailUnit(s).None? then None
    else
      var m := TailUnit(s).value;
      var p := BestPhase(s, m, m).value;
      CoveredFits(s, m, p);
      Some(Cut(|s| - TailCovered(s, m, p), m, TailCopies(s, m, p), |s|))
  }

  function InteriorCut<T(==)>(s: seq<T>): (r: Option<Cut>) {
    var run := InteriorRun(s);
    if run.None? then None
    else Some(Cut(run.value.start, run.value.unitLen, run.value.repeats, run.value.start + Covered(run.value)))
  }

  function Decide<T(==)>(s: seq<T>, bar: Bar): Option<Cut> {
    if HeadCut(s, bar).Some? then HeadCut(s, bar)
    else if TailCut(s).Some? && TailCut(s).value.start > 0 then TailCut(s)
    else InteriorCut(s)
  }

  /** s is A + u^k + P + B with k >= 2 and P a proper prefix of u, empty unless B is. */
  ghost predicate CutsRepeats<T>(s: seq<T>, cut: Cut) {
    var stop := cut.start + cut.copies * cut.unitLen;
    && cut.unitLen >= 1 && cut.copies >= 2
    && cut.start + cut.unitLen <= stop <= cut.resume <= |s|
    && s[cut.start..stop] == Repeat(s[cut.start..cut.start + cut.unitLen], cut.copies)
    && s[stop..cut.resume] < s[cut.start..cut.start + cut.unitLen]
    && (stop < cut.resume ==> cut.resume == |s|)
  }

  function Kept<T>(s: seq<T>, cut: Cut): seq<T>
    requires cut.start + cut.unitLen <= |s| && cut.resume <= |s|
  {
    s[..cut.start + cut.unitLen] + s[cut.resume..]
  }

  lemma NeedsThree<T>(unit: seq<T>, bar: Bar)
    requires BarOk(bar)
    ensures RepeatsNeeded(unit, bar) >= 3
  {
  }

  lemma TwoFit(k: nat, m: nat)
    requires k >= 1
    ensures k * m >= m
  {
  }

  lemma HeadCutIs<T>(s: seq<T>, m: nat, u: seq<T>, k: nat, w: nat, whole: nat)
    requires 1 <= m <= |s| && u == s[..m] && k == CopiesFrom(s, u, 0) >= 2 && w == k * m <= |s|
    requires whole == w || (whole >= |s| && s[w..] <= u)
    ensures CutsRepeats(s, Cut(0, m, k, Resume(s, m, whole)))
  {
    CopiesFromAre(s, u, 0);
    NoFurtherCopy(s, u, 0);
    TwoFit(k, m);
    assert s[0..0 + m] == u && s[0..0 + w] == s[0..w];
    var rest := s[w..];
    assert |rest| == m ==> s[w..w + m] == rest;
    assert s[w..|s|] == rest && s[w..w] == [];
  }

  lemma HeadWholeIs<T>(s: seq<T>, m: nat, u: seq<T>, k: nat)
    requires 1 <= m <= |s| && u == s[..m] && k == CopiesFrom(s, u, 0)
    ensures k * m <= |s|
    ensures HeadWhole(s, m) == k * m || (HeadWhole(s, m) >= |s| && s[k * m..] <= u && m >= LONG_UNIT_WORDS)
    ensures HeadRepeats(s, m) <= k + 1
  {
    CopiesFromAre(s, u, 0);
    Successor(k, m);
  }

  lemma HeadCutsRepeats<T>(s: seq<T>, bar: Bar)
    requires BarOk(bar) && HeadCut(s, bar).Some?
    ensures CutsRepeats(s, HeadCut(s, bar).value)
  {
    var m := HeadUnit(s, bar).value;
    var u := s[..m];
    var k := CopiesFrom(s, u, 0);
    HeadUnitQualifies(s, bar);
    NeedsThree(u, bar);
    HeadWholeIs(s, m, u, k);
    HeadCutIs(s, m, u, k, k * m, HeadWhole(s, m));
  }

  lemma {:induction false} NoFurtherCopy<T>(s: seq<T>, u: seq<T>, i: nat)
    requires u != [] && i <= |s|
    ensures var j := i + CopiesFrom(s, u, i) * |u|;
      j + |u| <= |s| ==> s[j..j + |u|] != u
    decreases |s| - i
  {
    if CopiesFrom(s, u, i) > 0 {
      NoFurtherCopy(s, u, i + |u|);
      Successor(CopiesFrom(s, u, i) - 1, |u|);
    }
  }

  lemma CopiesBefore<T>(s: seq<T>, u: seq<T>, end: nat, k: nat)
    requires u != [] && end <= |s| && k == CopiesUpTo(s, u, end) >= 1
    ensures k * |u| <= end && |u| <= k * |u| && s[end - k * |u|..end] == Repeat(u, k)
    ensures s[end - k * |u|..end - k * |u| + |u|] == u
  {
    CopiesUpToAre(s, u, end);
    TwoFit(k, |u|);
    FirstCopy(s, u, end - k * |u|, k);
  }

  lemma TailCutIs<T>(s: seq<T>, m: nat, p: nat, end: nat, u: seq<T>, k: nat, w: nat)
    requires p < m && end + p == |s| && |u| == m && s[end..] == u[..p] && w == k * m <= end
    requires k >= 2 && w >= m && s[end - w..end] == Repeat(u, k) && s[end - w..end - w + m] == u
    ensures CutsRepeats(s, Cut(end - w, m, k, |s|))
  {
    assert s[end..|s|] == s[end..];
  }

  lemma TailCopiesAre<T>(s: seq<T>, m: nat, p: nat)
    requires TailFits(|s|, m, p) && TailQualifies(s, m, p)
    ensures TailCovered(s, m, p) <= |s|
    ensures CutsRepeats(s, Cut(|s| - TailCovered(s, m, p), m, TailCopies(s, m, p), |s|))
  {
    var u, k, end := TailOf(s, m, p), TailCopies(s, m, p), |s| - p;
    NeedsThree(u, TAIL_BAR);
    CopiesBefore(s, u, end, k);
    TailCutIs(s, m, p, end, u, k, k * m);
  }

  /** The first of the copies is the unit. */
  lemma TailUnitOf<T>(s: seq<T>, m: nat, p: nat)
    requires TailFits(|s|, m, p) && TailQualifies(s, m, p)
    ensures TailCovered(s, m, p) <= |s| && |s| - TailCovered(s, m, p) + m <= |s|
    ensures s[|s| - TailCovered(s, m, p)..|s| - TailCovered(s, m, p) + m] == TailOf(s, m, p)
  {
    var u, end := TailOf(s, m, p), |s| - p;
    var k := TailCopies(s, m, p);
    CopiesUpToAre(s, u, end);
    CoveredFits(s, m, p);
    FirstCopy(s, u, end - k * m, k);
  }

  lemma TailCutsRepeats<T>(s: seq<T>)
    requires TailCut(s).Some?
    ensures CutsRepeats(s, TailCut(s).value)
  {
    var m := TailUnit(s).value;
    var p := BestPhase(s, m, m).value;
    var cut := TailCut(s).value;
    assert cut == Cut(|s| - TailCovered(s, m, p), m, TailCopies(s, m, p), |s|);
    TailCopiesAre(s, m, p);
  }

  lemma FirstCopy<T>(s: seq<T>, u: seq<T>, i: nat, k: nat)
    requires k >= 1 && i + k * |u| <= |s| && s[i..i + k * |u|] == Repeat(u, k)
    ensures i + |u| <= |s| && s[i..i + |u|] == u
  {
    TwoFit(k, |u|);
    assert s[i..i + |u|] == s[i..i + k * |u|][..|u|];
  }

  lemma RunCutIs<T>(s: seq<T>, i: nat, m: nat, u: seq<T>, k: nat, w: nat)
    requires m >= 1 && i + m <= |s| && u == s[i..i + m] && k == CopiesFrom(s, u, i) >= 2 && w == k * m
    ensures i + w <= |s| && CutsRepeats(s, Cut(i, m, k, i + w))
  {
    CopiesFromAre(s, u, i);
    TwoFit(k, m);
    assert s[i + w..i + w] == [];
  }

  lemma InteriorCutsRepeats<T>(s: seq<T>)
    requires InteriorCut(s).Some?
    ensures CutsRepeats(s, InteriorCut(s).value)
  {
    InteriorRunFound(s);
    var run := InteriorRun(s).value;
    var u := s[run.start..run.start + run.unitLen];
    NeedsThree(u, INTERIOR_BAR);
    RunCutIs(s, run.start, run.unitLen, u, run.repeats, Covered(run));
  }

  lemma DecideCutsRepeats<T>(s: seq<T>, bar: Bar)
    requires BarOk(bar) && Decide(s, bar).Some?
    ensures CutsRepeats(s, Decide(s, bar).value)
  {
    if HeadCut(s, bar).Some? {
      HeadCutsRepeats(s, bar);
    } else if TailCut(s).Some? && TailCut(s).value.start > 0 {
      TailCutsRepeats(s);
    } else {
      InteriorCutsRepeats(s);
    }
  }

  lemma CutLeaves<T>(s: seq<T>, cut: Cut, stop: nat)
    requires CutsRepeats(s, cut) && stop == cut.start + cut.copies * cut.unitLen
    ensures var (a, u, p, b) := (s[..cut.start], s[cut.start..cut.start + cut.unitLen], s[stop..cut.resume], s[cut.resume..]);
      s == a + Repeat(u, cut.copies) + p + b && Kept(s, cut) == a + u + b && p < u && (p == [] || b == [])
  {
    assert s == s[..cut.start] + s[cut.start..stop] + s[stop..cut.resume] + s[cut.resume..];
  }

  /** Whatever is cut, the units were A + u^k + P + B and stay A + u + B. */
  lemma OnlyRepeatsAreLost<T>(s: seq<T>, bar: Bar) returns (cut: Cut, a: seq<T>, u: seq<T>, p: seq<T>, b: seq<T>)
    requires BarOk(bar) && Decide(s, bar).Some?
    ensures cut == Decide(s, bar).value && CutsRepeats(s, cut)
    ensures s == a + Repeat(u, cut.copies) + p + b && Kept(s, cut) == a + u + b
    ensures cut.copies >= 2 && u != [] && p < u && (p == [] || b == [])
  {
    cut := Decide(s, bar).value;
    DecideCutsRepeats(s, bar);
    var stop := cut.start + cut.copies * cut.unitLen;
    CutLeaves(s, cut, stop);
    a, u, p, b := s[..cut.start], s[cut.start..cut.start + cut.unitLen], s[stop..cut.resume], s[cut.resume..];
  }
}
