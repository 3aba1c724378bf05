/**
 WSOLA time stretching, in one shot and in a stream: rate.py without its pitch stage.

 A signal is one channel of samples (all channels share the timing and the lengths).  How well
 two stretches of the signal correlate is a parameter.
 */
module RateShifter {
  import opened Common

  type Signal = seq<real>

  /** Analysis window, analysis hop, search radius. */
  datatype Window = Window(w: nat, ha: nat, delta: nat)

  /** From the window and the radius that the sample rate rounds to. */
  function WindowParams(rounded: int, radius: nat): (p: Window)
    ensures WindowOk(p) && p.delta == radius
    ensures 512 <= rounded <= 2048 && rounded % 2 == 0 ==> p.w == rounded
    ensures 512 <= rounded <= 2048 && rounded % 2 == 1 ==> p.w == rounded + 1
  {
    var clamped := Max(512, Min(2048, rounded));
    var w := if clamped % 2 != 0 then clamped + 1 else clamped;
    Window(w, w / 4, radius)
  }

  predicate WindowOk(p: Window) { 512 <= p.w <= 2048 && p.w % 2 == 0 && p.ha == p.w / 4 }

  /** How alike the tail of the window at one start and the window at another are. */
  type Score = (Signal, int, int) -> real

  // ------------------------------------------------------------------
  // Timing
  // ------------------------------------------------------------------

  /** How many analysis frames a signal of n samples has. */
  function FrameCount(n: nat, p: Window): nat
    requires WindowOk(p)
  {
    if n < p.w then 1 else 1 + (n - p.w) / p.ha
  }

  /** b is the earliest of the best-scoring starts in lo..hi. */
  ghost predicate IsBest(score: Score, x: Signal, prev: int, lo: int, hi: int, b: int) {
    && lo <= b <= hi
    && (forall c :: lo <= c <= hi ==> score(x, prev, c) <= score(x, prev, b))
    && (forall c :: lo <= c < b ==> score(x, prev, c) < score(x, prev, b))
  }

  /** Where the window of frame m may begin. */
  function Lo(m: nat, p: Window): int { Max(0, m * p.ha - p.delta) }

  function Hi(n: nat, m: nat, p: Window): int { Min(n - p.w, m * p.ha + p.delta) }

  /** Frame m begins inside the signal, at most delta from its nominal place, and where it
      continues the frame before it best. */
  ghost predicate GoodStart(score: Score, x: Signal, p: Window, m: nat, prev: int, start: int) {
    && 0 <= start <= |x| - p.w
    && m * p.ha - p.delta <= start <= m * p.ha + p.delta
    && (Lo(m, p) < Hi(|x|, m, p) ==> IsBest(score, x, prev, Lo(m, p), Hi(|x|, m, p), start))
    && (Hi(|x|, m, p) <= Lo(m, p) ==> start == m * p.ha)
  }

  ghost predicate GoodStarts(score: Score, x: Signal, p: Window, starts: seq<int>) {
    && |x| >= p.w && |starts| >= 1 && starts[0] == 0
    && forall m :: 0 < m < |starts| ==> GoodStart(score, x, p, m, starts[m - 1], starts[m])
  }

  lemma NominalFits(n: nat, p: Window, m: nat)
    requires WindowOk(p) && n >= p.w && m < FrameCount(n, p)
    ensures m * p.ha <= n - p.w
  {
    var q := (n - p.w) / p.ha;
    assert q * p.ha <= n - p.w;
    Monotone(m, q, p.ha);
  }

  lemma Monotone(a: nat, b: nat, k: nat)
    requires a <= b
    ensures a * k <= b * k
  {
    assert b * k == a * k + (b - a) * k;
  }

  /** The search loop over the candidates. */
  method Search(score: Score, x: Signal, prev: int, lo: int, hi: int) returns (best: int)
    requires lo <= hi
    ensures IsBest(score, x, prev, lo, hi, best)
  {
    best := lo;
    var bestScore: Option<real> := None;
    for c := lo to hi + 1
      invariant bestScore.None? <==> c == lo
      invariant bestScore.Some? ==> IsBest(score, x, prev, lo, c - 1, best) && bestScore.value == score(x, prev, best)
    {
      var s := score(x, prev, c);
      if bestScore.None? || s > bestScore.value {
        bestScore := Some(s);
        best := c;
      }
    }
  }

  /** One round: the start of frame m. */
  method NextStart(score: Score, x: Signal, p: Window, m: nat, prev: int) returns (best: int)
    requires WindowOk(p) && |x| >= p.w && 0 < m < FrameCount(|x|, p)
    ensures GoodStart(score, x, p, m, prev, best)
  {
    var n := |x|;
    var nominal := m * p.ha;
    NominalFits(n, p, m);
    var lo, hi := Max(0, nominal - p.delta), Min(n - p.w, nominal + p.delta);
    if hi <= lo {
      best := Max(0, Min(nominal, n - p.w));
    } else {
      best := Search(score, x, prev, lo, hi);
    }
  }

  method WsolaTiming(x: Signal, p: Window, score: Score) returns (starts: seq<int>)
    requires WindowOk(p)
    ensures |starts| == FrameCount(|x|, p)
    ensures |x| < p.w ==> starts == [0]
    ensures |x| >= p.w ==> GoodStarts(score, x, p, starts)
  {
    if |x| < p.w {
      return [0];
    }
    starts := [0];
    for m := 1 to FrameCount(|x|, p)
      invariant |starts| == m && GoodStarts(score, x, p, starts)
    {
      var best := NextStart(score, x, p, m, starts[m - 1]);
      starts := starts + [best];
    }
  }

  // ------------------------------------------------------------------
  // Overlap-add
  // ------------------------------------------------------------------

  /** Length of n frames that lie hs apart. */
  function Length(frames: nat, hs: nat, w: nat): nat
    requires frames >= 1
  {
    (frames - 1) * hs + w
  }

  /** Sample k of the windowed frame at s; beyond the signal it is silent. */
  function Windowed(x: Signal, win: Signal, s: int, k: nat): real
    requires k < |win|
  {
    var from := Max(0, Min(s, Max(0, |x| - 1)));
    if from + k < |x| then x[from + k] * win[k] else 0.0
  }

  function Frame(x: Signal, win: Signal, s: int): (f: Signal)
    ensures |f| == |win| && forall k :: 0 <= k < |win| ==> f[k] == Windowed(x, win, s, k)
  {
    seq(|win|, k requires 0 <= k < |win| => Windowed(x, win, s, k))
  }

  function Frames(x: Signal, win: Signal, starts: seq<int>): (fs: seq<Signal>)
    ensures |fs| == |starts| && forall i :: 0 <= i < |starts| ==> fs[i] == Frame(x, win, starts[i])
  {
    seq(|starts|, i requires 0 <= i < |starts| => Frame(x, win, starts[i]))
  }

  function Tiled(win: Signal, n: nat): (fs: seq<Signal>)
    ensures |fs| == n && forall i :: 0 <= i < n ==> fs[i] == win
  {
    seq(n, _ => win)
  }

  /** What the first i frames, hs apart, add up to at an output position. */
  function Gathered(fs: seq<Signal>, hs: nat, i: nat, pos: nat): real
    requires i <= |fs|
  {
    if i == 0 then 0.0 else Gathered(fs, hs, i - 1, pos) + At(fs[i - 1], (i - 1) * hs, pos)
  }

  /** Frame f, laid down from `from` on, at a position. */
  function At(f: Signal, from: nat, pos: nat): real { if from <= pos < from + |f| then f[pos - from] else 0.0 }

  lemma WriteFits(i: nat, frames: nat, hs: nat, w: nat, k: nat)
    requires i < frames && k < w
    ensures i * hs + k < Length(frames, hs, w)
  {
    Monotone(i, frames - 1, hs);
  }

  /** Scattering the frames over the output gives what gathering them there says; no frame is
      written beyond its end. */
  method ScatterAdd(fs: seq<Signal>, hs: nat, w: nat) returns (y: array<real>)
    requires |fs| >= 1 && forall i :: 0 <= i < |fs| ==> |fs[i]| == w
    ensures fresh(y) && y.Length == Length(|fs|, hs, w)
    ensures forall pos :: 0 <= pos < y.Length ==> y[pos] == Gathered(fs, hs, |fs|, pos)
  {
    y := new real[Length(|fs|, hs, w)](_ => 0.0);
    for i := 0 to |fs|
      invariant forall pos :: 0 <= pos < y.Length ==> y[pos] == Gathered(fs, hs, i, pos)
    {
      ghost var before := y[..];
      var f, from := fs[i], i * hs;
      for k := 0 to w
        invariant forall pos :: 0 <= pos < y.Length ==> y[pos] == before[pos] + At(f[..k], from, pos)
      {
        WriteFits(i, |fs|, hs, w, k);
        y[from + k] := y[from + k] + f[k];
      }
      assert f[..w] == f;
    }
  }

  const SMALL: real := 0.00000001

  function Clip(v: real): real { if v < -1.0 then -1.0 else if v > 1.0 then 1.0 else v }

  function AtLeastSmall(v: real): (r: real)
    ensures r > 0.0
  {
    if v >= SMALL then v else SMALL
  }

  /** The overlap-added signal at one position. */
  function Blended(x: Signal, win: Signal, starts: seq<int>, hs: nat, pos: nat): real {
    Clip(Gathered(Frames(x, win, starts), hs, |starts|, pos)
         / AtLeastSmall(Gathered(Tiled(win, |starts|), hs, |starts|, pos)))
  }

  method OverlapAdd(x: Signal, win: Signal, starts: seq<int>, hs: nat) returns (out: Signal)
    requires |starts| >= 1
    ensures |out| == Length(|starts|, hs, |win|)
    ensures forall pos :: 0 <= pos < |out| ==> out[pos] == Blended(x, win, starts, hs, pos)
  {
    var y := ScatterAdd(Frames(x, win, starts), hs, |win|);
    var norm := ScatterAdd(Tiled(win, |starts|), hs, |win|);
    out := seq(y.Length, pos requires 0 <= pos < y.Length reads y, norm requires norm.Length == y.Length =>
      Clip(y[pos] / AtLeastSmall(norm[pos])));
  }

  // ------------------------------------------------------------------
  // What the output means
  // ------------------------------------------------------------------

  /** Which sample of the signal the i-th frame puts at an output position, if it covers it. */
  ghost predicate Covers(hs: nat, w: nat, i: nat, pos: nat) { i * hs <= pos < i * hs + w }

  ghost predicate InSignal(x: Signal, w: nat, starts: seq<int>) {
    forall i :: 0 <= i < |starts| ==> 0 <= starts[i] <= |x| - w
  }

  function SampleOf(x: Signal, starts: seq<int>, hs: nat, i: nat, pos: nat): real
    requires i < |starts|
  {
    var k := starts[i] + pos - i * hs;
    if 0 <= k < |x| then x[k] else 0.0
  }

  /** All samples that frames put at the position lie between lo and hi. */
  ghost predicate Between(x: Signal, w: nat, starts: seq<int>, hs: nat, pos: nat, lo: real, hi: real) {
    forall i: nat :: i < |starts| && Covers(hs, w, i, pos) ==> lo <= SampleOf(x, starts, hs, i, pos) <= hi
  }

  /** Where all frames that cover a position agree on its sample, it is the output (clipped). */
  lemma AgreeingFrames(x: Signal, win: Signal, starts: seq<int>, hs: nat, pos: nat, v: real)
    requires InSignal(x, |win|, starts) && Between(x, |win|, starts, hs, pos, v, v)
    requires Gathered(Tiled(win, |starts|), hs, |starts|, pos) >= SMALL
    ensures Blended(x, win, starts, hs, pos) == Clip(v)
  {
    var fs, gs := Frames(x, win, starts), Tiled(win, |starts|);
    var n := |starts|;
    forall i: nat | i < n ensures AgreesAt(fs[i], gs[i], i * hs, pos, v) {
      FrameAgrees(x, win, starts, hs, i, pos, v);
    }
    AgreeingSum(fs, gs, hs, n, pos, v);
    var a, b := Gathered(fs, hs, n, pos), Gathered(gs, hs, n, pos);
    BlendedIs(x, win, starts, hs, pos, a, b);
    Cancel(v, a, b);
  }

  ghost predicate AgreesAt(f: Signal, g: Signal, from: nat, pos: nat, v: real) {
    At(f, from, pos) == Product(v, At(g, from, pos))
  }

  lemma FrameAgrees(x: Signal, win: Signal, starts: seq<int>, hs: nat, i: nat, pos: nat, v: real)
    requires InSignal(x, |win|, starts) && Between(x, |win|, starts, hs, pos, v, v) && i < |starts|
    ensures AgreesAt(Frame(x, win, starts[i]), win, i * hs, pos, v)
  {
    var from := i * hs;
    if from <= pos < from + |win| {
      assert Covers(hs, |win|, i, pos) && SampleOf(x, starts, hs, i, pos) == v;
      WindowedIs(x, win, starts[i], pos - from, v);
    }
  }

  /** A frame takes its samples from where it starts. */
  lemma WindowedIs(x: Signal, win: Signal, s: int, k: nat, v: real)
    requires 0 <= s <= |x| - |win| && k < |win| && x[s + k] == v
    ensures Windowed(x, win, s, k) == Product(v, win[k])
  {
  }

  lemma BlendedIs(x: Signal, win: Signal, starts: seq<int>, hs: nat, pos: nat, a: real, b: real)
    requires a == Gathered(Frames(x, win, starts), hs, |starts|, pos)
    requires b == Gathered(Tiled(win, |starts|), hs, |starts|, pos)
    ensures Blended(x, win, starts, hs, pos) == Clip(a / AtLeastSmall(b))
  {
  }

  lemma Cancel(v: real, x: real, n: real)
    requires n > 0.0 && x == Product(v, n)
    ensures x / n == v
  {
    assert (x / n - v) * n == 0.0;
  }

  function Product(v: real, x: real): real { v * x }

  lemma GatheredStep(fs: seq<Signal>, hs: nat, i: nat, from: nat, pos: nat)
    requires 1 <= i <= |fs| && from == (i - 1) * hs
    ensures Gathered(fs, hs, i, pos) == Gathered(fs, hs, i - 1, pos) + At(fs[i - 1], from, pos)
  {
  }

  lemma {:induction false} AgreeingSum(fs: seq<Signal>, gs: seq<Signal>, hs: nat, i: nat, pos: nat, v: real)
    requires i <= |fs| == |gs| && forall m: nat :: m < |fs| ==> AgreesAt(fs[m], gs[m], m * hs, pos, v)
    ensures Gathered(fs, hs, i, pos) == Product(v, Gathered(gs, hs, i, pos))
    decreases i
  {
    if i == 0 {
      assert Gathered(gs, hs, 0, pos) == 0.0;
    } else {
      var from := (i - 1) * hs;
      AgreeingSum(fs, gs, hs, i - 1, pos, v);
      GatheredStep(fs, hs, i, from, pos);
      GatheredStep(gs, hs, i, from, pos);
      assert AgreesAt(fs[i - 1], gs[i - 1], from, pos, v);
      Sum(v, Gathered(fs, hs, i - 1, pos), Gathered(gs, hs, i - 1, pos), At(fs[i - 1], from, pos), At(gs[i - 1], from, pos));
    }
  }

  lemma Sum(v: real, a: real, b: real, c: real, d: real)
    requires a == Product(v, b) && c == Product(v, d)
    ensures a + c == Product(v, b + d)
  {
  }

  /** A steady signal comes out as it went in wherever the windows do not vanish. */
  lemma SteadySignal(x: Signal, win: Signal, starts: seq<int>, hs: nat, pos: nat, v: real)
    requires InSignal(x, |win|, starts) && forall k :: 0 <= k < |x| ==> x[k] == v
    requires Gathered(Tiled(win, |starts|), hs, |starts|, pos) >= SMALL
    ensures Blended(x, win, starts, hs, pos) == Clip(v)
  {
    forall i: nat | i < |starts| && Covers(hs, |win|, i, pos) ensures SampleOf(x, starts, hs, i, pos) == v {
      Lands(x, |win|, starts, hs, i, pos);
    }
    AgreeingFrames(x, win, starts, hs, pos, v);
  }

  lemma Lands(x: Signal, w: nat, starts: seq<int>, hs: nat, i: nat, pos: nat)
    requires InSignal(x, w, starts) && i < |starts| && Covers(hs, w, i, pos)
    ensures var k := starts[i] + pos - i * hs; 0 <= k < |x| && SampleOf(x, starts, hs, i, pos) == x[k]
  {
    assert 0 <= starts[i] <= |x| - w;
  }

  /** Frames taken from where they are put reproduce the signal. */
  lemma FramesInStep(x: Signal, win: Signal, starts: seq<int>, hs: nat, pos: nat)
    requires InSignal(x, |win|, starts) && pos < |x| && forall i: nat :: i < |starts| ==> starts[i] == i * hs
    requires Gathered(Tiled(win, |starts|), hs, |starts|, pos) >= SMALL
    ensures Blended(x, win, starts, hs, pos) == Clip(x[pos])
  {
    forall i: nat | i < |starts| && Covers(hs, |win|, i, pos) ensures SampleOf(x, starts, hs, i, pos) == x[pos] {
      Lands(x, |win|, starts, hs, i, pos);
      assert starts[i] == i * hs;
    }
    AgreeingFrames(x, win, starts, hs, pos, x[pos]);
  }

  /** One frame moves the signal by where it starts. */
  lemma OneFrame(x: Signal, win: Signal, s: int, hs: nat, pos: nat)
    requires 0 <= s <= |x| - |win| && pos < |win| && win[pos] >= SMALL
    ensures Blended(x, win, [s], hs, pos) == Clip(x[s + pos])
  {
    var starts, gs := [s], Tiled(win, 1);
    GatheredStep(gs, hs, 1, 0, pos);
    assert Gathered(gs, hs, 0, pos) == 0.0 && At(win, 0, pos) == win[pos];
    forall i: nat | i < 1 && Covers(hs, |win|, i, pos) ensures SampleOf(x, starts, hs, i, pos) == x[s + pos] {
      Lands(x, |win|, starts, hs, i, pos);
    }
    AgreeingFrames(x, win, starts, hs, pos, x[s + pos]);
  }

  /** With windows that are nowhere negative, the output at a position lies between the samples
      that the frames put there. */
  lemma BlendedBetween(x: Signal, win: Signal, starts: seq<int>, hs: nat, pos: nat, lo: real, hi: real)
    requires InSignal(x, |win|, starts) && Between(x, |win|, starts, hs, pos, lo, hi)
    requires forall k :: 0 <= k < |win| ==> win[k] >= 0.0
    requires Gathered(Tiled(win, |starts|), hs, |starts|, pos) >= SMALL
    ensures Clip(lo) <= Blended(x, win, starts, hs, pos) <= Clip(hi)
  {
    var fs, gs := Frames(x, win, starts), Tiled(win, |starts|);
    var n := |starts|;
    forall i: nat | i < n ensures BoundedAt(fs[i], gs[i], i * hs, pos, lo, hi) {
      FrameBounded(x, win, starts, hs, i, pos, lo, hi);
    }
    BoundedSum(fs, gs, hs, n, pos, lo, hi);
    var a, b := Gathered(fs, hs, n, pos), Gathered(gs, hs, n, pos);
    BlendedIs(x, win, starts, hs, pos, a, b);
    QuotientBetween(a, b, lo, hi);
  }

  ghost predicate BoundedAt(f: Signal, g: Signal, from: nat, pos: nat, lo: real, hi: real) {
    Product(lo, At(g, from, pos)) <= At(f, from, pos) <= Product(hi, At(g, from, pos))
  }

  lemma FrameBounded(x: Signal, win: Signal, starts: seq<int>, hs: nat, i: nat, pos: nat, lo: real, hi: real)
    requires InSignal(x, |win|, starts) && Between(x, |win|, starts, hs, pos, lo, hi) && i < |starts|
    requires forall k :: 0 <= k < |win| ==> win[k] >= 0.0
    ensures BoundedAt(Frame(x, win, starts[i]), win, i * hs, pos, lo, hi)
  {
    var from := i * hs;
    if from <= pos < from + |win| {
      Lands(x, |win|, starts, hs, i, pos);
      assert Covers(hs, |win|, i, pos);
      var v, k := SampleOf(x, starts, hs, i, pos), pos - from;
      WindowedIs(x, win, starts[i], k, v);
      Weighs(lo, v, win[k]);
      Weighs(v, hi, win[k]);
    }
  }

  lemma Weighs(a: real, b: real, x: real)
    requires a <= b && x >= 0.0
    ensures Product(a, x) <= Product(b, x)
  {
    assert (b - a) * x >= 0.0;
  }

  lemma {:induction false} BoundedSum(fs: seq<Signal>, gs: seq<Signal>, hs: nat, i: nat, pos: nat, lo: real, hi: real)
    requires i <= |fs| == |gs| && forall m: nat :: m < |fs| ==> BoundedAt(fs[m], gs[m], m * hs, pos, lo, hi)
    ensures Product(lo, Gathered(gs, hs, i, pos)) <= Gathered(fs, hs, i, pos) <= Product(hi, Gathered(gs, hs, i, pos))
    decreases i
  {
    if i == 0 {
      assert Gathered(gs, hs, 0, pos) == 0.0;
    } else {
      var from := (i - 1) * hs;
      BoundedSum(fs, gs, hs, i - 1, pos, lo, hi);
      GatheredStep(fs, hs, i, from, pos);
      GatheredStep(gs, hs, i, from, pos);
      assert BoundedAt(fs[i - 1], gs[i - 1], from, pos, lo, hi);
      Distribute(lo, Gathered(gs, hs, i - 1, pos), At(gs[i - 1], from, pos));
      Distribute(hi, Gathered(gs, hs, i - 1, pos), At(gs[i - 1], from, pos));
    }
  }

  lemma Distribute(v: real, a: real, b: real)
    ensures Product(v, a + b) == Product(v, a) + Product(v, b)
  {
  }

  lemma QuotientBetween(a: real, n: real, lo: real, hi: real)
    requires n > 0.0 && Product(lo, n) <= a <= Product(hi, n)
    ensures lo <= a / n <= hi
  {
    Cancel(lo, Product(lo, n), n);
    Cancel(hi, Product(hi, n), n);
    Divides(Product(lo, n), a, n);
    Divides(a, Product(hi, n), n);
  }

  lemma Divides(a: real, b: real, n: real)
    requires n > 0.0 && a <= b
    ensures a / n <= b / n
  {
    assert (b - a) / n >= 0.0;
    assert b / n - a / n == (b - a) / n;
  }

  // ------------------------------------------------------------------
  // Rendering a block
  // ------------------------------------------------------------------

  /** The samples in out are the first ones of the block's frames, taken at good starts and laid
      down hs apart. */
  ghost predicate RenderedFrom(out: Signal, block: Signal, p: Window, hs: nat, win: Signal, score: Score, starts: seq<int>) {
    && (if |block| < p.w then starts == [0] else GoodStarts(score, block, p, starts))
    && |out| <= Length(|starts|, hs, p.w)
    && forall pos :: 0 <= pos < |out| ==> out[pos] == Blended(block, win, starts, hs, pos)
  }

  ghost predicate Rendered(out: Signal, block: Signal, p: Window, hs: nat, win: Signal, score: Score, frames: nat)
    requires WindowOk(p)
  {
    exists starts :: |starts| == Min(frames, FrameCount(|block|, p)) && RenderedFrom(out, block, p, hs, win, score, starts)
  }

  lemma RenderedPart(full: Signal, part: Signal, block: Signal, p: Window, hs: nat, win: Signal, score: Score, frames: nat)
    requires WindowOk(p) && part <= full && Rendered(full, block, p, hs, win, score, frames)
    ensures Rendered(part, block, p, hs, win, score, frames)
  {
    var starts :| |starts| == Min(frames, FrameCount(|block|, p)) && RenderedFrom(full, block, p, hs, win, score, starts);
    assert RenderedFrom(part, block, p, hs, win, score, starts);
  }

  lemma GoodPrefix(score: Score, x: Signal, p: Window, starts: seq<int>, n: nat)
    requires GoodStarts(score, x, p, starts) && 1 <= n <= |starts|
    ensures GoodStarts(score, x, p, starts[..n])
  {
    forall m | 0 < m < n ensures GoodStart(score, x, p, m, starts[..n][m - 1], starts[..n][m]) {
      assert GoodStart(score, x, p, m, starts[m - 1], starts[m]);
    }
  }

  lemma GoodInSignal(score: Score, x: Signal, p: Window, starts: seq<int>)
    requires GoodStarts(score, x, p, starts)
    ensures InSignal(x, p.w, starts)
  {
    forall i | 0 <= i < |starts| ensures 0 <= starts[i] <= |x| - p.w {
      if i > 0 { assert GoodStart(score, x, p, i, starts[i - 1], starts[i]); }
    }
  }

  lemma NominalStarts(score: Score, x: Signal, p: Window, starts: seq<int>)
    requires GoodStarts(score, x, p, starts) && p.delta == 0
    ensures forall i: nat :: i < |starts| ==> starts[i] == i * p.ha
  {
    forall i: nat | i < |starts| ensures starts[i] == i * p.ha {
      if i > 0 { assert GoodStart(score, x, p, i, starts[i - 1], starts[i]); }
    }
  }

  /** With hops as they are analysed and no search, rendering reproduces the block. */
  lemma RenderedInStep(out: Signal, block: Signal, p: Window, win: Signal, score: Score, starts: seq<int>, pos: nat)
    requires WindowOk(p) && |win| == p.w && p.delta == 0 && |block| >= p.w
    requires RenderedFrom(out, block, p, p.ha, win, score, starts) && pos < |out| && pos < |block|
    requires Gathered(Tiled(win, |starts|), p.ha, |starts|, pos) >= SMALL
    ensures out[pos] == Clip(block[pos])
  {
    GoodInSignal(score, block, p, starts);
    NominalStarts(score, block, p, starts);
    FramesInStep(block, win, starts, p.ha, pos);
  }

  /** At most `frames` frames of a block. */
  method Render(block: Signal, p: Window, hs: nat, win: Signal, score: Score, frames: nat) returns (out: Signal)
    requires WindowOk(p) && |win| == p.w && frames >= 1
    ensures |out| == Length(Min(frames, FrameCount(|block|, p)), hs, p.w)
    ensures Rendered(out, block, p, hs, win, score, frames)
  {
    var starts := WsolaTiming(block, p, score);
    if frames < |starts| {
      if |block| >= p.w { GoodPrefix(score, block, p, starts, frames); }
      starts := starts[..frames];
    }
    out := OverlapAdd(block, win, starts, hs);
    assert RenderedFrom(out, block, p, hs, win, score, starts);
  }

  // ------------------------------------------------------------------
  // One shot
  // ------------------------------------------------------------------

  /** Output length of `time_stretch_wsola` for n samples. */
  function StretchLength(n: nat, p: Window, hs: nat, identity: bool): nat
    requires WindowOk(p)
  {
    if identity || n < p.w then n else Length(1 + (n - p.w) / p.ha, hs, p.w)
  }

  method TimeStretch(x: Signal, p: Window, hs: nat, win: Signal, score: Score, identity: bool) returns (out: Signal)
    requires WindowOk(p) && |win| == p.w
    ensures |out| == StretchLength(|x|, p, hs, identity)
    ensures identity || |x| < p.w ==> out == x
    ensures !identity && |x| >= p.w ==> Rendered(out, x, p, hs, win, score, FrameCount(|x|, p))
  {
    if identity {
      return x;
    }
    if |x| < p.w {
      return x;
    }
    out := Render(x, p, hs, win, score, FrameCount(|x|, p));
  }

  // ------------------------------------------------------------------
  // The stream
  // ------------------------------------------------------------------

  /** Held back so that the next chunk can be matched. */
  function Retain(p: Window): nat { p.w + p.delta + p.ha }

  /** How many hops can be rendered with n samples buffered. */
  function Hops(n: nat, p: Window): nat
    requires WindowOk(p)
  {
    var usable := n - Retain(p);
    if usable <= p.w then 0 else 1 + (usable - p.w) / p.ha
  }

  /** What rendering `hops` hops emits. */
  function HopsLength(hops: nat, p: Window, hs: nat): nat {
    if hops == 0 then 0 else Min(Length(hops, hs, p.w), hops * hs)
  }

  function FlushLength(n: nat, p: Window, hs: nat): nat
    requires WindowOk(p)
  {
    if n == 0 then 0 else Length(FrameCount(n, p), hs, p.w)
  }

  /** The block that is rendered for them. */
  function BlockLength(n: nat, p: Window): nat
    requires WindowOk(p)
  {
    Hops(n, p) * p.ha + (p.w - p.ha)
  }

  /** The rest at the end of a stream, filled up to a window. */
  function Padded(x: Signal, p: Window): Signal { if |x| < p.w then x + seq(p.w - |x|, _ => 0.0) else x }

  /** What a push puts out: the frames of the block at the front of the buffer. */
  ghost predicate HopsRendered(out: Signal, all: Signal, p: Window, hs: nat, win: Signal, score: Score)
    requires WindowOk(p)
  {
    var (hops, block) := (Hops(|all|, p), BlockLength(|all|, p));
    hops > 0 ==> block <= |all| && Rendered(out, all[..block], p, hs, win, score, hops)
  }

  /** What a flush puts out: all frames of the rest. */
  ghost predicate RestRendered(out: Signal, rest: Signal, p: Window, hs: nat, win: Signal, score: Score)
    requires WindowOk(p)
  {
    rest != [] ==> Rendered(out, Padded(rest, p), p, hs, win, score, FrameCount(|Padded(rest, p)|, p))
  }

  lemma HopsFit(n: nat, p: Window)
    requires WindowOk(p) && Hops(n, p) > 0
    ensures var block := Hops(n, p) * p.ha + (p.w - p.ha);
      p.w <= block <= n && FrameCount(block, p) == Hops(n, p)
    ensures n - Hops(n, p) * p.ha >= p.w && Hops(n - Hops(n, p) * p.ha, p) == 0
  {
    var hops := Hops(n, p);
    var q := (n - Retain(p) - p.w) / p.ha;
    assert hops * p.ha == q * p.ha + p.ha;
    assert q * p.ha <= n - Retain(p) - p.w < q * p.ha + p.ha;
    DivExact(q, p.ha);
  }

  lemma DivExact(q: nat, k: nat)
    requires k > 0
    ensures q * k / k == q
  {
    QuotientUnique(q * k, k, q, 0);
  }

  class TTSRateShifter {
    const p: Window
    const hs: nat
    const win: Signal
    const score: Score
    const identity: bool
    var buf: Signal
    var closed: bool

    ghost predicate Valid() {
      WindowOk(p) && |win| == p.w
    }

    constructor (p: Window, hs: nat, win: Signal, score: Score, identity: bool)
      requires WindowOk(p) && |win| == p.w
      ensures Valid() && this.p == p && this.hs == hs && this.identity == identity
      ensures buf == [] && !closed
    {
      this.p, this.hs, this.win, this.score, this.identity := p, hs, win, score, identity;
      buf, closed := [], false;
    }

    method ProcessAvailable(final: bool) returns (out: Signal)
      requires Valid()
      modifies this`buf
      ensures final ==> buf == [] && |out| == FlushLength(|old(buf)|, p, hs) && RestRendered(out, old(buf), p, hs, win, score)
      ensures !final ==> |out| == HopsLength(Hops(|old(buf)|, p), p, hs) && HopsRendered(out, old(buf), p, hs, win, score)
      ensures !final ==> Hops(|old(buf)|, p) * p.ha <= |old(buf)| && buf == old(buf)[Hops(|old(buf)|, p) * p.ha..]
    {
      var n := |buf|;
      if n < p.w {
        if !final {
          return [];
        }
        if n == 0 {
          return [];
        }
        out := RenderRest(Padded(buf, p));
        buf := [];
        return;
      }
      if final {
        out := RenderRest(buf);
        buf := [];
        return;
      }
      out := RenderAvailable();
    }

    /** The streaming part: whole hops are rendered, and consumed. */
    method RenderAvailable() returns (out: Signal)
      requires Valid()
      modifies this`buf
      ensures |out| == HopsLength(Hops(|old(buf)|, p), p, hs) && HopsRendered(out, old(buf), p, hs, win, score)
      ensures Hops(|old(buf)|, p) * p.ha <= |old(buf)| && buf == old(buf)[Hops(|old(buf)|, p) * p.ha..]
    {
      var n := |buf|;
      var usable := n - Retain(p);
      if usable <= p.w {
        return [];
      }
      var hops := 1 + (usable - p.w) / p.ha;
      HopsFit(n, p);
      var consume := hops * p.ha;
      var block := buf[..consume + (p.w - p.ha)];
      out := RenderHops(block, hops);
      buf := buf[consume..];
    }

    method RenderRest(block: Signal) returns (out: Signal)
      requires Valid()
      ensures |out| == Length(FrameCount(|block|, p), hs, p.w)
      ensures Rendered(out, block, p, hs, win, score, FrameCount(|block|, p))
    {
      out := Render(block, p, hs, win, score, FrameCount(|block|, p));
    }

    method RenderHops(block: Signal, hops: nat) returns (out: Signal)
      requires Valid() && hops >= 1 && FrameCount(|block|, p) == hops
      ensures |out| == HopsLength(hops, p, hs) && Rendered(out, block, p, hs, win, score, hops)
    {
      var full := RenderRest(block);
      out := Emit(full, hops);
      RenderedPart(full, out, block, p, hs, win, score, hops);
    }

    method Emit(full: Signal, hops: nat) returns (out: Signal)
      requires hops >= 1 && |full| == Length(hops, hs, p.w)
      ensures |out| == HopsLength(hops, p, hs) && out <= full
    {
      out := full[..Min(|full|, hops * hs)];
    }

    method Push(chunk: Signal) returns (out: Signal)
      requires Valid()
      modifies this`buf
      ensures identity ==> out == chunk && buf == old(buf)
      ensures !identity && chunk == [] ==> out == [] && buf == old(buf)
      ensures !identity && chunk != [] ==>
        var all := old(buf) + chunk;
        && |out| == HopsLength(Hops(|all|, p), p, hs)
        && Hops(|all|, p) * p.ha <= |all| && buf == all[Hops(|all|, p) * p.ha..]
        && HopsRendered(out, all, p, hs, win, score)
    {
      if identity {
        return chunk;
      }
      if chunk == [] {
        return [];
      }
      buf := buf + chunk;
      out := ProcessAvailable(false);
    }

    method Flush() returns (out: Signal)
      requires Valid()
      modifies this
      ensures closed
      ensures identity || old(closed) ==> out == [] && buf == old(buf)
      ensures !identity && !old(closed) ==> buf == [] && |out| == FlushLength(|old(buf)|, p, hs)
      ensures !identity && !old(closed) ==> RestRendered(out, old(buf), p, hs, win, score)
    {
      if identity || closed {
        closed := true;
        return [];
      }
      closed := true;
      out := ProcessAvailable(true);
    }
  }

  // ------------------------------------------------------------------
  // The stream is as long as the one shot
  // ------------------------------------------------------------------

  /** A stream by its lengths: samples buffered, samples emitted, renderings so far. */
  datatype Stream = Stream(buffered: nat, emitted: nat, renders: nat)

  function PushLength(s: Stream, chunk: nat, p: Window, hs: nat): Stream
    requires WindowOk(p)
  {
    if chunk == 0 then s
    else
      var hops := Hops(s.buffered + chunk, p);
      if hops == 0 then s.(buffered := s.buffered + chunk)
      else
        HopsFit(s.buffered + chunk, p);
        Stream(s.buffered + chunk - hops * p.ha, s.emitted + HopsLength(hops, p, hs), s.renders + 1)
  }

  function PushAll(chunks: seq<nat>, p: Window, hs: nat): Stream
    requires WindowOk(p)
  {
    if chunks == [] then Stream(0, 0, 0) else PushLength(PushAll(chunks[..|chunks| - 1], p, hs), chunks[|chunks| - 1], p, hs)
  }

  /** Everything that push returned and what flush adds. */
  function StreamLength(chunks: seq<nat>, p: Window, hs: nat): nat
    requires WindowOk(p)
  {
    PushAll(chunks, p, hs).emitted + FlushLength(PushAll(chunks, p, hs).buffered, p, hs)
  }

  function Total(chunks: seq<nat>): nat { if chunks == [] then 0 else Total(chunks[..|chunks| - 1]) + chunks[|chunks| - 1] }

  /** What the hops of a rendering lose when they lie further apart than a window is long. */
  function Lost(p: Window, hs: nat): nat { Max(0, hs - p.w) }

  lemma HopsLose(hops: nat, p: Window, hs: nat)
    requires hops > 0
    ensures HopsLength(hops, p, hs) == hops * hs - Lost(p, hs)
  {
    assert hops * hs == (hops - 1) * hs + hs;
  }

  /** After k hops: k analysis hops consumed, k synthesis hops emitted. */
  ghost predicate Balanced(s: Stream, total: nat, k: nat, p: Window, hs: nat) {
    && total == s.buffered + k * p.ha
    && s.emitted + s.renders * Lost(p, hs) == k * hs
    && (k == 0 ==> s.renders == 0) && (k > 0 ==> s.buffered >= p.w)
  }

  lemma PushBalances(s: Stream, total: nat, k: nat, chunk: nat, p: Window, hs: nat) returns (k1: nat)
    requires WindowOk(p) && Balanced(s, total, k, p, hs)
    ensures Balanced(PushLength(s, chunk, p, hs), total + chunk, k1, p, hs)
  {
    var n := s.buffered + chunk;
    var hops := Hops(n, p);
    k1 := k + if chunk == 0 then 0 else hops;
    if chunk > 0 && hops > 0 {
      HopsFit(n, p);
      HopsLose(hops, p, hs);
      Products(k, hops, p.ha, hs, s.renders, Lost(p, hs));
    }
  }

  lemma Products(k: nat, hops: nat, ha: nat, hs: nat, renders: nat, lost: nat)
    ensures (k + hops) * ha == k * ha + hops * ha && (k + hops) * hs == k * hs + hops * hs
    ensures (renders + 1) * lost == renders * lost + lost
  {
  }

  lemma {:induction false} PushAllBalances(chunks: seq<nat>, p: Window, hs: nat) returns (k: nat)
    requires WindowOk(p)
    ensures Balanced(PushAll(chunks, p, hs), Total(chunks), k, p, hs)
  {
    if chunks == [] {
      k := 0;
    } else {
      var front := chunks[..|chunks| - 1];
      k := PushAllBalances(front, p, hs);
      k := PushBalances(PushAll(front, p, hs), Total(front), k, chunks[|chunks| - 1], p, hs);
    }
  }

  lemma FlushCompletes(n: nat, k: nat, p: Window, hs: nat)
    requires WindowOk(p) && n >= p.w
    ensures k * hs + FlushLength(n, p, hs) == (n + k * p.ha - p.w) / p.ha * hs + p.w
  {
    var q := (n - p.w) / p.ha;
    MoreWhole(n - p.w, k, p.ha);
    assert (q + k) * hs == q * hs + k * hs;
  }

  lemma MoreWhole(x: nat, k: nat, ha: nat)
    requires ha > 0
    ensures (x + k * ha) / ha == x / ha + k
  {
    assert x == x / ha * ha + x % ha;
    assert (x / ha + k) * ha == x / ha * ha + k * ha;
    QuotientUnique(x + k * ha, ha, x / ha + k, x % ha);
  }

  /** However the signal is chopped up, the stream emits what the one shot does, less what
      renderings with hops wider than the window lose. */
  lemma StreamLengthIs(chunks: seq<nat>, p: Window, hs: nat)
    requires WindowOk(p) && Total(chunks) >= p.w
    ensures StreamLength(chunks, p, hs) + PushAll(chunks, p, hs).renders * Lost(p, hs)
         == StretchLength(Total(chunks), p, hs, false)
  {
    var k := PushAllBalances(chunks, p, hs);
    FlushCompletes(PushAll(chunks, p, hs).buffered, k, p, hs);
  }

  /** Something is rendered before the flush exactly when the signal is longer than what is held
      back and one window, however it is chopped up. */
  lemma {:induction false} RendersExactlyWhen(chunks: seq<nat>, p: Window, hs: nat)
    requires WindowOk(p)
    ensures var s := PushAll(chunks, p, hs);
      if s.renders == 0 then s.buffered == Total(chunks) <= Retain(p) + p.w else Total(chunks) > Retain(p) + p.w
  {
    if chunks != [] {
      RendersExactlyWhen(chunks[..|chunks| - 1], p, hs);
      HopsPositive(PushAll(chunks[..|chunks| - 1], p, hs).buffered + chunks[|chunks| - 1], p);
    }
  }

  lemma HopsPositive(n: nat, p: Window)
    requires WindowOk(p)
    ensures Hops(n, p) > 0 <==> n > Retain(p) + p.w
  {
  }

  /** The stream is as long as the one shot exactly for empty signals and for those of at least a
      window, provided that hops are no wider than a window or nothing is rendered before the
      flush. */
  lemma StreamMatchesOneShot(chunks: seq<nat>, p: Window, hs: nat)
    requires WindowOk(p)
    ensures StreamLength(chunks, p, hs) == StretchLength(Total(chunks), p, hs, false)
       <==> Total(chunks) == 0 || (Total(chunks) >= p.w && (hs <= p.w || Total(chunks) <= Retain(p) + p.w))
  {
    var s, n := PushAll(chunks, p, hs), Total(chunks);
    RendersExactlyWhen(chunks, p, hs);
    if n >= p.w {
      StreamLengthIs(chunks, p, hs);
      LosesNothing(s.renders, Lost(p, hs));
    } else {
      var k := PushAllBalances(chunks, p, hs);
      TooShort(n, s.buffered, k, p);
    }
  }

  lemma LosesNothing(renders: nat, lost: nat)
    ensures renders * lost == 0 <==> renders == 0 || lost == 0
  {
    if renders > 0 { Monotone(1, renders, lost); }
  }

  lemma TooShort(n: nat, buffered: nat, k: nat, p: Window)
    requires WindowOk(p) && n < p.w && n == buffered + k * p.ha && (k > 0 ==> buffered >= p.w)
    ensures k == 0 && buffered == n
  {
  }

  // ------------------------------------------------------------------
  // A whole stream through the shifter
  // ------------------------------------------------------------------

  function Joined(chunks: seq<Signal>): Signal {
    if chunks == [] then [] else Joined(chunks[..|chunks| - 1]) + chunks[|chunks| - 1]
  }

  function Lengths(chunks: seq<Signal>): seq<nat> { seq(|chunks|, k requires 0 <= k < |chunks| => |chunks[k]|) }

  lemma {:induction false} JoinedLength(chunks: seq<Signal>)
    ensures |Joined(chunks)| == Total(Lengths(chunks))
  {
    if chunks != [] {
      var n := |chunks| - 1;
      JoinedLength(chunks[..n]);
      assert Lengths(chunks)[..n] == Lengths(chunks[..n]);
    }
  }

  lemma OneMoreChunk(chunks: seq<Signal>, k: nat, p: Window, hs: nat)
    requires WindowOk(p) && k < |chunks|
    ensures Joined(chunks[..k + 1]) == Joined(chunks[..k]) + chunks[k]
    ensures PushAll(Lengths(chunks[..k + 1]), p, hs) == PushLength(PushAll(Lengths(chunks[..k]), p, hs), |chunks[k]|, p, hs)
  {
    assert chunks[..k + 1][..k] == chunks[..k];
    assert Lengths(chunks[..k + 1])[..k] == Lengths(chunks[..k]);
  }

  lemma PushedLength(s: Stream, n: nat, p: Window, hs: nat, left: nat, more: nat)
    requires WindowOk(p) && n > 0 && more == HopsLength(Hops(s.buffered + n, p), p, hs)
    requires left + Hops(s.buffered + n, p) * p.ha == s.buffered + n
    ensures PushLength(s, n, p, hs).buffered == left && PushLength(s, n, p, hs).emitted == s.emitted + more
  {
  }

  method PushOnto(shifter: TTSRateShifter, chunk: Signal, ghost s: Stream, out: Signal) returns (out1: Signal)
    requires shifter.Valid() && !shifter.identity && |shifter.buf| == s.buffered && |out| == s.emitted
    modifies shifter`buf
    ensures var s1 := PushLength(s, |chunk|, shifter.p, shifter.hs); |shifter.buf| == s1.buffered && |out1| == s1.emitted
  {
    var more := shifter.Push(chunk);
    out1 := out + more;
    if chunk != [] { PushedLength(s, |chunk|, shifter.p, shifter.hs, |shifter.buf|, |more|); }
  }

  /** Pushing the chunks one after the other, then flushing: what comes out is as long as the
      one-shot stretch of the joined chunks exactly under the condition above. */
  method PushAndFlush(shifter: TTSRateShifter, chunks: seq<Signal>) returns (out: Signal)
    requires shifter.Valid() && shifter.buf == [] && !shifter.closed
    modifies shifter
    ensures shifter.closed && shifter.buf == []
    ensures shifter.identity ==> out == Joined(chunks)
    ensures !shifter.identity ==> |out| == StreamLength(Lengths(chunks), shifter.p, shifter.hs)
    ensures var n := |Joined(chunks)|;
      |out| == StretchLength(n, shifter.p, shifter.hs, shifter.identity)
      <==> shifter.identity || n == 0
           || (n >= shifter.p.w && (shifter.hs <= shifter.p.w || n <= Retain(shifter.p) + shifter.p.w))
  {
    out := [];
    for k := 0 to |chunks|
      invariant !shifter.closed
      invariant shifter.identity ==> out == Joined(chunks[..k]) && shifter.buf == []
      invariant !shifter.identity ==>
        var s := PushAll(Lengths(chunks[..k]), shifter.p, shifter.hs); |shifter.buf| == s.buffered && |out| == s.emitted
    {
      OneMoreChunk(chunks, k, shifter.p, shifter.hs);
      if shifter.identity {
        var more := shifter.Push(chunks[k]);
        out := out + more;
      } else {
        out := PushOnto(shifter, chunks[k], PushAll(Lengths(chunks[..k]), shifter.p, shifter.hs), out);
      }
    }
    assert chunks[..|chunks|] == chunks;
    var rest := shifter.Flush();
    out := out + rest;
    JoinedLength(chunks);
    StreamMatchesOneShot(Lengths(chunks), shifter.p, shifter.hs);
  }
}
