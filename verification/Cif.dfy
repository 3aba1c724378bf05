/**
 Continuous integrate-and-fire: `cif` of paraformer_trt.py, over the reals.
 */
module Cif {

  type Vec = seq<real>

  function Plus(a: Vec, k: real, b: Vec): (r: Vec)
    requires |a| == |b|
    ensures |r| == |a| && forall j :: 0 <= j < |a| ==> r[j] == a[j] + k * b[j]
  {
    seq(|a|, j requires 0 <= j < |a| => a[j] + k * b[j])
  }

  function Over(a: Vec, k: real): (r: Vec)
    requires k != 0.0
    ensures |r| == |a| && forall j :: 0 <= j < |a| ==> r[j] == a[j] / k
  {
    seq(|a|, j requires 0 <= j < |a| => a[j] / k)
  }

  function Times(k: real, a: Vec): (r: Vec)
    ensures |r| == |a| && forall j :: 0 <= j < |a| ==> r[j] == k * a[j]
  {
    seq(|a|, j requires 0 <= j < |a| => k * a[j])
  }

  /** Tokens fired so far, and the weight and embedding that are still integrating. */
  datatype Acc = Acc(tokens: seq<Vec>, weight: real, embed: Vec)

  ghost predicate Sized(enc: seq<Vec>, alphas: seq<real>, d: nat) {
    |alphas| >= |enc| && forall t :: 0 <= t < |enc| ==> |enc[t]| == d
  }

  ghost predicate AccOk(a: Acc, d: nat) { |a.embed| == d && forall m :: 0 <= m < |a.tokens| ==> |a.tokens[m]| == d }

  lemma QuotientIs(x: real, q: real, y: real)
    requires y > 0.0 && x == q * y
    ensures x / y == q
  {
    assert (x / y - q) * y == 0.0;
  }

  lemma FloorStep(w: real, threshold: real)
    requires threshold > 0.0 && w >= threshold
    ensures ((w - threshold) / threshold).Floor == (w / threshold).Floor - 1 >= 0
  {
    var q := w / threshold;
    assert q * threshold == w;
    assert (q - 1.0) * threshold == w - threshold;
    QuotientIs(w - threshold, q - 1.0, threshold);
    if q < 1.0 { Negative(q - 1.0, threshold); }
  }

  function FireOnce(threshold: real, frame: Vec, a: Acc): Acc
    requires threshold > 0.0 && |frame| == |a.embed|
  {
    var excess := a.weight - threshold;
    Acc(a.tokens + [Over(Plus(a.embed, -excess, frame), threshold)], excess, Times(excess, frame))
  }

  function Fire(threshold: real, frame: Vec, a: Acc): (r: Acc)
    requires threshold > 0.0 && |frame| == |a.embed|
    ensures r.weight < threshold && |r.embed| == |frame|
    ensures AccOk(a, |frame|) ==> AccOk(r, |frame|)
    decreases if a.weight >= threshold then (a.weight / threshold).Floor + 1 else 0
  {
    if a.weight < threshold then a
    else
      FloorStep(a.weight, threshold);
      Fire(threshold, frame, FireOnce(threshold, frame, a))
  }

  function Step(threshold: real, alpha: real, frame: Vec, a: Acc): (r: Acc)
    requires threshold > 0.0 && |frame| == |a.embed|
    ensures |r.embed| == |frame| && (AccOk(a, |frame|) ==> AccOk(r, |frame|))
  {
    if alpha <= 0.0 then a
    else Fire(threshold, frame, Acc(a.tokens, a.weight + alpha, Plus(a.embed, alpha, frame)))
  }

  /** After the first t frames. */
  function Run(threshold: real, enc: seq<Vec>, alphas: seq<real>, start: Acc, t: nat): (r: Acc)
    requires threshold > 0.0 && t <= |enc| && Sized(enc, alphas, |start.embed|)
    ensures |r.embed| == |start.embed| && (AccOk(start, |start.embed|) ==> AccOk(r, |start.embed|))
  {
    if t == 0 then start
    else Step(threshold, alphas[t - 1], enc[t - 1], Run(threshold, enc, alphas, start, t - 1))
  }

  method Cif(enc: seq<Vec>, alphas: seq<real>, threshold: real, carryWeight: real, carryEmbed: Vec)
      returns (tokens: seq<Vec>, weight: real, embed: Vec)
    requires threshold > 0.0 && Sized(enc, alphas, |carryEmbed|)
    ensures Acc(tokens, weight, embed) == Run(threshold, enc, alphas, Acc([], carryWeight, carryEmbed), |enc|)
  {
    tokens, weight, embed := [], carryWeight, carryEmbed;
    for t := 0 to |enc|
      invariant |embed| == |carryEmbed|
      invariant Acc(tokens, weight, embed) == Run(threshold, enc, alphas, Acc([], carryWeight, carryEmbed), t)
    {
      var alpha := alphas[t];
      if alpha <= 0.0 {
        continue;
      }
      ghost var before := Acc(tokens, weight, embed);
      weight := weight + alpha;
      embed := Plus(embed, alpha, enc[t]);
      while weight >= threshold
        invariant |embed| == |carryEmbed|
        invariant Step(threshold, alpha, enc[t], before) == Fire(threshold, enc[t], Acc(tokens, weight, embed))
        decreases if weight >= threshold then (weight / threshold).Floor + 1 else 0
      {
        FloorStep(weight, threshold);
        var excess := weight - threshold;
        var token := Over(Plus(embed, -excess, enc[t]), threshold);
        tokens := tokens + [token];
        weight := excess;
        embed := Times(excess, enc[t]);
      }
    }
  }

  // ------------------------------------------------------------------
  // How many tokens
  // ------------------------------------------------------------------

  /** The sum of the positive alphas among the first t. */
  function Mass(alphas: seq<real>, t: nat): real
    requires t <= |alphas|
  {
    if t == 0 then 0.0 else Mass(alphas, t - 1) + if alphas[t - 1] > 0.0 then alphas[t - 1] else 0.0
  }

  /** The weight of n tokens. */
  function Fired(n: nat, threshold: real): real { if n == 0 then 0.0 else Fired(n - 1, threshold) + threshold }

  lemma {:induction false} FiredIs(n: nat, threshold: real)
    ensures Fired(n, threshold) == n as real * threshold
  {
    if n > 0 { FiredIs(n - 1, threshold); }
  }

  lemma {:induction false} FireWeight(threshold: real, frame: Vec, a: Acc)
    requires threshold > 0.0 && |frame| == |a.embed| && a.weight >= 0.0
    ensures var r := Fire(threshold, frame, a);
      0.0 <= r.weight < threshold
      && Fired(|r.tokens|, threshold) + r.weight == Fired(|a.tokens|, threshold) + a.weight
    decreases if a.weight >= threshold then (a.weight / threshold).Floor + 1 else 0
  {
    if a.weight >= threshold {
      FloorStep(a.weight, threshold);
      FireWeight(threshold, frame, FireOnce(threshold, frame, a));
    }
  }

  lemma StepWeight(threshold: real, alpha: real, frame: Vec, a: Acc)
    requires threshold > 0.0 && |frame| == |a.embed| && 0.0 <= a.weight < threshold
    ensures var r := Step(threshold, alpha, frame, a);
      0.0 <= r.weight < threshold
      && Fired(|r.tokens|, threshold) + r.weight
         == Fired(|a.tokens|, threshold) + a.weight + if alpha > 0.0 then alpha else 0.0
  {
    if alpha > 0.0 { FireWeight(threshold, frame, Acc(a.tokens, a.weight + alpha, Plus(a.embed, alpha, frame))); }
  }

  lemma {:induction false} WeightIsKept(threshold: real, enc: seq<Vec>, alphas: seq<real>, start: Acc, t: nat)
    requires threshold > 0.0 && t <= |enc| && Sized(enc, alphas, |start.embed|) && 0.0 <= start.weight < threshold
    ensures var r := Run(threshold, enc, alphas, start, t);
      0.0 <= r.weight < threshold
      && Fired(|r.tokens|, threshold) + r.weight == Fired(|start.tokens|, threshold) + start.weight + Mass(alphas, t)
  {
    if t > 0 {
      WeightIsKept(threshold, enc, alphas, start, t - 1);
      StepWeight(threshold, alphas[t - 1], enc[t - 1], Run(threshold, enc, alphas, start, t - 1));
    }
  }

  lemma Between(x: real, w: real, threshold: real)
    requires threshold > 0.0 && 0.0 <= w < threshold && x * threshold == w
    ensures 0.0 <= x < 1.0
  {
    if x < 0.0 { Negative(x, threshold); }
    if x >= 1.0 { AtLeastOne(x, threshold); }
  }

  lemma FloorIs(n: nat, w: real, threshold: real, x: real)
    requires threshold > 0.0 && 0.0 <= w < threshold && x == n as real * threshold + w
    ensures (x / threshold).Floor == n
  {
    var q := x / threshold;
    assert q * threshold == x;
    assert (q - n as real) * threshold == w;
    Between(q - n as real, w, threshold);
  }

  lemma Negative(x: real, y: real)
    requires x < 0.0 && y > 0.0
    ensures x * y < 0.0
  {
  }

  lemma AtLeastOne(x: real, y: real)
    requires x >= 1.0 && y > 0.0
    ensures x * y >= y
  {
  }

  /** One token for every whole threshold integrated. */
  lemma TokenCount(threshold: real, enc: seq<Vec>, alphas: seq<real>, carryWeight: real, carryEmbed: Vec)
    requires threshold > 0.0 && Sized(enc, alphas, |carryEmbed|) && 0.0 <= carryWeight < threshold
    ensures |Run(threshold, enc, alphas, Acc([], carryWeight, carryEmbed), |enc|).tokens|
         == ((carryWeight + Mass(alphas, |enc|)) / threshold).Floor
  {
    var start := Acc([], carryWeight, carryEmbed);
    WeightIsKept(threshold, enc, alphas, start, |enc|);
    var r := Run(threshold, enc, alphas, start, |enc|);
    CountFrom(|r.tokens|, r.weight, threshold, carryWeight + Mass(alphas, |enc|));
  }

  lemma CountFrom(n: nat, w: real, threshold: real, x: real)
    requires threshold > 0.0 && 0.0 <= w < threshold && Fired(n, threshold) + w == Fired(0, threshold) + x
    ensures (x / threshold).Floor == n
  {
    assert Fired(0, threshold) == 0.0;
    FiredIs(n, threshold);
    FloorIs(n, w, threshold, x);
  }

  // ------------------------------------------------------------------
  // What the tokens are made of
  // ------------------------------------------------------------------

  /** Coordinate j of threshold times the sum of the tokens. */
  function TokenSum(threshold: real, tokens: seq<Vec>, j: nat): real
    requires forall m :: 0 <= m < |tokens| ==> j < |tokens[m]|
  {
    if tokens == [] then 0.0
    else TokenSum(threshold, tokens[..|tokens| - 1], j) + threshold * tokens[|tokens| - 1][j]
  }

  function Weighed(alpha: real, x: real): real { if alpha > 0.0 then alpha * x else 0.0 }

  /** Coordinate j of the sum of alpha * frame over the frames with positive alpha. */
  function FrameSum(enc: seq<Vec>, alphas: seq<real>, t: nat, j: nat): real
    requires t <= |enc| && t <= |alphas| && forall i :: 0 <= i < t ==> j < |enc[i]|
  {
    if t == 0 then 0.0
    else FrameSum(enc, alphas, t - 1, j) + Weighed(alphas[t - 1], enc[t - 1][j])
  }

  lemma TokenMass(e: real, f: real, excess: real, threshold: real)
    requires threshold > 0.0
    ensures threshold * ((e + -excess * f) / threshold) + excess * f == e
  {
  }

  function Total(threshold: real, a: Acc, j: nat): real
    requires AccOk(a, |a.embed|) && j < |a.embed|
  {
    TokenSum(threshold, a.tokens, j) + a.embed[j]
  }

  lemma FireOnceEmbed(threshold: real, frame: Vec, a: Acc, j: nat)
    requires threshold > 0.0 && |frame| == |a.embed| && AccOk(a, |frame|) && j < |frame|
    ensures var b := FireOnce(threshold, frame, a);
      AccOk(b, |frame|) && Total(threshold, b, j) == Total(threshold, a, j)
  {
    var b, n := FireOnce(threshold, frame, a), |a.tokens|;
    assert b.tokens[..n] == a.tokens;
    TokenMass(a.embed[j], frame[j], a.weight - threshold, threshold);
  }

  lemma {:induction false} FireEmbed(threshold: real, frame: Vec, a: Acc, j: nat)
    requires threshold > 0.0 && |frame| == |a.embed| && AccOk(a, |frame|) && j < |frame|
    ensures Total(threshold, Fire(threshold, frame, a), j) == Total(threshold, a, j)
    decreases if a.weight >= threshold then (a.weight / threshold).Floor + 1 else 0
  {
    if a.weight >= threshold {
      FloorStep(a.weight, threshold);
      FireOnceEmbed(threshold, frame, a, j);
      FireEmbed(threshold, frame, FireOnce(threshold, frame, a), j);
    }
  }

  lemma StepEmbed(threshold: real, alpha: real, frame: Vec, a: Acc, j: nat)
    requires threshold > 0.0 && |frame| == |a.embed| && AccOk(a, |frame|) && j < |frame|
    ensures Total(threshold, Step(threshold, alpha, frame, a), j)
         == Total(threshold, a, j) + Weighed(alpha, frame[j])
  {
    if alpha > 0.0 { FireEmbed(threshold, frame, Acc(a.tokens, a.weight + alpha, Plus(a.embed, alpha, frame)), j); }
  }

  /** Nothing of the frames is lost or made up: tokens times threshold and what is still
      integrating add up to what came in. */
  lemma {:induction false} EmbeddingIsKept(threshold: real, enc: seq<Vec>, alphas: seq<real>, start: Acc, t: nat, j: nat)
    requires threshold > 0.0 && t <= |enc| && Sized(enc, alphas, |start.embed|) && AccOk(start, |start.embed|)
    requires j < |start.embed|
    ensures Total(threshold, Run(threshold, enc, alphas, start, t), j)
         == Total(threshold, start, j) + FrameSum(enc, alphas, t, j)
  {
    if t > 0 {
      var b, alpha, frame := Run(threshold, enc, alphas, start, t - 1), alphas[t - 1], enc[t - 1];
      EmbeddingIsKept(threshold, enc, alphas, start, t - 1, j);
      StepEmbed(threshold, alpha, frame, b, j);
      assert Run(threshold, enc, alphas, start, t) == Step(threshold, alpha, frame, b);
      assert FrameSum(enc, alphas, t, j) == FrameSum(enc, alphas, t - 1, j) + Weighed(alpha, frame[j]);
    }
  }

  // ------------------------------------------------------------------
  // In pieces
  // ------------------------------------------------------------------

  function Behind(first: seq<Vec>, a: Acc): Acc { a.(tokens := first + a.tokens) }

  lemma {:induction false} FireBehind(threshold: real, frame: Vec, first: seq<Vec>, a: Acc)
    requires threshold > 0.0 && |frame| == |a.embed|
    ensures Fire(threshold, frame, Behind(first, a)) == Behind(first, Fire(threshold, frame, a))
    decreases if a.weight >= threshold then (a.weight / threshold).Floor + 1 else 0
  {
    if a.weight >= threshold {
      FloorStep(a.weight, threshold);
      var token := Over(Plus(a.embed, -(a.weight - threshold), frame), threshold);
      assert first + (a.tokens + [token]) == (first + a.tokens) + [token];
      FireBehind(threshold, frame, first, FireOnce(threshold, frame, a));
    }
  }

  lemma StepBehind(threshold: real, alpha: real, frame: Vec, first: seq<Vec>, a: Acc)
    requires threshold > 0.0 && |frame| == |a.embed|
    ensures Step(threshold, alpha, frame, Behind(first, a)) == Behind(first, Step(threshold, alpha, frame, a))
  {
    if alpha > 0.0 { FireBehind(threshold, frame, first, Acc(a.tokens, a.weight + alpha, Plus(a.embed, alpha, frame))); }
  }

  lemma {:induction false} RunInPieces(threshold: real, enc: seq<Vec>, alphas: seq<real>, start: Acc, cut: nat, t: nat)
    requires threshold > 0.0 && cut + t <= |enc| && Sized(enc, alphas, |start.embed|)
    ensures var first := Run(threshold, enc, alphas, start, cut);
      Sized(enc[cut..], alphas[cut..], |first.embed|)
      && Run(threshold, enc, alphas, start, cut + t)
         == Behind(first.tokens, Run(threshold, enc[cut..], alphas[cut..], first.(tokens := []), t))
    decreases t
  {
    var first := Run(threshold, enc, alphas, start, cut);
    if t > 0 {
      RunInPieces(threshold, enc, alphas, start, cut, t - 1);
      var rest := Run(threshold, enc[cut..], alphas[cut..], first.(tokens := []), t - 1);
      StepBehind(threshold, alphas[cut + t - 1], enc[cut + t - 1], first.tokens, rest);
      assert alphas[cut..][t - 1] == alphas[cut + t - 1] && enc[cut..][t - 1] == enc[cut + t - 1];
    } else {
      assert first.tokens + [] == first.tokens;
    }
  }

  lemma {:induction false} RunLooksBack(threshold: real, enc: seq<Vec>, alphas: seq<real>, start: Acc, cut: nat, t: nat)
    requires threshold > 0.0 && t <= cut <= |enc| && Sized(enc, alphas, |start.embed|)
    ensures Run(threshold, enc[..cut], alphas[..cut], start, t) == Run(threshold, enc, alphas, start, t)
  {
    if t > 0 { RunLooksBack(threshold, enc, alphas, start, cut, t - 1); }
  }

  /** Cutting the frames anywhere and carrying the state over gives the same tokens. */
  lemma StreamingIsOneShot(threshold: real, enc: seq<Vec>, alphas: seq<real>, start: Acc, cut: nat)
    requires threshold > 0.0 && cut <= |enc| && Sized(enc, alphas, |start.embed|)
    ensures var first := Run(threshold, enc[..cut], alphas[..cut], start, cut);
      var whole := Run(threshold, enc, alphas, start, |enc|);
      && Sized(enc[cut..], alphas[cut..], |first.embed|)
      && var second := Run(threshold, enc[cut..], alphas[cut..], Acc([], first.weight, first.embed), |enc| - cut);
         whole == Acc(first.tokens + second.tokens, second.weight, second.embed)
  {
    RunLooksBack(threshold, enc, alphas, start, cut, cut);
    RunInPieces(threshold, enc, alphas, start, cut, |enc| - cut);
  }

  // ------------------------------------------------------------------
  // Tokens are averages
  // ------------------------------------------------------------------

  /** c times the weight carried over, and all of w. */
  function Weight(c: real, carried: real, w: seq<real>): real {
    if w == [] then c * carried else Weight(c, carried, w[..|w| - 1]) + w[|w| - 1]
  }

  ghost predicate SameSize(enc: seq<Vec>, d: nat) { forall t :: 0 <= t < |enc| ==> |enc[t]| == d }

  /** c times the embedding carried over plus the frames weighted by w. */
  function Combine(c: real, e: Vec, w: seq<real>, enc: seq<Vec>): (v: Vec)
    requires |w| <= |enc| && SameSize(enc, |e|)
    ensures |v| == |e|
  {
    if w == [] then Times(c, e) else Plus(Combine(c, e, w[..|w| - 1], enc), w[|w| - 1], enc[|w| - 1])
  }

  ghost predicate NonNegative(w: seq<real>) { forall t :: 0 <= t < |w| ==> w[t] >= 0.0 }

  /** v is such a combination with nothing negative, and the weights together are `total`. */
  ghost predicate MixOf(v: Vec, total: real, carry: Acc, enc: seq<Vec>, c: real, w: seq<real>) {
    && |w| <= |enc| && SameSize(enc, |carry.embed|)
    && c >= 0.0 && NonNegative(w)
    && Weight(c, carry.weight, w) == total
    && v == Combine(c, carry.embed, w, enc)
  }

  ghost predicate IsMix(v: Vec, total: real, carry: Acc, enc: seq<Vec>, t: nat) {
    exists c, w :: |w| == t && MixOf(v, total, carry, enc, c, w)
  }

  lemma CombineSnoc(c: real, e: Vec, w: seq<real>, k: real, enc: seq<Vec>)
    requires |w| < |enc| && SameSize(enc, |e|)
    ensures Combine(c, e, w + [k], enc) == Plus(Combine(c, e, w, enc), k, enc[|w|])
  {
    assert (w + [k])[..|w|] == w;
  }

  lemma WeightSnoc(c: real, carried: real, w: seq<real>, k: real)
    ensures Weight(c, carried, w + [k]) == Weight(c, carried, w) + k
  {
    assert (w + [k])[..|w|] == w;
  }

  lemma MixAdds(v: Vec, total: real, carry: Acc, enc: seq<Vec>, c: real, w: seq<real>, k: real)
    requires MixOf(v, total, carry, enc, c, w) && |w| < |enc| && k >= 0.0
    ensures |enc[|w|]| == |v| && MixOf(Plus(v, k, enc[|w|]), total + k, carry, enc, c, w + [k])
  {
    CombineSnoc(c, carry.embed, w, k, enc);
    WeightSnoc(c, carry.weight, w, k);
  }

  lemma AddFrame(v: Vec, total: real, carry: Acc, enc: seq<Vec>, t: nat, k: real)
    requires IsMix(v, total, carry, enc, t) && t < |enc| && k >= 0.0
    ensures |enc[t]| == |v| && IsMix(Plus(v, k, enc[t]), total + k, carry, enc, t + 1)
  {
    var c, w :| |w| == t && MixOf(v, total, carry, enc, c, w);
    MixAdds(v, total, carry, enc, c, w, k);
  }

  lemma PlusNothing(v: Vec, f: Vec)
    requires |v| == |f|
    ensures Plus(v, 0.0, f) == v
  {
  }

  lemma LaterFrame(v: Vec, total: real, carry: Acc, enc: seq<Vec>, t: nat)
    requires IsMix(v, total, carry, enc, t) && t < |enc|
    ensures IsMix(v, total, carry, enc, t + 1)
  {
    AddFrame(v, total, carry, enc, t, 0.0);
    PlusNothing(v, enc[t]);
  }

  lemma OverProduct(x: real, y: real, k: real)
    requires k > 0.0
    ensures x / k * y == x * y / k
  {
    QuotientIs(x * y, x / k * y, k);
  }

  lemma OverSum(x: real, y: real, k: real)
    requires k > 0.0
    ensures x / k + y / k == (x + y) / k
  {
    QuotientIs(x + y, x / k + y / k, k);
  }

  lemma OverSign(x: real, k: real)
    requires k > 0.0 && x >= 0.0
    ensures x / k >= 0.0
  {
  }

  lemma OverTimes(c: real, e: Vec, k: real)
    requires k > 0.0
    ensures Over(Times(c, e), k) == Times(c / k, e)
  {
    forall j | 0 <= j < |e|
      ensures Over(Times(c, e), k)[j] == Times(c / k, e)[j]
    {
      OverProduct(c, e[j], k);
    }
  }

  lemma OverPlus(a: Vec, x: real, f: Vec, k: real)
    requires k > 0.0 && |a| == |f|
    ensures Over(Plus(a, x, f), k) == Plus(Over(a, k), x / k, f)
  {
    forall j | 0 <= j < |a|
      ensures Over(Plus(a, x, f), k)[j] == Plus(Over(a, k), x / k, f)[j]
    {
      OverProduct(x, f[j], k);
      OverSum(a[j], x * f[j], k);
    }
  }

  lemma OverPrefix(w: seq<real>, k: real)
    requires k > 0.0 && w != []
    ensures Over(w, k)[..|w| - 1] == Over(w[..|w| - 1], k)
  {
  }

  lemma {:induction false} WeightOver(c: real, carried: real, w: seq<real>, k: real)
    requires k > 0.0
    ensures Weight(c / k, carried, Over(w, k)) == Weight(c, carried, w) / k
  {
    if w == [] {
      OverProduct(c, carried, k);
    } else {
      var n := |w| - 1;
      WeightOver(c, carried, w[..n], k);
      OverPrefix(w, k);
      OverSum(Weight(c, carried, w[..n]), w[n], k);
    }
  }

  lemma {:induction false} CombineOver(c: real, e: Vec, w: seq<real>, enc: seq<Vec>, k: real)
    requires k > 0.0 && |w| <= |enc| && SameSize(enc, |e|)
    ensures Combine(c / k, e, Over(w, k), enc) == Over(Combine(c, e, w, enc), k)
  {
    if w == [] {
      OverTimes(c, e, k);
    } else {
      var n := |w| - 1;
      CombineOver(c, e, w[..n], enc, k);
      OverPrefix(w, k);
      OverPlus(Combine(c, e, w[..n], enc), w[n], enc[n], k);
    }
  }

  lemma WeightsOver(w: seq<real>, k: real)
    requires k > 0.0 && NonNegative(w)
    ensures NonNegative(Over(w, k))
  {
    forall i | 0 <= i < |w|
      ensures Over(w, k)[i] >= 0.0
    {
      OverSign(w[i], k);
    }
  }

  lemma MixOver(v: Vec, total: real, carry: Acc, enc: seq<Vec>, t: nat, k: real)
    requires IsMix(v, total, carry, enc, t) && k > 0.0
    ensures IsMix(Over(v, k), total / k, carry, enc, t)
  {
    var c, w :| |w| == t && MixOf(v, total, carry, enc, c, w);
    WeightOver(c, carry.weight, w, k);
    CombineOver(c, carry.embed, w, enc, k);
    OverSign(c, k);
    WeightsOver(w, k);
    assert MixOf(Over(v, k), total / k, carry, enc, c / k, Over(w, k));
  }

  function Zeros(t: nat): (w: seq<real>)
    ensures |w| == t && NonNegative(w)
  {
    if t == 0 then [] else Zeros(t - 1) + [0.0]
  }

  lemma {:induction false} NoWeight(e: Vec, carried: real, enc: seq<Vec>, t: nat)
    requires t <= |enc| && SameSize(enc, |e|)
    ensures Weight(0.0, carried, Zeros(t)) == 0.0 && Combine(0.0, e, Zeros(t), enc) == Times(0.0, e)
  {
    if t > 0 {
      NoWeight(e, carried, enc, t - 1);
      assert Zeros(t)[..t - 1] == Zeros(t - 1);
      PlusNothing(Times(0.0, e), enc[t - 1]);
    }
  }

  lemma OnlyFrame(e: Vec, k: real, f: Vec)
    requires |e| == |f|
    ensures Plus(Times(0.0, e), k, f) == Times(k, f)
  {
  }

  /** k times the frame at t alone. */
  lemma OneFrame(carry: Acc, enc: seq<Vec>, t: nat, k: real)
    requires t < |enc| && k >= 0.0 && SameSize(enc, |carry.embed|)
    ensures IsMix(Times(k, enc[t]), k, carry, enc, t + 1)
  {
    NoWeight(carry.embed, carry.weight, enc, t);
    assert MixOf(Times(0.0, carry.embed), 0.0, carry, enc, 0.0, Zeros(t));
    AddFrame(Times(0.0, carry.embed), 0.0, carry, enc, t, k);
    OnlyFrame(carry.embed, k, enc[t]);
  }

  ghost predicate AllMixed(a: Acc, carry: Acc, enc: seq<Vec>, t: nat) {
    && IsMix(a.embed, a.weight, carry, enc, t)
    && forall m :: 0 <= m < |a.tokens| ==> IsMix(a.tokens[m], 1.0, carry, enc, t)
  }

  lemma TokenOfFrame(threshold: real, frame: Vec, weight: real)
    requires threshold > 0.0
    ensures Over(Plus(Times(weight, frame), -(weight - threshold), frame), threshold) == Times(1.0, frame)
  {
    forall j | 0 <= j < |frame|
      ensures (weight * frame[j] + -(weight - threshold) * frame[j]) / threshold == frame[j]
    {
      QuotientIs(weight * frame[j] + -(weight - threshold) * frame[j], frame[j], threshold);
    }
  }

  /** Once a frame has fired, what is left of it is all that integrates. */
  lemma {:induction false} FireRest(threshold: real, a: Acc, carry: Acc, enc: seq<Vec>, t: nat)
    requires threshold > 0.0 && t < |enc| && a.weight >= 0.0 && a.embed == Times(a.weight, enc[t])
    requires SameSize(enc, |carry.embed|)
    requires forall m :: 0 <= m < |a.tokens| ==> IsMix(a.tokens[m], 1.0, carry, enc, t + 1)
    ensures AllMixed(Fire(threshold, enc[t], a), carry, enc, t + 1)
    decreases if a.weight >= threshold then (a.weight / threshold).Floor + 1 else 0
  {
    OneFrame(carry, enc, t, a.weight);
    if a.weight >= threshold {
      FloorStep(a.weight, threshold);
      TokenOfFrame(threshold, enc[t], a.weight);
      OneFrame(carry, enc, t, 1.0);
      FireRest(threshold, FireOnce(threshold, enc[t], a), carry, enc, t);
    }
  }

  lemma FirstToken(threshold: real, a: Acc, alpha: real, carry: Acc, enc: seq<Vec>, t: nat)
    requires threshold > 0.0 && t < |enc| && IsMix(a.embed, a.weight, carry, enc, t) && |enc[t]| == |a.embed|
    requires a.weight < threshold <= a.weight + alpha
    ensures var excess := a.weight + alpha - threshold;
      IsMix(Over(Plus(Plus(a.embed, alpha, enc[t]), -excess, enc[t]), threshold), 1.0, carry, enc, t + 1)
  {
    var f, k, excess := enc[t], threshold - a.weight, a.weight + alpha - threshold;
    AddFrame(a.embed, a.weight, carry, enc, t, k);
    MixOver(Plus(a.embed, k, f), threshold, carry, enc, t + 1, threshold);
    QuotientIs(threshold, 1.0, threshold);
    PlusTwice(a.embed, alpha, -excess, f);
    assert alpha + -excess == k;
  }

  lemma PlusTwice(a: Vec, x: real, y: real, f: Vec)
    requires |a| == |f|
    ensures Plus(Plus(a, x, f), y, f) == Plus(a, x + y, f)
  {
    forall j | 0 <= j < |f|
      ensures Plus(Plus(a, x, f), y, f)[j] == Plus(a, x + y, f)[j]
    {
      Collect(x, y, f[j]);
    }
  }

  lemma Collect(x: real, y: real, z: real)
    ensures x * z + y * z == (x + y) * z
  {
  }

  lemma StepMixes(threshold: real, alpha: real, a: Acc, carry: Acc, enc: seq<Vec>, t: nat)
    requires threshold > 0.0 && t < |enc| && AllMixed(a, carry, enc, t) && 0.0 <= a.weight < threshold
    requires |a.embed| == |carry.embed| && SameSize(enc, |carry.embed|)
    ensures AllMixed(Step(threshold, alpha, enc[t], a), carry, enc, t + 1)
  {
    forall m | 0 <= m < |a.tokens|
      ensures IsMix(a.tokens[m], 1.0, carry, enc, t + 1)
    {
      LaterFrame(a.tokens[m], 1.0, carry, enc, t);
    }
    if alpha <= 0.0 {
      LaterFrame(a.embed, a.weight, carry, enc, t);
    } else {
      var now := Acc(a.tokens, a.weight + alpha, Plus(a.embed, alpha, enc[t]));
      if now.weight < threshold {
        AddFrame(a.embed, a.weight, carry, enc, t, alpha);
      } else {
        FirstToken(threshold, a, alpha, carry, enc, t);
        FireRest(threshold, FireOnce(threshold, enc[t], now), carry, enc, t);
      }
    }
  }

  lemma CarryItself(carry: Acc, enc: seq<Vec>)
    requires SameSize(enc, |carry.embed|)
    ensures IsMix(carry.embed, carry.weight, carry, enc, 0)
  {
    assert Times(1.0, carry.embed) == carry.embed;
    assert MixOf(carry.embed, carry.weight, carry, enc, 1.0, []);
  }

  lemma {:induction false} RunMixes(threshold: real, enc: seq<Vec>, alphas: seq<real>, carry: Acc, t: nat)
    requires threshold > 0.0 && t <= |enc| && Sized(enc, alphas, |carry.embed|) && 0.0 <= carry.weight < threshold
    requires carry.tokens == []
    ensures AllMixed(Run(threshold, enc, alphas, carry, t), carry, enc, t)
  {
    if t == 0 {
      CarryItself(carry, enc);
    } else {
      RunMixes(threshold, enc, alphas, carry, t - 1);
      WeightIsKept(threshold, enc, alphas, carry, t - 1);
      StepMixes(threshold, alphas[t - 1], Run(threshold, enc, alphas, carry, t - 1), carry, enc, t - 1);
    }
  }

  /** Every token is an average: of the frames, and of the carried embedding as far as weight
      was carried over; nothing counts negatively and the weights add up to one. */
  lemma TokensAreAverages(threshold: real, enc: seq<Vec>, alphas: seq<real>, carryWeight: real, carryEmbed: Vec, m: nat)
    requires threshold > 0.0 && Sized(enc, alphas, |carryEmbed|) && 0.0 <= carryWeight < threshold
    requires m < |Run(threshold, enc, alphas, Acc([], carryWeight, carryEmbed), |enc|).tokens|
    ensures var carry := Acc([], carryWeight, carryEmbed);
      exists c, w :: MixOf(Run(threshold, enc, alphas, carry, |enc|).tokens[m], 1.0, carry, enc, c, w)
  {
    var carry := Acc([], carryWeight, carryEmbed);
    RunMixes(threshold, enc, alphas, carry, |enc|);
    var token := Run(threshold, enc, alphas, carry, |enc|).tokens[m];
    assert IsMix(token, 1.0, carry, enc, |enc|);
  }
}
