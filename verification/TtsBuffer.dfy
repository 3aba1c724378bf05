/**
 The clause-level chunker in front of the TTS: `LowLatencyTTSBuffer`.

 A generator is modelled as what it yields when it is run to its end.  Whether the configured
 language is CJK is a parameter.
 */
module TtsBuffer {
  import opened Common
  import opened Text

  const DEFAULT_MIN_SENTENCE_CHARS := 2
  const HARD_BREAKS: string := "。！？!?；;\n"

  function SoftBreaks(cjk: bool): string { if cjk then "，,、：:" else ",;:" }

  datatype Sizes = Sizes(min: int, target: int, max: int)

  predicate SizesOk(z: Sizes) { 2 <= z.min <= z.target <= z.max }

  /** The knobs, clamped into order; the defaults depend on the language. */
  function Clamped(cjk: bool, min: Option<int>, target: Option<int>, max: Option<int>): (z: Sizes)
    ensures SizesOk(z)
    ensures min.Some? && target.Some? && max.Some? && 2 <= min.value <= target.value <= max.value
            ==> z == Sizes(min.value, target.value, max.value)
  {
    var least := Max(2, if min.Some? then min.value else if cjk then 15 else 24);
    var goal := Max(least, if target.Some? then target.value else if cjk then 24 else 48);
    Sizes(least, goal, Max(goal, if max.Some? then max.value else if cjk then 40 else 80))
  }

  predicate IsCjkChar(c: char) {
    '\U{4E00}' <= c <= '\U{9FFF}' || '\U{3040}' <= c <= '\U{30FF}' || '\U{AC00}' <= c <= '\U{D7AF}'
  }

  predicate ContainsCjk(text: string) { exists i :: 0 <= i < |text| && IsCjkChar(text[i]) }

  // ------------------------------------------------------------------
  // Break positions
  // ------------------------------------------------------------------

  /** `text.find(c)` */
  function Find(text: string, c: char): (r: Option<nat>)
    ensures r.Some? ==> r.value < |text|
  {
    if text == "" then None
    else if text[0] == c then Some(0)
    else if Find(text[1..], c).None? then None
    else Some(Find(text[1..], c).value + 1)
  }

  /** `text.rfind(c)` */
  function RFind(text: string, c: char): (r: Option<nat>)
    ensures r.Some? ==> r.value < |text|
  {
    if text == "" then None
    else if text[|text| - 1] == c then Some(|text| - 1)
    else RFind(text[..|text| - 1], c)
  }

  /** The least of the first positions of the single characters. */
  function FirstBreak(text: string, chars: string): (r: Option<nat>)
    ensures r.Some? ==> r.value < |text|
  {
    if chars == "" then None
    else
      var rest, one := FirstBreak(text, chars[..|chars| - 1]), Find(text, chars[|chars| - 1]);
      if rest.None? || (one.Some? && one.value < rest.value) then one else rest
  }

  /** The greatest of the last positions of the single characters. */
  function LastBreak(text: string, chars: string): (r: Option<nat>)
    ensures r.Some? ==> r.value < |text|
  {
    if chars == "" then None
    else
      var rest, one := LastBreak(text, chars[..|chars| - 1]), RFind(text, chars[|chars| - 1]);
      if rest.None? || (one.Some? && one.value > rest.value) then one else rest
  }

  ghost predicate NoneOf(text: string, chars: string, from: nat, end: nat) {
    forall i :: from <= i < end && i < |text| ==> text[i] !in chars
  }

  lemma {:induction false} FindIs(text: string, c: char)
    ensures var r := Find(text, c);
      if r.Some? then text[r.value] == c && NoneOf(text, [c], 0, r.value) else NoneOf(text, [c], 0, |text|)
  {
    if text != "" && text[0] != c {
      FindIs(text[1..], c);
      assert forall i :: 1 <= i < |text| ==> text[i] == text[1..][i - 1];
    }
  }

  lemma {:induction false} RFindIs(text: string, c: char)
    ensures var r := RFind(text, c);
      if r.Some? then text[r.value] == c && NoneOf(text, [c], r.value + 1, |text|) else NoneOf(text, [c], 0, |text|)
  {
    if text != "" && text[|text| - 1] != c {
      RFindIs(text[..|text| - 1], c);
      assert forall i :: 0 <= i < |text| - 1 ==> text[i] == text[..|text| - 1][i];
    }
  }

  lemma Together(text: string, chars: string, c: char, from: nat, end: nat)
    requires NoneOf(text, chars, from, end) && NoneOf(text, [c], from, end)
    ensures NoneOf(text, chars + [c], from, end)
  {
  }

  /** It is the first position of any of the characters. */
  lemma {:induction false} FirstBreakIs(text: string, chars: string)
    ensures var r := FirstBreak(text, chars);
      if r.Some? then text[r.value] in chars && NoneOf(text, chars, 0, r.value) else NoneOf(text, chars, 0, |text|)
  {
    if chars != "" {
      var front, c := chars[..|chars| - 1], chars[|chars| - 1];
      FirstBreakIs(text, front);
      FindIs(text, c);
      assert chars == front + [c];
      var r := FirstBreak(text, chars);
      Together(text, front, c, 0, if r.Some? then r.value else |text|);
    }
  }

  /** It is the last position of any of the characters. */
  lemma {:induction false} LastBreakIs(text: string, chars: string)
    ensures var r := LastBreak(text, chars);
      if r.Some? then text[r.value] in chars && NoneOf(text, chars, r.value + 1, |text|) else NoneOf(text, chars, 0, |text|)
  {
    if chars != "" {
      var front, c := chars[..|chars| - 1], chars[|chars| - 1];
      LastBreakIs(text, front);
      RFindIs(text, c);
      assert chars == front + [c];
      var r := LastBreak(text, chars);
      Together(text, front, c, if r.Some? then r.value + 1 else 0, |text|);
    }
  }

  // ------------------------------------------------------------------
  // Where to cut
  // ------------------------------------------------------------------

  /** Length of a text without the spaces around it. */
  function Trimmed(text: string): nat { |Strip(text)| }

  /** The last space from position `floor` on, below `end`. */
  function LastSpace(text: string, floor: nat, end: nat): (r: Option<nat>)
    requires end <= |text|
    ensures r.Some? ==> floor <= r.value < end && IsSpace(text[r.value]) && forall i :: r.value < i < end ==> !IsSpace(text[i])
    ensures r.None? ==> forall i :: floor <= i < end ==> !IsSpace(text[i])
  {
    if end <= floor then None
    else if IsSpace(text[end - 1]) then Some(end - 1)
    else LastSpace(text, floor, end - 1)
  }

  function LengthCut(z: Sizes, buf: string, cjk: bool): (end: nat)
    requires SizesOk(z) && buf != ""
    ensures 1 <= end <= |buf| && end <= z.max
  {
    var limit := Min(|buf|, z.max);
    if cjk then
      var soft := LastBreak(buf[..limit], SoftBreaks(true));
      if soft.Some? && soft.value >= z.min - 1 then soft.value + 1 else limit
    else
      var space := LastSpace(buf, z.min - 1, limit);
      if space.Some? then space.value + 1 else Min(|buf|, z.target)
  }

  predicate UsesCjk(language: bool, buf: string) { ContainsCjk(buf) || language }

  function HardCut(buf: string): (end: Option<nat>)
    ensures end.Some? ==> 1 <= end.value <= |buf|
  {
    HardCutAt(buf, FirstBreak(buf, HARD_BREAKS))
  }

  function HardCutAt(buf: string, hard: Option<nat>): (end: Option<nat>)
    requires hard.Some? ==> hard.value < |buf|
    ensures end.Some? ==> 1 <= end.value <= |buf|
  {
    if hard.Some? && Trimmed(buf[..hard.value + 1]) >= DEFAULT_MIN_SENTENCE_CHARS then Some(hard.value + 1) else None
  }

  function SoftCut(z: Sizes, cjk: bool, buf: string): (end: Option<nat>)
    requires buf != ""
    ensures end.Some? ==> 1 <= end.value <= |buf|
  {
    SoftCutAt(z, buf, LastBreak(buf, SoftBreaks(cjk)))
  }

  function SoftCutAt(z: Sizes, buf: string, soft: Option<nat>): (end: Option<nat>)
    requires soft.Some? ==> soft.value < |buf|
    ensures end.Some? ==> 1 <= end.value <= |buf|
  {
    if soft.Some? && Trimmed(buf[..soft.value + 1]) >= z.min then Some(soft.value + 1)
    else if soft.Some? && Trimmed(buf) >= z.target then Some(|buf|)
    else None
  }

  /** From this length on a text is cut whether there is a break or not. */
  function TooLong(z: Sizes, cjk: bool): int { if cjk then z.max else z.target }

  /** How much of the buffer to emit now, if anything. */
  function Cut(z: Sizes, language: bool, buf: string): (end: Option<nat>)
    requires SizesOk(z) && buf != ""
    ensures end.Some? ==> 1 <= end.value <= |buf|
  {
    var cjk := UsesCjk(language, buf);
    if HardCut(buf).Some? then HardCut(buf)
    else if SoftCut(z, cjk, buf).Some? then SoftCut(z, cjk, buf)
    else if Trimmed(buf) < TooLong(z, cjk) then None
    else Some(LengthCut(z, buf, cjk))
  }

  /** What a hard cut ends with: the first hard break, and at least two characters. */
  lemma HardCutIs(buf: string)
    requires HardCut(buf).Some?
    ensures var i := HardCut(buf).value - 1;
      buf[i] in HARD_BREAKS && NoneOf(buf, HARD_BREAKS, 0, i) && Trimmed(buf[..i + 1]) >= 2
  {
    FirstBreakIs(buf, HARD_BREAKS);
  }

  /** A first hard break ends the chunk, before any other rule, exactly when two characters come
      out; a shorter one is passed over. */
  lemma HardBreakEnds(z: Sizes, language: bool, buf: string, i: nat)
    requires SizesOk(z) && i < |buf| && buf[i] in HARD_BREAKS && NoneOf(buf, HARD_BREAKS, 0, i)
    ensures HardCut(buf) == if Trimmed(buf[..i + 1]) >= 2 then Some(i + 1) else None
    ensures Trimmed(buf[..i + 1]) >= 2 ==> Cut(z, language, buf) == Some(i + 1)
  {
    FirstBreakIs(buf, HARD_BREAKS);
    var hard := FirstBreak(buf, HARD_BREAKS);
    assert hard == Some(i);
  }

  /** A clause of `min` characters goes out at its last soft break, and a text of `target`
      characters that has one goes out whole. */
  lemma SoftCutIs(z: Sizes, chars: string, buf: string, soft: Option<nat>)
    requires soft == LastBreak(buf, chars) && SoftCutAt(z, buf, soft).Some?
    ensures var end := SoftCutAt(z, buf, soft).value;
      || (buf[end - 1] in chars && NoneOf(buf, chars, end, |buf|) && Trimmed(buf[..end]) >= z.min)
      || (end == |buf| && Trimmed(buf) >= z.target && buf[soft.value] in chars)
  {
    LastBreakIs(buf, chars);
  }

  lemma LastIs(text: string, chars: string, i: nat)
    requires i < |text| && text[i] in chars && NoneOf(text, chars, i + 1, |text|)
    ensures LastBreak(text, chars) == Some(i)
  {
    LastBreakIs(text, chars);
  }

  lemma NextRule(z: Sizes, language: bool, buf: string, soft: Option<nat>)
    requires SizesOk(z) && buf != "" && HardCut(buf).None? && soft == SoftCut(z, UsesCjk(language, buf), buf)
    ensures soft.Some? ==> Cut(z, language, buf) == soft
  {
  }

  /** Without a hard cut a clause of `min` characters goes out at its last soft break. */
  lemma SoftBreakEnds(z: Sizes, language: bool, buf: string, i: nat, length: nat)
    requires SizesOk(z) && i < |buf| && HardCut(buf).None? && length == Trimmed(buf[..i + 1])
    requires var chars := SoftBreaks(UsesCjk(language, buf));
      buf[i] in chars && NoneOf(buf, chars, i + 1, |buf|)
    ensures length >= z.min ==> Cut(z, language, buf) == Some(i + 1)
    ensures length < z.min && Trimmed(buf) >= z.target ==> Cut(z, language, buf) == Some(|buf|)
  {
    var cjk := UsesCjk(language, buf);
    LastIs(buf, SoftBreaks(cjk), i);
    NextRule(z, language, buf, SoftCutAt(z, buf, Some(i)));
  }

  ghost predicate Splits(cjk: bool, c: char) { if cjk then c in SoftBreaks(true) else IsSpace(c) }

  /** A length cut is after the last place to split (a soft break, or a space) that leaves at
      least `min` characters and at most `max`; without one it takes `max` characters of CJK text
      and `target` of any other. */
  lemma LengthCutIs(z: Sizes, buf: string, cjk: bool)
    requires SizesOk(z) && buf != ""
    ensures var (end, limit) := (LengthCut(z, buf, cjk), Min(|buf|, z.max));
      if exists i :: z.min - 1 <= i < limit && Splits(cjk, buf[i])
      then z.min <= end <= limit && Splits(cjk, buf[end - 1]) && forall i :: end <= i < limit ==> !Splits(cjk, buf[i])
      else end == if cjk then limit else Min(|buf|, z.target)
  {
    var limit := Min(|buf|, z.max);
    if cjk {
      LastBreakIs(buf[..limit], SoftBreaks(true));
      assert forall i :: 0 <= i < limit ==> buf[..limit][i] == buf[i];
    }
  }

  // ------------------------------------------------------------------
  // The buffer
  // ------------------------------------------------------------------

  lemma {:induction false} RStripKeepsFirst(s: string)
    requires s != "" && !IsSpace(s[0])
    ensures RStrip(s) != ""
  {
    if IsSpace(s[|s| - 1]) { RStripKeepsFirst(s[..|s| - 1]); }
  }

  lemma StripKeepsFirst(s: string)
    requires s != "" && !IsSpace(s[0])
    ensures Strip(s) != ""
  {
    assert LStrip(s) == s;
    RStripKeepsFirst(s);
  }

  function Flat(chunks: seq<string>): string {
    if chunks == [] then "" else Flat(chunks[..|chunks| - 1]) + chunks[|chunks| - 1]
  }

  lemma {:induction false} FlatConcat(a: seq<string>, b: seq<string>)
    ensures Flat(a + b) == Flat(a) + Flat(b)
    decreases |b|
  {
    if b == [] {
      assert a + b == a;
    } else {
      assert (a + b)[..|a + b| - 1] == a + b[..|b| - 1];
      FlatConcat(a, b[..|b| - 1]);
    }
  }

  /** What is spoken of a list of chunks. */
  function AllSpoken(chunks: seq<string>): string { Spoken(Flat(chunks)) }

  lemma AllSpokenConcat(a: seq<string>, b: seq<string>)
    ensures AllSpoken(a + b) == AllSpoken(a) + AllSpoken(b)
  {
    FlatConcat(a, b);
    SpokenConcat(Flat(a), Flat(b));
  }

  lemma OneSpoken(c: string)
    ensures AllSpoken([c]) == Spoken(c)
  {
    assert [c][..0] == [] && "" + c == c;
    assert Flat([c]) == c;
  }

  lemma AllSpokenCons(c: string, rest: seq<string>)
    ensures AllSpoken([c] + rest) == Spoken(c) + AllSpoken(rest)
  {
    AllSpokenConcat([c], rest);
    OneSpoken(c);
  }

  /** The next chunk of a buffer and what is left of it. */
  type Emitter = string -> Option<(string, string)>

  ghost predicate Shrinks(next: Emitter) { forall b :: next(b).Some? ==> |next(b).value.1| < |b| }

  /** Chunks emitted until nothing more can be, and what stays buffered. */
  ghost function Drain(next: Emitter, buf: string): (seq<string>, string)
    requires Shrinks(next)
    decreases |buf|
  {
    if next(buf).None? then ([], LStrip(buf))
    else ([next(buf).value.0] + Drain(next, next(buf).value.1).0, Drain(next, next(buf).value.1).1)
  }

  lemma DrainOne(next: Emitter, buf: string, chunk: string, left: string, chunks: seq<string>)
    requires Shrinks(next) && next(buf) == Some((chunk, left))
    ensures chunks + Drain(next, buf).0 == (chunks + [chunk]) + Drain(next, left).0 && Drain(next, buf).1 == Drain(next, left).1
  {
    assert chunks + ([chunk] + Drain(next, left).0) == (chunks + [chunk]) + Drain(next, left).0;
  }

  function Next(z: Sizes, language: bool, buf: string): Option<(string, string)>
    requires SizesOk(z)
  {
    NextIn(z, language, LStrip(buf))
  }

  function NextIn(z: Sizes, language: bool, text: string): Option<(string, string)>
    requires SizesOk(z)
  {
    if text == "" || Cut(z, language, text).None? then None
    else Some(Split(text, Cut(z, language, text).value))
  }

  function Split(text: string, end: nat): (string, string)
    requires end <= |text|
  {
    (Strip(text[..end]), LStrip(text[end..]))
  }

  function NextOf(z: Sizes, language: bool): (next: Emitter)
    requires SizesOk(z)
    ensures Shrinks(next) && forall b :: next(b) == Next(z, language, b)
  {
    NextsShrink(z, language);
    b => Next(z, language, b)
  }

  lemma NextsShrink(z: Sizes, language: bool)
    requires SizesOk(z)
    ensures forall b: string :: Next(z, language, b).Some? ==> |Next(z, language, b).value.1| < |b|
  {
    forall b: string | Next(z, language, b).Some?
      ensures |Next(z, language, b).value.1| < |b|
    {
      var text := LStrip(b);
      SplitShrinks(text, Cut(z, language, text).value);
    }
  }

  lemma SplitShrinks(text: string, end: nat)
    requires 1 <= end <= |text|
    ensures |Split(text, end).1| < |text|
  {
  }

  lemma CutKeepsText(text: string, head: string, tail: string)
    requires text == head + tail
    ensures Spoken(Strip(head)) + Spoken(LStrip(tail)) == Spoken(text)
  {
    SpokenConcat(head, tail);
    StripSpoken(head);
    LStripSpoken(tail);
  }

  /** One chunk: it says something, nothing spoken is lost; and when there is none, what is
      buffered is short. */
  lemma NextKeepsText(z: Sizes, language: bool, buf: string)
    requires SizesOk(z)
    ensures var r := Next(z, language, buf);
      if r.Some? then r.value.0 != "" && Spoken(r.value.0) + Spoken(r.value.1) == Spoken(buf)
      else Short(z, language, LStrip(buf)) && Spoken(LStrip(buf)) == Spoken(buf)
  {
    LStripSpoken(buf);
    NextInKeepsText(z, language, LStrip(buf));
  }

  lemma NextInKeepsText(z: Sizes, language: bool, text: string)
    requires SizesOk(z) && (text != "" ==> !IsSpace(text[0]))
    ensures var r := NextIn(z, language, text);
      if r.Some? then r.value.0 != "" && Spoken(r.value.0) + Spoken(r.value.1) == Spoken(text)
      else Short(z, language, text)
  {
    if text != "" {
      var cut := Cut(z, language, text);
      if cut.Some? {
        Halves(text, cut.value);
        OneCut(text, text[..cut.value], text[cut.value..]);
        assert NextIn(z, language, text) == Some(Split(text, cut.value));
      } else {
        NoCut(z, language, text);
      }
    }
  }

  lemma Halves(text: string, end: nat)
    requires 1 <= end <= |text|
    ensures text == text[..end] + text[end..] && text[..end] != "" && text[..end][0] == text[0]
  {
  }

  lemma OneCut(text: string, head: string, tail: string)
    requires text == head + tail && head != "" && !IsSpace(head[0])
    ensures Strip(head) != "" && Spoken(Strip(head)) + Spoken(LStrip(tail)) == Spoken(text)
  {
    CutKeepsText(text, head, tail);
    StripKeepsFirst(head);
  }

  lemma NoCut(z: Sizes, language: bool, text: string)
    requires SizesOk(z) && text != "" && Cut(z, language, text).None?
    ensures Short(z, language, text)
  {
  }

  ghost predicate KeepsText(next: Emitter, short: string -> bool) {
    && Shrinks(next)
    && (forall b :: next(b).Some? ==> next(b).value.0 != "" && Spoken(next(b).value.0) + Spoken(next(b).value.1) == Spoken(b))
    && (forall b :: next(b).None? ==> short(LStrip(b)) && Spoken(LStrip(b)) == Spoken(b))
  }

  lemma Associate(a: string, b: string, c: string)
    ensures (a + b) + c == a + (b + c)
  {
  }

  /** Nothing spoken is lost, added or reordered; no chunk is empty; what stays is short. */
  lemma {:induction false} DrainKeepsText(next: Emitter, short: string -> bool, buf: string)
    requires KeepsText(next, short)
    ensures var (chunks, left) := Drain(next, buf);
      && AllSpoken(chunks) + Spoken(left) == Spoken(buf)
      && (forall k :: 0 <= k < |chunks| ==> chunks[k] != "")
      && short(left)
    decreases |buf|
  {
    if next(buf).Some? {
      var (chunk, rest) := next(buf).value;
      var more, left := Drain(next, rest).0, Drain(next, rest).1;
      assert Drain(next, buf) == ([chunk] + more, left);
      AllSpokenCons(chunk, more);
      Associate(Spoken(chunk), AllSpoken(more), Spoken(left));
      DrainKeepsText(next, short, rest);
    }
  }

  function ShortOf(z: Sizes, language: bool): (short: string -> bool)
    ensures forall b :: short(b) == Short(z, language, b)
  {
    b => Short(z, language, b)
  }

  lemma NextOfKeepsText(z: Sizes, language: bool)
    requires SizesOk(z)
    ensures KeepsText(NextOf(z, language), ShortOf(z, language))
  {
    forall b: string
      ensures Next(z, language, b).Some? ==>
        var (chunk, rest) := Next(z, language, b).value;
        chunk != "" && Spoken(chunk) + Spoken(rest) == Spoken(b)
      ensures Next(z, language, b).None? ==> Short(z, language, LStrip(b)) && Spoken(LStrip(b)) == Spoken(b)
    {
      NextKeepsText(z, language, b);
    }
  }

  predicate Short(z: Sizes, language: bool, buf: string) {
    buf == "" || Trimmed(buf) < TooLong(z, UsesCjk(language, buf))
  }

  class LowLatencyTTSBuffer {
    const language: bool
    const z: Sizes
    var buf: string

    constructor (language: bool, defaultsCjk: bool, min: Option<int>, target: Option<int>, max: Option<int>)
      ensures SizesOk(z) && z == Clamped(defaultsCjk, min, target, max) && this.language == language && buf == ""
    {
      this.language := language;
      z := Clamped(defaultsCjk, min, target, max);
      buf := "";
    }

    /** The range loop over the window, from its end down to `min`. */
    method ChooseLengthCut(cjk: bool) returns (end: nat)
      requires SizesOk(z) && buf != ""
      ensures end == LengthCut(z, buf, cjk)
    {
      var limit := Min(|buf|, z.max);
      if cjk {
        var soft := LastBreak(buf[..limit], SoftBreaks(true));
        if soft.Some? && soft.value >= z.min - 1 {
          return soft.value + 1;
        }
        return limit;
      }
      var idx := limit - 1;
      while idx > z.min - 2
        invariant idx < limit && LastSpace(buf, z.min - 1, limit) == LastSpace(buf, z.min - 1, Max(0, idx + 1))
      {
        if IsSpace(buf[idx]) {
          return idx + 1;
        }
        idx := idx - 1;
      }
      return Min(|buf|, z.target);
    }

    method Take(end: nat) returns (out: Option<string>)
      requires end <= |buf|
      modifies this`buf
      ensures buf == LStrip(old(buf)[end..])
      ensures out == if Strip(old(buf)[..end]) == "" then None else Some(Strip(old(buf)[..end]))
    {
      var piece := Strip(buf[..end]);
      buf := LStrip(buf[end..]);
      out := if piece == "" then None else Some(piece);
    }

    method HardPoint(hard: Option<nat>) returns (end: Option<nat>)
      requires hard.Some? ==> hard.value < |buf|
      ensures end == HardCutAt(buf, hard)
    {
      if hard.Some? {
        var stop := hard.value + 1;
        if Trimmed(buf[..stop]) >= DEFAULT_MIN_SENTENCE_CHARS {
          return Some(stop);
        }
      }
      return None;
    }

    method SoftPoint(soft: Option<nat>) returns (end: Option<nat>)
      requires soft.Some? ==> soft.value < |buf|
      ensures end == SoftCutAt(z, buf, soft)
    {
      if soft.Some? && Trimmed(buf[..soft.value + 1]) >= z.min {
        return Some(soft.value + 1);
      }
      if soft.Some? && Trimmed(buf) >= z.target {
        return Some(|buf|);
      }
      return None;
    }

    /** Where to cut the buffer now. */
    method CutPoint() returns (end: Option<nat>)
      requires SizesOk(z) && buf != ""
      ensures end == Cut(z, language, buf)
    {
      var cjk := UsesCjk(language, buf);
      end := HardPoint(FirstBreak(buf, HARD_BREAKS));
      if end.Some? {
        return;
      }
      end := SoftPoint(LastBreak(buf, SoftBreaks(cjk)));
      if end.Some? {
        return;
      }
      if Trimmed(buf) < TooLong(z, cjk) {
        return None;
      }
      var cut := ChooseLengthCut(cjk);
      end := Some(cut);
    }

    method NextChunk() returns (out: Option<string>)
      requires SizesOk(z)
      modifies this`buf
      ensures out.Some? == Next(z, language, old(buf)).Some?
      ensures out.Some? ==> (out.value, buf) == Next(z, language, old(buf)).value
      ensures out.None? ==> buf == LStrip(old(buf))
    {
      var text := LStrip(buf);
      if text != buf {
        buf := text;
      }
      if buf == "" {
        return None;
      }
      var end := CutPoint();
      if end.None? {
        return None;
      }
      StripKeepsFirst(buf[..end.value]);
      out := Take(end.value);
    }

    method LastChunk() returns (out: Option<string>)
      modifies this`buf
      ensures buf == "" && out == if Strip(old(buf)) == "" then None else Some(Strip(old(buf)))
    {
      var text := LStrip(buf);
      StrippedOnce(buf);
      buf := text;
      if buf == "" {
        return None;
      }
      var rest := Strip(buf);
      buf := "";
      out := if rest == "" then None else Some(rest);
    }

    method EmitReady() returns (chunks: seq<string>)
      requires SizesOk(z)
      modifies this`buf
      ensures (chunks, buf) == Drain(NextOf(z, language), old(buf))
    {
      chunks := [];
      ghost var next := NextOf(z, language);
      assert chunks + Drain(next, buf).0 == Drain(next, buf).0;
      while true
        invariant Drain(next, old(buf)) == (chunks + Drain(next, buf).0, Drain(next, buf).1)
        decreases |buf|
      {
        ghost var before := buf;
        var part := NextChunk();
        assert next(before) == Next(z, language, before);
        if part.None? {
          assert chunks + [] == chunks;
          return;
        }
        DrainOne(next, before, part.value, buf, chunks);
        chunks := chunks + [part.value];
      }
    }

    method Add(chunk: string) returns (chunks: seq<string>)
      requires SizesOk(z)
      modifies this`buf
      ensures chunk == "" ==> chunks == [] && buf == old(buf)
      ensures chunk != "" ==> (chunks, buf) == Drain(NextOf(z, language), old(buf) + chunk)
      ensures AllSpoken(chunks) + Spoken(buf) == Spoken(old(buf)) + Spoken(chunk)
      ensures forall k :: 0 <= k < |chunks| ==> chunks[k] != ""
      ensures Short(z, language, old(buf)) || chunk != "" ==> Short(z, language, buf)
    {
      if chunk == "" {
        return [];
      }
      SpokenConcat(buf, chunk);
      NextOfKeepsText(z, language);
      DrainKeepsText(NextOf(z, language), ShortOf(z, language), buf + chunk);
      buf := buf + chunk;
      chunks := EmitReady();
    }

    method Flush() returns (chunks: seq<string>)
      requires SizesOk(z)
      modifies this`buf
      ensures buf == "" && AllSpoken(chunks) == Spoken(old(buf))
      ensures chunks == if Strip(old(buf)) == "" then [] else [Strip(old(buf))]
    {
      StripSpoken(buf);
      chunks := [];
      while true
        invariant chunks == [] ==> buf == old(buf)
        invariant chunks != [] ==> chunks == [Strip(old(buf))] && Strip(old(buf)) != "" && buf == ""
        decreases if chunks == [] then 1 else 0
      {
        var part := LastChunk();
        if part.None? {
          break;
        }
        chunks := chunks + [part.value];
      }
      OneSpoken(Strip(old(buf)));
    }
  }

  lemma StrippedOnce(text: string)
    ensures Strip(LStrip(text)) == Strip(text)
    ensures LStrip(text) == "" ==> Strip(text) == ""
  {
    assert LStrip(LStrip(text)) == LStrip(text);
  }

  // ------------------------------------------------------------------
  // Whole conversations
  // ------------------------------------------------------------------

  /** Everything emitted for a sequence of adds, and what stays buffered. */
  ghost function Fed(next: Emitter, adds: seq<string>): (seq<string>, string)
    requires Shrinks(next)
  {
    if adds == [] then ([], "")
    else
      var (chunks, buf) := Fed(next, adds[..|adds| - 1]);
      var add := adds[|adds| - 1];
      if add == "" then (chunks, buf) else (chunks + Drain(next, buf + add).0, Drain(next, buf + add).1)
  }

  lemma AddKeepsText(next: Emitter, short: string -> bool, chunks: seq<string>, buf: string, front: seq<string>, add: string)
    requires KeepsText(next, short) && AllSpoken(chunks) + Spoken(buf) == AllSpoken(front)
    ensures var (more, left) := Drain(next, buf + add);
      AllSpoken(chunks + more) + Spoken(left) == AllSpoken(front + [add])
  {
    var (more, left) := Drain(next, buf + add);
    var a, b, c, d, e := AllSpoken(chunks), AllSpoken(more), Spoken(left), Spoken(buf), Spoken(add);
    assert b + c == d + e by {
      DrainKeepsText(next, short, buf + add);
      SpokenConcat(buf, add);
    }
    assert AllSpoken(chunks + more) == a + b by { AllSpokenConcat(chunks, more); }
    assert AllSpoken(front + [add]) == (a + d) + e by {
      AllSpokenConcat(front, [add]);
      OneSpoken(add);
    }
    Regroup(a, b, c, d, e);
  }

  lemma AddNothing(front: seq<string>)
    ensures AllSpoken(front + [""]) == AllSpoken(front)
  {
    assert (front + [""])[..|front|] == front;
    assert Flat(front) + "" == Flat(front);
  }

  lemma {:induction false} FedKeepsText(next: Emitter, short: string -> bool, adds: seq<string>)
    requires KeepsText(next, short) && short("")
    ensures var (chunks, buf) := Fed(next, adds);
      && AllSpoken(chunks) + Spoken(buf) == AllSpoken(adds)
      && (forall k :: 0 <= k < |chunks| ==> chunks[k] != "")
      && short(buf)
  {
    if adds != [] {
      var front, add := adds[..|adds| - 1], adds[|adds| - 1];
      assert adds == front + [add];
      FedKeepsText(next, short, front);
      var (chunks, buf) := Fed(next, front);
      if add == "" {
        AddNothing(front);
      } else {
        DrainKeepsText(next, short, buf + add);
        AddKeepsText(next, short, chunks, buf, front, add);
      }
    }
  }

  lemma Regroup(a: string, b: string, c: string, d: string, e: string)
    requires b + c == d + e
    ensures (a + b) + c == (a + d) + e
  {
    assert (a + b) + c == a + (b + c) && (a + d) + e == a + (d + e);
  }

  /** However the text arrives, what is emitted and what is still buffered are exactly what came
      in, up to spaces; every chunk says something; and the rest is always short. */
  lemma FeedKeepsText(z: Sizes, language: bool, adds: seq<string>)
    requires SizesOk(z)
    ensures var (chunks, buf) := Fed(NextOf(z, language), adds);
      && AllSpoken(chunks) + Spoken(buf) == AllSpoken(adds)
      && (forall k :: 0 <= k < |chunks| ==> chunks[k] != "")
      && Short(z, language, buf)
  {
    NextOfKeepsText(z, language);
    FedKeepsText(NextOf(z, language), ShortOf(z, language), adds);
  }

  /** Once flushed, the same has been said wherever the stream was chopped up. */
  lemma ChoppingIsInaudible(z: Sizes, language: bool, adds: seq<string>, others: seq<string>)
    requires SizesOk(z) && AllSpoken(adds) == AllSpoken(others)
    ensures var ((a, x), (b, y)) := (Fed(NextOf(z, language), adds), Fed(NextOf(z, language), others));
      AllSpoken(a) + Spoken(Strip(x)) == AllSpoken(b) + Spoken(Strip(y))
  {
    FeedKeepsText(z, language, adds);
    FeedKeepsText(z, language, others);
    StripSpoken(Fed(NextOf(z, language), adds).1);
    StripSpoken(Fed(NextOf(z, language), others).1);
  }
}
