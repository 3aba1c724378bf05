/**
 Collapsing decoder loops in transcripts: `collapse_repetition` of degenerate.py on the text,
 on top of the searches of Periods.
 */
module Collapse {
  import opened Common
  import opened Text
  import opened Periods

  const SEPARATORS: string := "，,。.、！!？?；;：: \t\n"

  /** c is one of the separators from the k-th on. */
  predicate IsOneFrom(c: char, k: nat)
    decreases |SEPARATORS| - k
  {
    k < |SEPARATORS| && (c == SEPARATORS[k] || IsOneFrom(c, k + 1))
  }

  predicate IsSep(c: char) { IsOneFrom(c, 0) }

  /** `s.rstrip(_SEPARATORS)` */
  function RStripSep(s: string): string {
    if s != "" && IsSep(s[|s| - 1]) then RStripSep(s[..|s| - 1]) else s
  }

  function LStripSep(s: string): string { if s != "" && IsSep(s[0]) then LStripSep(s[1..]) else s }

  /** `s.strip(_SEPARATORS)` */
  function StripSep(s: string): string { LStripSep(RStripSep(s)) }

  // ------------------------------------------------------------------
  // Units of a text
  // ------------------------------------------------------------------

  /** A word or a character, and where it begins. */
  datatype Unit = Unit(text: string, start: nat)

  function CharUnits(s: string): seq<Unit> {
    if s == "" then []
    else
      var n := |s| - 1;
      CharUnits(s[..n]) + if IsSep(s[n]) then [] else [Unit([s[n]], n)]
  }

  /** A character that is no space goes on with the word at the end of s. */
  predicate EndsInWord(s: string) { s != "" && !IsSpace(s[|s| - 1]) }

  /** How the words change when a character that is no space is appended. */
  function Grow(ws: seq<Unit>, n: nat, c: char, goesOn: bool): (r: seq<Unit>)
    requires goesOn ==> ws != []
    ensures r != []
  {
    if goesOn then ws[..|ws| - 1] + [Unit(ws[|ws| - 1].text + [c], ws[|ws| - 1].start)] else ws + [Unit([c], n)]
  }

  /** The matches of \S+ from left to right. */
  function WordsOf(s: string): (ws: seq<Unit>)
    ensures EndsInWord(s) ==> ws != []
  {
    if s == "" then []
    else
      var n := |s| - 1;
      if IsSpace(s[n]) then WordsOf(s[..n]) else Grow(WordsOf(s[..n]), n, s[n], EndsInWord(s[..n]))
  }

  function Bare(w: Unit): seq<Unit> {
    if StripSep(w.text) != "" then [Unit(StripSep(w.text), w.start)] else []
  }

  /** Words without the separators around them; a word of separators is no unit. */
  function BareWords(ws: seq<Unit>): seq<Unit> {
    if ws == [] then [] else BareWords(ws[..|ws| - 1]) + Bare(ws[|ws| - 1])
  }

  function Units(spaced: bool, s: string): seq<Unit> { if spaced then BareWords(WordsOf(s)) else CharUnits(s) }

  function Texts(us: seq<Unit>): (ts: seq<string>)
    ensures |ts| == |us| && forall k :: 0 <= k < |us| ==> ts[k] == us[k].text
  {
    seq(|us|, k requires 0 <= k < |us| => us[k].text)
  }

  function UnitTexts(spaced: bool, s: string): seq<string> { Texts(Units(spaced, s)) }

  function Shift(us: seq<Unit>, shift: nat): (r: seq<Unit>)
    ensures |r| == |us| && forall k :: 0 <= k < |us| ==> r[k] == Unit(us[k].text, us[k].start + shift)
  {
    seq(|us|, k requires 0 <= k < |us| => Unit(us[k].text, us[k].start + shift))
  }

  lemma {:induction false} BareConcat(a: seq<Unit>, b: seq<Unit>)
    ensures BareWords(a + b) == BareWords(a) + BareWords(b)
    decreases |b|
  {
    if b == [] {
      assert a + b == a;
    } else {
      assert (a + b)[..|a + b| - 1] == a + b[..|b| - 1];
      BareConcat(a, b[..|b| - 1]);
    }
  }

  lemma ShiftConcat(a: seq<Unit>, b: seq<Unit>, shift: nat)
    ensures Shift(a + b, shift) == Shift(a, shift) + Shift(b, shift)
  {
  }

  lemma BareShiftOne(w: Unit, shift: nat)
    ensures Bare(Unit(w.text, w.start + shift)) == Shift(Bare(w), shift)
  {
  }

  lemma ShiftSnoc(a: seq<Unit>, shift: nat)
    requires a != []
    ensures Shift(a, shift) == Shift(a[..|a| - 1], shift) + [Unit(a[|a| - 1].text, a[|a| - 1].start + shift)]
  {
  }

  lemma BareSnoc(ws: seq<Unit>, w: Unit)
    ensures BareWords(ws + [w]) == BareWords(ws) + Bare(w)
  {
    assert (ws + [w])[..|ws|] == ws;
  }

  lemma {:induction false} BareShift(a: seq<Unit>, shift: nat)
    ensures BareWords(Shift(a, shift)) == Shift(BareWords(a), shift)
  {
    if a != [] {
      var front, last := a[..|a| - 1], a[|a| - 1];
      BareShift(front, shift);
      BareShiftOne(last, shift);
      ShiftConcat(BareWords(front), Bare(last), shift);
      ShiftSnoc(a, shift);
      BareSnoc(Shift(front, shift), Unit(last.text, last.start + shift));
    }
  }

  /** Between a and b no word runs across. */
  predicate Boundary(a: string, b: string) { a == "" || b == "" || IsSpace(a[|a| - 1]) || IsSpace(b[0]) }

  lemma WordsSnoc(t: string, c: char)
    ensures WordsOf(t + [c]) == if IsSpace(c) then WordsOf(t) else Grow(WordsOf(t), |t|, c, EndsInWord(t))
  {
    assert (t + [c])[..|t|] == t;
  }

  lemma GrowConcat(us: seq<Unit>, ws: seq<Unit>, n: nat, m: nat, c: char, goesOn: bool)
    requires goesOn ==> ws != []
    ensures Grow(us + Shift(ws, m), m + n, c, goesOn) == us + Shift(Grow(ws, n, c, goesOn), m)
  {
    var all := us + Shift(ws, m);
    if goesOn {
      var k := |ws| - 1;
      assert all[..|all| - 1] == us + Shift(ws, m)[..k];
      assert Shift(ws, m)[..k] == Shift(ws[..k], m);
      ShiftConcat(ws[..k], [Unit(ws[k].text + [c], ws[k].start)], m);
      assert Shift([Unit(ws[k].text + [c], ws[k].start)], m) == [Unit(ws[k].text + [c], ws[k].start + m)];
    } else {
      ShiftConcat(ws, [Unit([c], n)], m);
      assert Shift([Unit([c], n)], m) == [Unit([c], n + m)];
    }
  }

  lemma EndsAlike(a: string, b: string, c: char)
    requires Boundary(a, b + [c]) && !IsSpace(c)
    ensures EndsInWord(a + b) == EndsInWord(b)
  {
    if b == "" { assert a + b == a && (b + [c])[0] == c; }
  }

  lemma BoundaryBefore(a: string, b: string, c: char)
    requires Boundary(a, b + [c])
    ensures Boundary(a, b)
  {
    if b != "" { assert (b + [c])[0] == b[0]; }
  }

  lemma WordsConcatSpace(a: string, b: string, c: char)
    requires IsSpace(c) && WordsOf(a + b) == WordsOf(a) + Shift(WordsOf(b), |a|)
    ensures WordsOf((a + b) + [c]) == WordsOf(a) + Shift(WordsOf(b + [c]), |a|)
  {
    WordsSnoc(a + b, c);
    WordsSnoc(b, c);
  }

  lemma WordsConcatLetter(a: string, b: string, c: char)
    requires Boundary(a, b + [c]) && !IsSpace(c) && WordsOf(a + b) == WordsOf(a) + Shift(WordsOf(b), |a|)
    ensures WordsOf((a + b) + [c]) == WordsOf(a) + Shift(WordsOf(b + [c]), |a|)
  {
    var wa, wb, goesOn := WordsOf(a), WordsOf(b), EndsInWord(b);
    EndsAlike(a, b, c);
    GrowConcat(wa, wb, |b|, |a|, c, goesOn);
    assert WordsOf((a + b) + [c]) == Grow(wa + Shift(wb, |a|), |a| + |b|, c, goesOn) by { WordsSnoc(a + b, c); }
    assert WordsOf(b + [c]) == Grow(wb, |b|, c, goesOn) by { WordsSnoc(b, c); }
  }

  lemma {:induction false} WordsConcat(a: string, b: string)
    requires Boundary(a, b)
    ensures WordsOf(a + b) == WordsOf(a) + Shift(WordsOf(b), |a|)
    decreases |b|
  {
    if b == "" {
      assert a + b == a;
    } else {
      var front, last := b[..|b| - 1], b[|b| - 1];
      assert b == front + [last] && a + b == (a + front) + [last];
      BoundaryBefore(a, front, last);
      WordsConcat(a, front);
      if IsSpace(last) {
        WordsConcatSpace(a, front, last);
      } else {
        WordsConcatLetter(a, front, last);
      }
    }
  }

  lemma {:induction false} CharConcat(a: string, b: string)
    ensures CharUnits(a + b) == CharUnits(a) + Shift(CharUnits(b), |a|)
    decreases |b|
  {
    if b == "" {
      assert a + b == a;
    } else {
      assert (a + b)[..|a + b| - 1] == a + b[..|b| - 1];
      CharConcat(a, b[..|b| - 1]);
    }
  }

  predicate Joins(spaced: bool, a: string, b: string) { spaced ==> Boundary(a, b) }

  lemma UnitsConcat(spaced: bool, a: string, b: string)
    requires Joins(spaced, a, b)
    ensures Units(spaced, a + b) == Units(spaced, a) + Shift(Units(spaced, b), |a|)
    ensures UnitTexts(spaced, a + b) == UnitTexts(spaced, a) + UnitTexts(spaced, b)
  {
    if spaced {
      WordsConcat(a, b);
      BareConcat(WordsOf(a), Shift(WordsOf(b), |a|));
      BareShift(WordsOf(b), |a|);
    } else {
      CharConcat(a, b);
    }
  }

  // ------------------------------------------------------------------
  // Where units begin
  // ------------------------------------------------------------------

  predicate BeginsAt(spaced: bool, s: string, i: nat) { i < |s| && (spaced ==> i == 0 || IsSpace(s[i - 1])) }

  predicate Ordered(us: seq<Unit>) { forall j, k :: 0 <= j < k < |us| ==> us[j].start < us[k].start }

  ghost predicate Placed(spaced: bool, s: string, us: seq<Unit>) {
    Ordered(us) && forall k :: 0 <= k < |us| ==> BeginsAt(spaced, s, us[k].start)
  }

  lemma GrowStarts(ws: seq<Unit>, n: nat, c: char, goesOn: bool)
    requires goesOn ==> ws != []
    ensures var r := Grow(ws, n, c, goesOn);
      && |r| == |ws| + (if goesOn then 0 else 1)
      && forall k :: 0 <= k < |r| ==> r[k].start == if k < |ws| then ws[k].start else n
  {
  }

  lemma GrowPlaced(t: string, c: char, ws: seq<Unit>, goesOn: bool)
    requires Placed(true, t, ws) && (goesOn ==> ws != []) && (!goesOn ==> t == "" || IsSpace(t[|t| - 1]))
    ensures Placed(true, t + [c], Grow(ws, |t|, c, goesOn))
  {
    var s, r := t + [c], Grow(ws, |t|, c, goesOn);
    WiderPlaced(t, c, ws);
    GrowStarts(ws, |t|, c, goesOn);
    assert !goesOn ==> BeginsAt(true, s, |t|);
    forall k | 0 <= k < |r|
      ensures BeginsAt(true, s, r[k].start)
    {
      assert k < |ws| ==> BeginsAt(true, s, ws[k].start);
    }
  }

  lemma WiderPlaced(t: string, c: char, ws: seq<Unit>)
    requires Placed(true, t, ws)
    ensures Placed(true, t + [c], ws) && forall k :: 0 <= k < |ws| ==> ws[k].start < |t|
  {
    forall k | 0 <= k < |ws|
      ensures BeginsAt(true, t + [c], ws[k].start) && ws[k].start < |t|
    {
      assert BeginsAt(true, t, ws[k].start);
    }
  }

  lemma {:induction false} WordsPlaced(s: string)
    ensures Placed(true, s, WordsOf(s))
  {
    if s != "" {
      var t, c := s[..|s| - 1], s[|s| - 1];
      assert s == t + [c];
      WordsPlaced(t);
      WordsSnoc(t, c);
      if IsSpace(c) {
        WiderPlaced(t, c, WordsOf(t));
      } else {
        GrowPlaced(t, c, WordsOf(t), EndsInWord(t));
      }
    }
  }

  lemma PlacedSnoc(s: string, us: seq<Unit>, more: seq<Unit>, at: nat)
    requires Placed(true, s, us) && BeginsAt(true, s, at) && (forall k :: 0 <= k < |us| ==> us[k].start < at)
    requires |more| <= 1 && forall k :: 0 <= k < |more| ==> more[k].start == at
    ensures Placed(true, s, us + more)
    ensures forall k :: 0 <= k < |us + more| ==> (us + more)[k].start <= at
  {
    forall k | 0 <= k < |us + more|
      ensures BeginsAt(true, s, (us + more)[k].start)
    {
      assert k < |us| ==> BeginsAt(true, s, us[k].start);
    }
  }

  lemma {:induction false} BarePlaced(s: string, ws: seq<Unit>)
    requires Placed(true, s, ws)
    ensures Placed(true, s, BareWords(ws))
    ensures forall k :: 0 <= k < |BareWords(ws)| ==> ws != [] && BareWords(ws)[k].start <= ws[|ws| - 1].start
  {
    if ws != [] {
      var front, last := ws[..|ws| - 1], ws[|ws| - 1];
      forall k | 0 <= k < |front|
        ensures BeginsAt(true, s, front[k].start)
      {
        assert BeginsAt(true, s, ws[k].start);
      }
      BarePlaced(s, front);
      assert BeginsAt(true, s, last.start);
      PlacedSnoc(s, BareWords(front), Bare(last), last.start);
    }
  }

  lemma {:induction false} CharsPlaced(s: string)
    ensures Placed(false, s, CharUnits(s))
  {
    if s != "" {
      CharsPlaced(s[..|s| - 1]);
    }
  }

  lemma UnitsPlaced(spaced: bool, s: string)
    ensures Placed(spaced, s, Units(spaced, s))
  {
    if spaced {
      WordsPlaced(s);
      BarePlaced(s, WordsOf(s));
    } else {
      CharsPlaced(s);
    }
  }

  /** Where unit j begins; the end of the text when there is none. */
  function Offset(spaced: bool, s: string, j: nat): (i: nat)
    ensures i <= |s|
  {
    UnitsPlaced(spaced, s);
    if j < |Units(spaced, s)| then Units(spaced, s)[j].start else |s|
  }

  lemma SplitPlaces(us: seq<Unit>, x: seq<Unit>, y: seq<Unit>, i: nat, j: nat)
    requires us == x + y && Ordered(us) && j < |us| && us[j].start == i
    requires forall k :: 0 <= k < |x| ==> x[k].start < i
    requires forall k :: 0 <= k < |y| ==> y[k].start >= i
    ensures x == us[..j] && y == us[j..]
  {
    var m := |x|;
    assert m < |us| ==> us[m].start >= i;
  }

  lemma CutBetween(spaced: bool, a: string, b: string, j: nat)
    requires Joins(spaced, a, b) && j < |Units(spaced, a + b)| && Units(spaced, a + b)[j].start == |a|
    ensures Units(spaced, a) == Units(spaced, a + b)[..j] && UnitTexts(spaced, b) == UnitTexts(spaced, a + b)[j..]
  {
    UnitsPlaced(spaced, a + b);
    UnitsPlaced(spaced, a);
    UnitsConcat(spaced, a, b);
    var x := Units(spaced, a);
    forall k | 0 <= k < |x|
      ensures x[k].start < |a|
    {
      assert BeginsAt(spaced, a, x[k].start);
    }
    SplitPlaces(Units(spaced, a + b), x, Shift(Units(spaced, b), |a|), |a|, j);
  }

  /** Cutting where a unit begins cuts the list of units there. */
  lemma CutAt(spaced: bool, s: string, j: nat)
    requires j <= |Units(spaced, s)|
    ensures var i := Offset(spaced, s, j);
      && Units(spaced, s[..i]) == Units(spaced, s)[..j] && UnitTexts(spaced, s[i..]) == UnitTexts(spaced, s)[j..]
      && Joins(spaced, s[..i], s[i..])
  {
    if j < |Units(spaced, s)| {
      CutInside(spaced, s, j, Offset(spaced, s, j));
    } else {
      assert s[..|s|] == s && s[|s|..] == "";
    }
  }

  lemma CutInside(spaced: bool, s: string, j: nat, i: nat)
    requires j < |Units(spaced, s)| && Units(spaced, s)[j].start == i
    ensures i < |s| && Units(spaced, s[..i]) == Units(spaced, s)[..j]
    ensures UnitTexts(spaced, s[i..]) == UnitTexts(spaced, s)[j..] && Joins(spaced, s[..i], s[i..])
  {
    UnitsPlaced(spaced, s);
    assert BeginsAt(spaced, s, Units(spaced, s)[j].start);
    assert s == s[..i] + s[i..];
    CutBetween(spaced, s[..i], s[i..], j);
  }

  /** The text from unit i up to unit j. */
  lemma SliceUnits(spaced: bool, s: string, i: nat, j: nat)
    requires i <= j <= |Units(spaced, s)|
    ensures Offset(spaced, s, i) <= Offset(spaced, s, j)
    ensures UnitTexts(spaced, s[Offset(spaced, s, i)..Offset(spaced, s, j)]) == UnitTexts(spaced, s)[i..j]
  {
    var from, to, us := Offset(spaced, s, i), Offset(spaced, s, j), Units(spaced, s);
    UnitsPlaced(spaced, s);
    CutAt(spaced, s, j);
    if i < j {
      assert BeginsAt(spaced, s, us[i].start);
      var t := s[..to];
      assert Units(spaced, t)[i] == us[i];
      CutAt(spaced, t, i);
      assert t[from..] == s[from..to];
    } else {
      assert s[from..to] == "";
    }
  }

  // ------------------------------------------------------------------
  // Trimming and joining
  // ------------------------------------------------------------------

  predicate NoSpaces(s: string) { forall k :: 0 <= k < |s| ==> !IsSpace(s[k]) }

  lemma {:induction false} RStripKeepsUnits(spaced: bool, s: string)
    requires spaced || NoSpaces(s)
    ensures UnitTexts(spaced, RStrip(s)) == UnitTexts(spaced, s)
  {
    if s != "" && IsSpace(s[|s| - 1]) {
      RStripKeepsUnits(spaced, s[..|s| - 1]);
    }
  }

  lemma SepAddsNothing(w: string, c: char)
    requires IsSep(c)
    ensures StripSep(w + [c]) == StripSep(w)
  {
    assert (w + [c])[..|w|] == w;
  }

  lemma SepGrowsNothing(ws: seq<Unit>, n: nat, c: char, goesOn: bool)
    requires IsSep(c) && (goesOn ==> ws != [])
    ensures Texts(BareWords(Grow(ws, n, c, goesOn))) == Texts(BareWords(ws))
  {
    if goesOn {
      var front, last := ws[..|ws| - 1], ws[|ws| - 1];
      assert ws == front + [last];
      SepAddsNothing(last.text, c);
      BareSnoc(front, last);
      BareSnoc(front, Unit(last.text + [c], last.start));
      assert Texts(Bare(last)) == Texts(Bare(Unit(last.text + [c], last.start)));
    } else {
      SepAddsNothing("", c);
      assert "" + [c] == [c];
      BareSnoc(ws, Unit([c], n));
    }
  }

  lemma SepAddsNoUnit(spaced: bool, t: string, c: char)
    requires IsSep(c)
    ensures UnitTexts(spaced, t + [c]) == UnitTexts(spaced, t)
  {
    if spaced {
      WordsSnoc(t, c);
      if !IsSpace(c) { SepGrowsNothing(WordsOf(t), |t|, c, EndsInWord(t)); }
    } else {
      assert (t + [c])[..|t|] == t;
    }
  }

  lemma {:induction false} RStripSepKeepsUnits(spaced: bool, s: string)
    ensures UnitTexts(spaced, RStripSep(s)) == UnitTexts(spaced, s)
  {
    if s != "" && IsSep(s[|s| - 1]) {
      assert s == s[..|s| - 1] + [s[|s| - 1]];
      SepAddsNoUnit(spaced, s[..|s| - 1], s[|s| - 1]);
      RStripSepKeepsUnits(spaced, s[..|s| - 1]);
    }
  }

  function Joined(spaced: bool, a: string, b: string): string { if spaced then a + " " + b else a + b }

  lemma JoinKeepsUnits(spaced: bool, a: string, b: string)
    ensures UnitTexts(spaced, Joined(spaced, a, b)) == UnitTexts(spaced, a) + UnitTexts(spaced, b)
  {
    if spaced {
      UnitsConcat(spaced, a, " ");
      assert WordsOf(" ") == [] by { assert " "[..0] == ""; }
      UnitsConcat(spaced, a + " ", b);
    } else {
      UnitsConcat(spaced, a, b);
    }
  }

  // ------------------------------------------------------------------
  // One transcript
  // ------------------------------------------------------------------

  const MIN_REPEATS_SINGLE_CHAR := 8
  const MIN_REPEATS_MULTI_CHAR := 3
  const MIN_REPEATS_SPACED := 6

  predicate HasSpace(s: string) { exists k :: 0 <= k < |s| && IsSpace(s[k]) }

  function BarFor(spaced: bool): (bar: Bar)
    ensures BarOk(bar)
  {
    if spaced then Bar(MIN_REPEATS_SPACED, None) else Bar(MIN_REPEATS_MULTI_CHAR, Some(MIN_REPEATS_SINGLE_CHAR))
  }

  function Starts(us: seq<Unit>): (r: seq<nat>)
    ensures |r| == |us| && forall k :: 0 <= k < |us| ==> r[k] == us[k].start
  {
    seq(|us|, k requires 0 <= k < |us| => us[k].start)
  }

  lemma UnitsSnoc(us: seq<Unit>, more: seq<Unit>)
    ensures Texts(us + more) == Texts(us) + Texts(more) && Starts(us + more) == Starts(us) + Starts(more)
  {
  }

  method AddWord(w: Unit, units: seq<string>, offsets: seq<nat>, ghost us: seq<Unit>) returns (units1: seq<string>, offsets1: seq<nat>)
    requires units == Texts(us) && offsets == Starts(us)
    ensures units1 == Texts(us + Bare(w)) && offsets1 == Starts(us + Bare(w))
  {
    UnitsSnoc(us, Bare(w));
    units1, offsets1 := units, offsets;
    var word := StripSep(w.text);
    if word != "" {
      units1 := units + [word];
      offsets1 := offsets + [w.start];
    }
  }

  method WordUnits(s: string) returns (units: seq<string>, offsets: seq<nat>)
    ensures units == UnitTexts(true, s) && offsets == Starts(Units(true, s))
  {
    units, offsets := [], [];
    var matches := WordsOf(s);
    for i := 0 to |matches|
      invariant units == Texts(BareWords(matches[..i])) && offsets == Starts(BareWords(matches[..i]))
    {
      assert matches[..i + 1] == matches[..i] + [matches[i]];
      BareSnoc(matches[..i], matches[i]);
      units, offsets := AddWord(matches[i], units, offsets, BareWords(matches[..i]));
    }
    assert matches[..|matches|] == matches;
  }

  method CharacterUnits(s: string) returns (units: seq<string>, offsets: seq<nat>)
    ensures units == UnitTexts(false, s) && offsets == Starts(Units(false, s))
  {
    units, offsets := [], [];
    for i := 0 to |s|
      invariant units == Texts(CharUnits(s[..i])) && offsets == Starts(CharUnits(s[..i]))
    {
      assert s[..i + 1][..i] == s[..i];
      if !IsSep(s[i]) {
        units := units + [[s[i]]];
        offsets := offsets + [i];
      }
    }
    assert s[..|s|] == s;
  }

  /** The units of a text as the source keeps them: their texts, and where each begins. */
  ghost predicate UnitsOf(spaced: bool, s: string, units: seq<string>, offsets: seq<nat>) {
    && (spaced || NoSpaces(s))
    && units == UnitTexts(spaced, s) && offsets == Starts(Units(spaced, s))
    && forall k :: 0 <= k < |offsets| ==> offsets[k] <= |s| && offsets[k] == Offset(spaced, s, k)
  }

  lemma UnitsAre(spaced: bool, s: string)
    requires spaced || NoSpaces(s)
    ensures UnitsOf(spaced, s, UnitTexts(spaced, s), Starts(Units(spaced, s)))
  {
    UnitsPlaced(spaced, s);
    forall k | 0 <= k < |Units(spaced, s)|
      ensures Starts(Units(spaced, s))[k] == Offset(spaced, s, k)
    {
    }
  }

  // What stays is taken over from the text as it is, separators included; only what dangles where
  // a cut was made is trimmed.

  function HeadText(spaced: bool, s: string, m: nat, resume: nat): string
    requires m <= resume <= |Units(spaced, s)| && (spaced || NoSpaces(s))
  {
    UnitsPlaced(spaced, s);
    var head := RStrip(s[..Offset(spaced, s, m)]);
    if resume == |Units(spaced, s)| then RStripSep(head) else Joined(spaced, head, s[Offset(spaced, s, resume)..])
  }

  function TailText(spaced: bool, s: string, start: nat, end: nat): string
    requires start <= end <= |Units(spaced, s)| && (spaced || NoSpaces(s))
  {
    TrimmedSlice(spaced, s, start, end);
    var (from, to) := (Offset(spaced, s, start), Offset(spaced, s, end));
    Joined(spaced, RStrip(s[..from]), RStripSep(RStrip(s[from..to])))
  }

  function AroundText(spaced: bool, s: string, keep: nat, end: nat): string
    requires keep <= end <= |Units(spaced, s)| && (spaced || NoSpaces(s))
  {
    TrimmedSlice(spaced, s, keep, end);
    Joined(spaced, RStrip(s[..Offset(spaced, s, keep)]), s[Offset(spaced, s, end)..])
  }

  lemma HeadTextIs(spaced: bool, s: string, m: nat, resume: nat)
    requires m <= resume <= |Units(spaced, s)| && (spaced || NoSpaces(s))
    ensures UnitTexts(spaced, HeadText(spaced, s, m, resume)) == UnitTexts(spaced, s)[..m] + UnitTexts(spaced, s)[resume..]
  {
    var us, head := UnitTexts(spaced, s), RStrip(s[..Offset(spaced, s, m)]);
    TrimmedFront(spaced, s, m);
    if resume == |us| {
      RStripSepKeepsUnits(spaced, head);
      assert us[resume..] == [];
    } else {
      CutAt(spaced, s, resume);
      JoinKeepsUnits(spaced, head, s[Offset(spaced, s, resume)..]);
    }
  }

  /** The rest of a text from some unit on is not empty. */
  lemma RestIsText(spaced: bool, s: string, j: nat)
    requires j < |Units(spaced, s)| && (spaced || NoSpaces(s))
    ensures s[Offset(spaced, s, j)..] != ""
  {
    CutAt(spaced, s, j);
    assert UnitTexts(spaced, "") == [];
    assert UnitTexts(spaced, s)[j..] != [];
  }

  /** A copy from the front is kept; so is the rest, unless it is part of another copy. */
  method KeepHead(spaced: bool, stripped: string, units: seq<string>, offsets: seq<nat>, unit: seq<string>, covered: nat,
                  ghost resume: nat)
      returns (r: string)
    requires UnitsOf(spaced, stripped, units, offsets)
    requires |unit| < |units| && unit == units[..|unit|] && resume == Resume(units, |unit|, covered) && |unit| <= resume
    ensures UnitTexts(spaced, r) == unit + units[resume..]
    ensures r == HeadText(spaced, stripped, |unit|, resume)
  {
    var rest := "";
    if covered < |offsets| {
      var tail := units[covered..];
      if !(tail <= unit) {
        rest := stripped[offsets[covered]..];
        RestIsText(spaced, stripped, covered);
      }
    }
    HeadTextIs(spaced, stripped, |unit|, resume);
    var head := RStrip(stripped[..offsets[|unit|]]);
    if rest == "" {
      return RStripSep(head);
    }
    r := Joined(spaced, head, rest);
  }

  lemma TrimmedSlice(spaced: bool, s: string, i: nat, j: nat)
    requires i <= j <= |Units(spaced, s)| && (spaced || NoSpaces(s))
    ensures Offset(spaced, s, i) <= Offset(spaced, s, j)
    ensures var piece := s[Offset(spaced, s, i)..Offset(spaced, s, j)];
      && UnitTexts(spaced, RStrip(piece)) == UnitTexts(spaced, s)[i..j]
      && UnitTexts(spaced, RStripSep(RStrip(piece))) == UnitTexts(spaced, s)[i..j]
  {
    SliceUnits(spaced, s, i, j);
    var piece := s[Offset(spaced, s, i)..Offset(spaced, s, j)];
    RStripKeepsUnits(spaced, piece);
    RStripSepKeepsUnits(spaced, RStrip(piece));
  }

  lemma TrimmedFront(spaced: bool, s: string, j: nat)
    requires j <= |Units(spaced, s)| && (spaced || NoSpaces(s))
    ensures UnitTexts(spaced, RStrip(s[..Offset(spaced, s, j)])) == UnitTexts(spaced, s)[..j]
  {
    CutAt(spaced, s, j);
    RStripKeepsUnits(spaced, s[..Offset(spaced, s, j)]);
  }

  lemma JoinSlices(spaced: bool, s: string, prefix: string, kept: string, start: nat, end: nat)
    requires start <= end <= |Units(spaced, s)|
    requires UnitTexts(spaced, prefix) == UnitTexts(spaced, s)[..start]
    requires UnitTexts(spaced, kept) == UnitTexts(spaced, s)[start..end]
    ensures UnitTexts(spaced, Joined(spaced, prefix, kept)) == UnitTexts(spaced, s)[..end]
  {
    JoinKeepsUnits(spaced, prefix, kept);
    var us := UnitTexts(spaced, s);
    assert us[..end] == us[..start] + us[start..end];
  }

  /** What comes before the repeated tail, and its first copy. */
  method KeepTail(spaced: bool, stripped: string, units: seq<string>, offsets: seq<nat>, start: nat, unitLen: nat)
      returns (r: string)
    requires UnitsOf(spaced, stripped, units, offsets)
    requires start + unitLen <= |units| && start < |units|
    ensures UnitTexts(spaced, r) == units[..start + unitLen]
    ensures r == TailText(spaced, stripped, start, start + unitLen)
  {
    var end := start + unitLen;
    var from := offsets[start];
    var to := if end < |offsets| then offsets[end] else |stripped|;
    assert from == Offset(spaced, stripped, start) && to == Offset(spaced, stripped, end);
    TrimmedFront(spaced, stripped, start);
    TrimmedSlice(spaced, stripped, start, end);
    var prefix := RStrip(stripped[..from]);
    var kept := RStripSep(RStrip(stripped[from..to]));
    JoinSlices(spaced, stripped, prefix, kept, start, end);
    r := Joined(spaced, prefix, kept);
  }

  /** All but the copies after the first. */
  method KeepAround(spaced: bool, stripped: string, units: seq<string>, offsets: seq<nat>, keep: nat, end: nat)
      returns (r: string)
    requires UnitsOf(spaced, stripped, units, offsets)
    requires keep < end <= |units|
    ensures UnitTexts(spaced, r) == units[..keep] + units[end..]
    ensures r == AroundText(spaced, stripped, keep, end)
  {
    TrimmedFront(spaced, stripped, keep);
    CutAt(spaced, stripped, end);
    var resumeFrom := if end < |offsets| then offsets[end] else |stripped|;
    assert resumeFrom == Offset(spaced, stripped, end);
    var head := RStrip(stripped[..offsets[keep]]);
    var tail := stripped[resumeFrom..];
    JoinKeepsUnits(spaced, head, tail);
    r := Joined(spaced, head, tail);
  }

  /** The text of a cut: the kept copy with everything around it. */
  ghost predicate Keeps(spaced: bool, units: seq<string>, cut: Option<Cut>, r: Option<string>) {
    && r.Some? == cut.Some?
    && (r.Some? ==> CutsRepeats(units, cut.value) && UnitTexts(spaced, r.value) == Kept(units, cut.value))
  }

  lemma CutBounds(units: seq<string>, cut: Cut)
    requires CutsRepeats(units, cut)
    ensures cut.start + cut.unitLen < cut.resume <= |units|
  {
    Successor(cut.copies - 1, cut.unitLen);
    TwoFit(cut.copies - 1, cut.unitLen);
  }

  lemma HeadCutShape(units: seq<string>, bar: Bar)
    requires BarOk(bar) && HeadCut(units, bar).Some?
    ensures var (cut, m) := (HeadCut(units, bar).value, HeadUnit(units, bar).value);
      && CutsRepeats(units, cut) && cut.start == 0 && cut.unitLen == m < |units|
      && cut.resume == Resume(units, m, HeadWhole(units, m))
  {
    HeadCutsRepeats(units, bar);
    CutBounds(units, HeadCut(units, bar).value);
  }

  lemma HeadKept(units: seq<string>, cut: Cut, m: nat)
    requires cut.start == 0 && cut.unitLen == m <= |units| && cut.resume <= |units|
    ensures Kept(units, cut) == units[..m] + units[cut.resume..]
  {
  }

  method CollapseHead(spaced: bool, stripped: string, units: seq<string>, offsets: seq<nat>) returns (r: Option<string>)
    requires UnitsOf(spaced, stripped, units, offsets)
    ensures Keeps(spaced, units, HeadCut(units, BarFor(spaced)), r)
    ensures r.Some? ==>
      var cut := HeadCut(units, BarFor(spaced)).value;
      cut.unitLen <= cut.resume <= |units| && r.value == HeadText(spaced, stripped, cut.unitLen, cut.resume)
  {
    var unit, covered := FindPeriod(units, BarFor(spaced));
    if unit.None? {
      return None;
    }
    HeadCutShape(units, BarFor(spaced));
    ghost var cut := HeadCut(units, BarFor(spaced)).value;
    CutBounds(units, cut);
    HeadKept(units, cut, |unit.value|);
    var text := KeepHead(spaced, stripped, units, offsets, unit.value, covered, cut.resume);
    r := Some(text);
  }

  lemma TailShape(units: seq<string>)
    requires TailCut(units).Some?
    ensures var cut := TailCut(units).value;
      && CutsRepeats(units, cut) && cut.start + cut.unitLen < cut.resume == |units|
      && Kept(units, cut) == units[..cut.start + cut.unitLen]
  {
    TailCutsRepeats(units);
    CutBounds(units, TailCut(units).value);
    assert units[|units|..] == [];
  }

  ghost function LateTail(units: seq<string>): Option<Cut> {
    if TailCut(units).Some? && TailCut(units).value.start > 0 then TailCut(units) else None
  }

  ghost predicate IsTailText(spaced: bool, s: string, units: seq<string>, r: string)
    requires units == UnitTexts(spaced, s) && (spaced || NoSpaces(s))
  {
    TailCut(units).Some? &&
    var cut := TailCut(units).value;
    cut.start + cut.unitLen <= |units| && r == TailText(spaced, s, cut.start, cut.start + cut.unitLen)
  }

  lemma TailDone(spaced: bool, s: string, units: seq<string>, start: nat, end: nat, text: string)
    requires units == UnitTexts(spaced, s) && (spaced || NoSpaces(s)) && LateTail(units).Some?
    requires start == TailCut(units).value.start && end == start + TailCut(units).value.unitLen <= |units|
    requires text == TailText(spaced, s, start, end) && UnitTexts(spaced, text) == units[..end]
    ensures Keeps(spaced, units, LateTail(units), Some(text)) && IsTailText(spaced, s, units, text)
  {
    TailShape(units);
    MadeCut(spaced, units, TailCut(units).value, text);
  }

  lemma MadeCut(spaced: bool, units: seq<string>, cut: Cut, text: string)
    requires CutsRepeats(units, cut) && cut.start + cut.unitLen <= |units| && UnitTexts(spaced, text) == Kept(units, cut)
    ensures Keeps(spaced, units, Some(cut), Some(text))
  {
  }

  method CutTail(spaced: bool, stripped: string, units: seq<string>, offsets: seq<nat>, start: nat, unitLen: nat) returns (text: string)
    requires UnitsOf(spaced, stripped, units, offsets) && LateTail(units).Some?
    requires start == TailCut(units).value.start && unitLen == TailCut(units).value.unitLen && start + unitLen < |units|
    ensures Keeps(spaced, units, LateTail(units), Some(text)) && IsTailText(spaced, stripped, units, text)
  {
    text := KeepTail(spaced, stripped, units, offsets, start, unitLen);
    TailDone(spaced, stripped, units, start, start + unitLen, text);
  }

  method CollapseTail(spaced: bool, stripped: string, units: seq<string>, offsets: seq<nat>) returns (r: Option<string>)
    requires UnitsOf(spaced, stripped, units, offsets)
    ensures Keeps(spaced, units, LateTail(units), r)
    ensures r.Some? ==> IsTailText(spaced, stripped, units, r.value)
  {
    var tailUnit, tailStart := FindTailPeriod(units);
    if tailUnit.None? || tailStart == 0 {
      return None;
    }
    TailShape(units);
    var text := CutTail(spaced, stripped, units, offsets, tailStart, |tailUnit.value|);
    r := Some(text);
  }

  lemma InteriorShape(units: seq<string>)
    requires InteriorRun(units).Some?
    ensures var (run, cut) := (InteriorRun(units).value, InteriorCut(units).value);
      && CutsRepeats(units, cut) && cut.start == run.start && cut.unitLen == run.unitLen
      && cut.start + cut.unitLen < cut.resume == run.start + Covered(run) <= |units|
  {
    InteriorCutsRepeats(units);
    CutBounds(units, InteriorCut(units).value);
  }

  ghost predicate IsInteriorText(spaced: bool, s: string, units: seq<string>, r: string)
    requires units == UnitTexts(spaced, s) && (spaced || NoSpaces(s))
  {
    InteriorCut(units).Some? &&
    var cut := InteriorCut(units).value;
    && cut.start + cut.unitLen <= cut.resume <= |units|
    && r == AroundText(spaced, s, cut.start + cut.unitLen, cut.resume)
  }

  lemma InteriorDone(spaced: bool, s: string, units: seq<string>, keep: nat, end: nat, text: string)
    requires units == UnitTexts(spaced, s) && (spaced || NoSpaces(s)) && InteriorRun(units).Some?
    requires keep == InteriorRun(units).value.start + InteriorRun(units).value.unitLen
    requires end == InteriorRun(units).value.start + Covered(InteriorRun(units).value) && keep <= end <= |units|
    requires text == AroundText(spaced, s, keep, end) && UnitTexts(spaced, text) == units[..keep] + units[end..]
    ensures Keeps(spaced, units, InteriorCut(units), Some(text)) && IsInteriorText(spaced, s, units, text)
  {
    InteriorShape(units);
    var cut := InteriorCut(units).value;
    assert cut.start + cut.unitLen == keep && cut.resume == end;
    MadeCut(spaced, units, cut, text);
  }

  method CollapseInterior(spaced: bool, stripped: string, units: seq<string>, offsets: seq<nat>) returns (r: Option<string>)
    requires UnitsOf(spaced, stripped, units, offsets)
    ensures Keeps(spaced, units, InteriorCut(units), r)
    ensures r.Some? ==> IsInteriorText(spaced, stripped, units, r.value)
  {
    var found := FindInteriorRun(units);
    if found.None? {
      return None;
    }
    InteriorShape(units);
    var keep, end := found.value.start + found.value.unitLen, found.value.start + Covered(found.value);
    var text := KeepAround(spaced, stripped, units, offsets, keep, end);
    InteriorDone(spaced, stripped, units, keep, end, text);
    r := Some(text);
  }

  /** The text of a cut, from whichever end the repeats were found. */
  ghost predicate CutText(spaced: bool, s: string, units: seq<string>, r: string)
    requires units == UnitTexts(spaced, s) && (spaced || NoSpaces(s))
  {
    if HeadCut(units, BarFor(spaced)).Some? then
      var cut := HeadCut(units, BarFor(spaced)).value;
      cut.unitLen <= cut.resume <= |units| && r == HeadText(spaced, s, cut.unitLen, cut.resume)
    else if LateTail(units).Some? then IsTailText(spaced, s, units, r)
    else IsInteriorText(spaced, s, units, r)
  }

  /** The three searches in turn. */
  method CollapseUnits(spaced: bool, stripped: string, units: seq<string>, offsets: seq<nat>) returns (r: Option<string>)
    requires UnitsOf(spaced, stripped, units, offsets)
    ensures Keeps(spaced, units, Decide(units, BarFor(spaced)), r)
    ensures r.Some? ==> CutText(spaced, stripped, units, r.value)
  {
    r := CollapseHead(spaced, stripped, units, offsets);
    if r.Some? {
      return;
    }
    r := CollapseTail(spaced, stripped, units, offsets);
    if r.Some? {
      return;
    }
    r := CollapseInterior(spaced, stripped, units, offsets);
  }

  /** `collapse_repetition`: nothing but repeats is lost, a text without any is left alone, and
      what stays is taken over as it was. */
  method CollapseRepetition(text: string) returns (r: string, fired: bool)
    ensures var (s, spaced) := (Strip(text), HasSpace(Strip(text)));
      && fired == Decide(UnitTexts(spaced, s), BarFor(spaced)).Some?
      && (!fired ==> r == text)
      && (fired ==> Keeps(spaced, UnitTexts(spaced, s), Decide(UnitTexts(spaced, s), BarFor(spaced)), Some(r)))
      && (fired ==> (spaced || NoSpaces(s)) && CutText(spaced, s, UnitTexts(spaced, s), r))
  {
    var stripped := Strip(text);
    if stripped == "" {
      return text, false;
    }
    var spaced := HasSpace(stripped);
    var units: seq<string>, offsets: seq<nat>;
    if spaced {
      units, offsets := WordUnits(stripped);
    } else {
      units, offsets := CharacterUnits(stripped);
    }
    UnitsAre(spaced, stripped);
    var cutText := CollapseUnits(spaced, stripped, units, offsets);
    if cutText.Some? {
      return cutText.value, true;
    }
    return text, false;
  }

  // ------------------------------------------------------------------
  // How many copies it takes
  // ------------------------------------------------------------------

  /** Copies of a unit that were seen: for a long unit one that was cut short counts, too. */
  function Seen(cut: Cut): nat { cut.copies + if cut.unitLen >= 6 then 1 else 0 }

  /** Eight copies of one character (or of one character repeated), three of anything else; among
      words six, or three of six words or more. */
  function Takes(spaced: bool, unit: seq<string>): nat {
    if !spaced && IsUniform(unit) then 8 else if |unit| >= 6 || !spaced then 3 else 6
  }

  ghost predicate TakesEnough(spaced: bool, units: seq<string>, cut: Cut) {
    cut.start + cut.unitLen <= |units| && Seen(cut) >= Takes(spaced, units[cut.start..cut.start + cut.unitLen])
  }

  lemma HeadTakes(spaced: bool, units: seq<string>)
    requires HeadCut(units, BarFor(spaced)).Some?
    ensures TakesEnough(spaced, units, HeadCut(units, BarFor(spaced)).value)
  {
    HeadUnitQualifies(units, BarFor(spaced));
    var m := HeadUnit(units, BarFor(spaced)).value;
    assert units[0..m] == units[..m] && IsUniform(units[..m]) <==> IsUniform(units[0..m]);
    assert |units[..m]| == 1 ==> IsUniform(units[..m]);
  }

  lemma NeededCovers(spaced: bool, unit: seq<string>, copies: nat)
    requires copies >= RepeatsNeeded(unit, TAIL_BAR)
    ensures copies >= Takes(spaced, unit)
  {
  }

  lemma TailCutTakes(spaced: bool, units: seq<string>, m: nat, p: nat, cut: Cut)
    requires TailFits(|units|, m, p) && TailQualifies(units, m, p) && TailCovered(units, m, p) <= |units|
    requires cut == Cut(|units| - TailCovered(units, m, p), m, TailCopies(units, m, p), |units|)
    ensures TakesEnough(spaced, units, cut)
  {
    TailUnitOf(units, m, p);
    NeededCovers(spaced, TailOf(units, m, p), TailCopies(units, m, p));
  }

  lemma TailTakes(spaced: bool, units: seq<string>)
    requires TailCut(units).Some?
    ensures TakesEnough(spaced, units, TailCut(units).value)
  {
    var m := TailUnit(units).value;
    var p := BestPhase(units, m, m).value;
    CoveredFits(units, m, p);
    TailCutTakes(spaced, units, m, p, TailCut(units).value);
  }

  lemma InteriorTakes(spaced: bool, units: seq<string>)
    requires InteriorCut(units).Some?
    ensures TakesEnough(spaced, units, InteriorCut(units).value)
  {
    InteriorRunFound(units);
    var run := InteriorRun(units).value;
    assert IsRun(units, run.unitLen, run.start);
  }

  /** Whatever is cut was seen often enough. */
  lemma EnoughCopies(spaced: bool, units: seq<string>)
    requires Decide(units, BarFor(spaced)).Some?
    ensures TakesEnough(spaced, units, Decide(units, BarFor(spaced)).value)
  {
    if HeadCut(units, BarFor(spaced)).Some? {
      HeadTakes(spaced, units);
    } else if TailCut(units).Some? && TailCut(units).value.start > 0 {
      TailTakes(spaced, units);
    } else {
      InteriorTakes(spaced, units);
    }
  }

  lemma {:induction false} AllCopies(units: seq<string>, i: nat)
    requires units != [] && i <= |units| && forall k :: 0 <= k < |units| ==> units[k] == units[0]
    ensures CopiesFrom(units, units[..1], i) == |units| - i
    decreases |units| - i
  {
    if i < |units| {
      assert units[i..i + 1] == [units[i]] == units[..1];
      AllCopies(units, i + 1);
    }
  }

  lemma EnoughOfOne(spaced: bool, units: seq<string>)
    requires |units| >= (if spaced then 6 else 8) && forall k :: 0 <= k < |units| ==> units[k] == units[0]
    ensures HeadCut(units, BarFor(spaced)).Some?
  {
    AllCopies(units, 0);
    assert |units| * 1 == |units| && HeadRepeats(units, 1) == |units|;
    assert HeadQualifies(units, BarFor(spaced), 1);
    HeadUnitIs(units, BarFor(spaced), 1);
  }

  /** A text of one unit over and over is collapsed from eight copies on (six of a word) and left
      alone below that. */
  lemma OneUnitText(spaced: bool, units: seq<string>)
    requires forall k :: 0 <= k < |units| ==> units[k] == units[0]
    ensures Decide(units, BarFor(spaced)).Some? <==> |units| >= if spaced then 6 else 8
  {
    if |units| >= if spaced then 6 else 8 {
      EnoughOfOne(spaced, units);
    } else if Decide(units, BarFor(spaced)).Some? {
      EnoughCopies(spaced, units);
      DecideCutsRepeats(units, BarFor(spaced));
      var cut := Decide(units, BarFor(spaced)).value;
      var u := units[cut.start..cut.start + cut.unitLen];
      assert IsUniform(u);
      CopiesFill(cut.copies, cut.unitLen);
    }
  }

  lemma CopiesFill(k: nat, m: nat)
    requires m >= 1
    ensures k * m >= k && (m >= 6 ==> k * m >= 6 * k)
  {
    assert k * m == k * (m - 1) + k;
    if m >= 6 { assert k * m == k * (m - 6) + k * 6; }
  }
}
