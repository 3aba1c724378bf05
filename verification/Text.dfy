/** The parts of Python's `str` that the modelled code relies on. */
module Text {

  const SPACES: seq<(char, char)> := [
    (' ', ' '), ('\t', '\r'), ('\U{1c}', '\U{1f}'), ('\U{85}', '\U{85}'), ('\U{a0}', '\U{a0}'),
    ('\U{1680}', '\U{1680}'), ('\U{2000}', '\U{200a}'), ('\U{2028}', '\U{2029}'), ('\U{202f}', '\U{202f}'),
    ('\U{205f}', '\U{205f}'), ('\U{3000}', '\U{3000}')]

  /** c is in one of the ranges from the k-th on. */
  predicate InRanges(c: char, k: nat)
    decreases |SPACES| - k
  {
    k < |SPACES| && (SPACES[k].0 <= c <= SPACES[k].1 || InRanges(c, k + 1))
  }

  /** `str.isspace` of one character. */
  predicate IsSpace(c: char) { InRanges(c, 0) }

  /** `s.lstrip()` */
  function LStrip(s: string): (r: string)
    ensures |r| <= |s| && r == s[|s| - |r|..]
    ensures r != "" ==> !IsSpace(r[0])
  {
    if s != "" && IsSpace(s[0]) then LStrip(s[1..]) else s
  }

  /** `s.rstrip()` */
  function RStrip(s: string): (r: string)
    ensures |r| <= |s| && r == s[..|r|]
    ensures r != "" ==> !IsSpace(r[|r| - 1])
  {
    if s != "" && IsSpace(s[|s| - 1]) then RStrip(s[..|s| - 1]) else s
  }

  /** `s.strip()` */
  function Strip(s: string): string { RStrip(LStrip(s)) }

  predicate Stripped(s: string) { s == "" || (!IsSpace(s[0]) && !IsSpace(s[|s| - 1])) }

  lemma StripIsStripped(s: string)
    ensures Stripped(Strip(s)) && (Stripped(s) ==> Strip(s) == s)
  {
    var l := LStrip(s);
    if l != "" { RStripKeeps(l); }
  }

  lemma {:induction false} RStripKeeps(s: string)
    requires s != "" && !IsSpace(s[0])
    ensures RStrip(s) != "" && RStrip(s)[0] == s[0]
  {
    if IsSpace(s[|s| - 1]) { RStripKeeps(s[..|s| - 1]); }
  }

  /** The characters that are spoken. */
  function Spoken(s: string): string {
    if s == "" then "" else Spoken(s[..|s| - 1]) + if IsSpace(s[|s| - 1]) then "" else [s[|s| - 1]]
  }

  lemma {:induction false} SpokenConcat(s: string, t: string)
    ensures Spoken(s + t) == Spoken(s) + Spoken(t)
    decreases |t|
  {
    if t == "" {
      assert s + t == s;
    } else {
      assert (s + t)[..|s + t| - 1] == s + t[..|t| - 1];
      SpokenConcat(s, t[..|t| - 1]);
    }
  }

  lemma {:induction false} LStripSpoken(s: string)
    ensures Spoken(LStrip(s)) == Spoken(s)
  {
    if s != "" && IsSpace(s[0]) {
      var tail := s[1..];
      assert s == [s[0]] + tail;
      OneSpace(s[0], tail);
      LStripSpoken(tail);
      assert LStrip(s) == LStrip(tail);
    }
  }

  lemma OneSpace(c: char, tail: string)
    requires IsSpace(c)
    ensures Spoken([c] + tail) == Spoken(tail)
  {
    assert [c][..0] == "";
    assert Spoken([c]) == "";
    SpokenConcat([c], tail);
  }

  lemma {:induction false} RStripSpoken(s: string)
    ensures Spoken(RStrip(s)) == Spoken(s)
  {
    if s != "" && IsSpace(s[|s| - 1]) { RStripSpoken(s[..|s| - 1]); }
  }

  lemma StripSpoken(s: string)
    ensures Spoken(Strip(s)) == Spoken(s)
  {
    LStripSpoken(s);
    RStripSpoken(LStrip(s));
  }

  lemma SpacedSpoken(s: string, t: string)
    ensures Spoken(s + " " + t) == Spoken(s) + Spoken(t)
  {
    var tail := " " + t;
    assert IsSpace(' ') by { assert SPACES[0] == (' ', ' '); }
    OneSpace(' ', t);
    SpokenConcat(s, tail);
    assert s + " " + t == s + tail;
  }
}
