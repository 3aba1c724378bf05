/**
 Collapsing one sentence that consecutive segments repeat: `collapse_segment_repeats` of
 degenerate.py.
 */
module SegmentRepeats {
  import opened Text
  import Collapse
  import Runs

  const MIN_SEGMENT_KEY_LEN := 8
  const MIN_SEGMENT_RUN_SHORT := 6
  const MIN_REPEATS_MULTI_CHAR := 3

  function Key(s: string): string { Collapse.RStripSep(Strip(s)) }

  predicate Enough(runLen: nat, text: string) {
    && runLen >= MIN_REPEATS_MULTI_CHAR
    && (runLen >= MIN_SEGMENT_RUN_SHORT || |Key(text)| >= MIN_SEGMENT_KEY_LEN)
  }

  predicate SameSentence(a: string, b: string) { Key(a) == Key(b) && Key(b) != "" }

  /** One of each run that is long enough, all of the others. */
  function Kept(texts: seq<string>): seq<string> { Runs.Collapsed(texts, SameSentence, Enough) }

  lemma SentencesAreSame()
    ensures Runs.Sameness(SameSentence)
  {
  }

  /** `collapse_segment_repeats` */
  method CollapseSegmentRepeats(texts: seq<string>) returns (kept: seq<string>, dropped: nat)
    ensures kept == Kept(texts) && |kept| + dropped == |texts|
  {
    SentencesAreSame();
    kept, dropped := Runs.CollapseRuns(texts, SameSentence, Enough);
  }

  /** A second pass changes nothing, a pass changes something exactly when there is a run long
      enough, and every run leaves at least its first segment. */
  lemma PassLaw(texts: seq<string>)
    ensures Kept(Kept(texts)) == Kept(texts)
    ensures Kept(texts) == texts <==> Runs.NoLongRun(texts, SameSentence, Enough)
    ensures Runs.Heads(Kept(texts), SameSentence) == Runs.Heads(texts, SameSentence)
  {
    SentencesAreSame();
    assert forall x :: !Enough(1, x);
    Runs.CollapsedTwice(texts, SameSentence, Enough);
    Runs.UnchangedExactlyWhen(texts, SameSentence, Enough);
    Runs.HeadsStay(texts, SameSentence, Enough);
  }
}
