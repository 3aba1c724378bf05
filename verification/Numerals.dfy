/**
 Integers spoken in Chinese, twice: `cardinal` of zh_numbers and `_int_to_chinese` of the TTS
 sequencer were written independently.  One reader that goes through the characters from
 left to right gives back the number from either.

 `cardinal` goes through the digits and keeps a flag for a 零 that is due; the sequencer
 goes through groups of four digits and prints each group on its own.  Neither proof looks
 at the numeral as a whole: each says what the reader has open and has finished after a
 prefix of the numeral.
 */
module Numerals {
  import opened Common

  const CN_DIGITS: string := "零一二三四五六七八九"
  const CN_UNITS: seq<string> := ["", "十", "百", "千"]
  const CN_GROUPS: seq<string> := ["", "万", "亿", "兆"]
  const NEGATIVE: char := '负'

  function Ten(k: nat): (r: nat)
    ensures r >= 1
  {
    if k == 0 then 1 else 10 * Ten(k - 1)
  }

  lemma ModStepParts(v: nat, m: nat, b: nat, s: nat, t: nat, r: nat)
    requires v == (s * b + t) * m + r && t < b && r < m
    ensures b * m > 0 && v % (b * m) == t * m + r
  {
    assert (s * b + t) * m == s * (b * m) + t * m;
    AtLeastOnce(b - t, m);
    assert b * m == (b - t) * m + t * m;
    QuotientUnique(v, b * m, s, t * m + r);
  }

  /** Splitting the lowest b * m of v into its b part and its m part. */
  lemma ModStep(v: nat, m: nat, b: nat)
    requires m > 0 && b > 0
    ensures b * m > 0 && v % (b * m) == v / m % b * m + v % m
  {
    var q, r := v / m, v % m;
    var s, t := q / b, q % b;
    assert v == q * m + r;
    assert q == s * b + t;
    ModStepParts(v, m, b, s, t, r);
  }

  // ------------------------------------------------------------------
  // The reader
  // ------------------------------------------------------------------

  /** Finished groups, the group being read, and a digit waiting for its unit. */
  datatype Reading = Reading(total: nat, section: nat, num: nat)

  function DigitOf(c: char): Option<nat> {
    match c
    case '零' => Some(0) case '一' => Some(1) case '二' => Some(2) case '三' => Some(3) case '四' => Some(4)
    case '五' => Some(5) case '六' => Some(6) case '七' => Some(7) case '八' => Some(8) case '九' => Some(9)
    case _ => None
  }

  function UnitOf(c: char): nat {
    match c case '十' => Ten(1) case '百' => Ten(2) case '千' => Ten(3) case _ => 0
  }

  function GroupOf(c: char): nat {
    match c case '万' => Ten(4) case '亿' => Ten(8) case '兆' => Ten(12) case _ => 0
  }

  /** d units are read: they join the open group. */
  function AddUnit(a: Reading, d: nat, unit: nat): Reading { Reading(a.total, a.section + d * unit, 0) }

  /** The open group and d are read to their end, at the weight of the group. */
  function AddGroup(a: Reading, d: nat, weight: nat): Reading { Reading(a.total + (a.section + d) * weight, 0, 0) }

  /** A unit without a digit counts once: 十五 is 15. */
  function ReadChar(a: Reading, c: char): Reading {
    if DigitOf(c).Some? then a.(num := DigitOf(c).value)
    else if UnitOf(c) > 0 then AddUnit(a, if a.num == 0 then 1 else a.num, UnitOf(c))
    else AddGroup(a, a.num, GroupOf(c))
  }

  function ReadFrom(a: Reading, s: string): Reading
    decreases |s|
  {
    if s == "" then a else ReadFrom(ReadChar(a, s[0]), s[1..])
  }

  function Value(a: Reading): nat { a.total + a.section + a.num }

  const BLANK: Reading := Reading(0, 0, 0)

  function Read(s: string): int {
    if s != "" && s[0] == NEGATIVE then 0 - Value(ReadFrom(BLANK, s[1..])) as int else Value(ReadFrom(BLANK, s))
  }

  lemma {:induction false} ReadAppend(a: Reading, s: string, t: string)
    ensures ReadFrom(a, s + t) == ReadFrom(ReadFrom(a, s), t)
    decreases |s|
  {
    if s == "" {
      assert s + t == t;
    } else {
      assert (s + t)[1..] == s[1..] + t;
      ReadAppend(ReadChar(a, s[0]), s[1..], t);
    }
  }

  lemma ReadOne(a: Reading, c: char)
    ensures ReadFrom(a, [c]) == ReadChar(a, c)
  {
    assert [c][1..] == "";
  }

  /** 10^16: what the sequencer's four groups can hold. */
  const LIMIT: nat := 1_0000_0000_0000_0000

  /** What the lowest sixteen digits are worth. */
  function LowDigits(v: nat): nat { v % LIMIT }

  lemma Tens()
    ensures Ten(0) == 1 && Ten(1) == 10 && Ten(2) == 100 && Ten(3) == 1000 && Ten(4) == 1_0000
    ensures Ten(8) == 1_0000_0000 && Ten(12) == 1_0000_0000_0000 && Ten(16) == 1_0000_0000_0000_0000
  {
    assert Ten(8) == 10 * 10 * 10 * 10 * Ten(4);
    assert Ten(12) == 10 * 10 * 10 * 10 * Ten(8);
    assert Ten(16) == 10 * 10 * 10 * 10 * Ten(12);
  }

  lemma DigitNames(d: nat)
    requires d <= 9
    ensures DigitOf(CN_DIGITS[d]) == Some(d)
  {
  }

  lemma ReadDigit(a: Reading, d: nat)
    requires d <= 9
    ensures ReadFrom(a, [CN_DIGITS[d]]) == a.(num := d)
  {
    DigitNames(d);
    ReadOne(a, CN_DIGITS[d]);
  }

  lemma ReadUnit(a: Reading, k: nat)
    requires 1 <= k <= 3 && a.num >= 1
    ensures ReadFrom(a, CN_UNITS[k]) == AddUnit(a, a.num, Ten(k))
  {
    Tens();
    var c := CN_UNITS[k][0];
    assert CN_UNITS[k] == [c];
    assert DigitOf(c).None? && UnitOf(c) == Ten(k);
    ReadOne(a, c);
  }

  lemma ReadDigitUnit(a: Reading, d: nat, k: nat)
    requires 1 <= d <= 9 && k <= 3
    ensures ReadFrom(a, [CN_DIGITS[d]] + CN_UNITS[k])
         == if k == 0 then a.(num := d) else AddUnit(a, d, Ten(k))
  {
    ReadAppend(a, [CN_DIGITS[d]], CN_UNITS[k]);
    ReadDigit(a, d);
    if k > 0 { ReadUnit(a.(num := d), k); }
  }

  lemma GroupNames(g: nat)
    requires 1 <= g <= 3
    ensures |CN_GROUPS[g]| == 1
    ensures var c := CN_GROUPS[g][0]; DigitOf(c).None? && UnitOf(c) == 0 && GroupOf(c) == Ten(4 * g)
  {
  }

  lemma ReadGroup(a: Reading, g: nat)
    requires 1 <= g <= 3
    ensures ReadFrom(a, CN_GROUPS[g]) == AddGroup(a, a.num, Ten(4 * g))
  {
    var c := CN_GROUPS[g][0];
    GroupNames(g);
    assert CN_GROUPS[g] == [c];
    ReadOne(a, c);
  }

  lemma ReadZero(a: Reading)
    requires a.num == 0
    ensures ReadFrom(a, "零") == a
  {
    assert "零"[1..] == "";
  }

  // ------------------------------------------------------------------
  // The printer of the TTS sequencer
  // ------------------------------------------------------------------

  datatype Printed = Printed(text: string, pendingZero: bool)

  function DigitAt(value: nat, position: nat): (d: nat)
    requires position <= 3
    ensures d <= 9
  {
    if position == 0 then value % 10
    else if position == 1 then value / 10 % 10
    else if position == 2 then value / 100 % 10
    else value / 1000 % 10
  }

  function UnderStep(p: Printed, digit: nat, position: nat): Printed
    requires digit <= 9 && position <= 3
  {
    if digit == 0 then p.(pendingZero := p.pendingZero || p.text != "")
    else Printed((if p.pendingZero then p.text + "零" else p.text) + ([CN_DIGITS[digit]] + CN_UNITS[position]), false)
  }

  /** After the k highest of four positions. */
  function UnderState(value: nat, k: nat): Printed
    requires k <= 4
  {
    if k == 0 then Printed("", false) else UnderStep(UnderState(value, k - 1), DigitAt(value, 4 - k), 4 - k)
  }

  function UnderTenThousand(value: nat): string { UnderState(value, 4).text }

  method PrintUnderTenThousand(value: nat) returns (text: string)
    ensures text == UnderTenThousand(value)
  {
    var out := "";
    var pendingZero := false;
    var position := 4;
    while position > 0
      invariant 0 <= position <= 4 && Printed(out, pendingZero) == UnderState(value, 4 - position)
    {
      position := position - 1;
      var digit := DigitAt(value, position);
      if digit == 0 {
        if out != "" {
          pendingZero := true;
        }
        continue;
      }
      if pendingZero {
        out := out + "零";
        pendingZero := false;
      }
      out := out + ([CN_DIGITS[digit]] + CN_UNITS[position]);
    }
    text := out;
  }

  /** What the k highest of four positions contribute. */
  function UnderValue(v: nat, k: nat): nat
    requires k <= 4
  {
    if k == 0 then 0 else UnderValue(v, k - 1) + DigitAt(v, 4 - k) * Ten(4 - k)
  }

  lemma DigitStep(v: nat, position: nat)
    requires position <= 3
    ensures v % Ten(position + 1) == DigitAt(v, position) * Ten(position) + v % Ten(position)
  {
    Tens();
    ModStep(v, Ten(position), 10);
    assert DigitAt(v, position) == v / Ten(position) % 10;
  }

  lemma UnderValueIs(v: nat)
    requires v < 1_0000
    ensures UnderValue(v, 4) == v
  {
    DigitStep(v, 0);
    DigitStep(v, 1);
    DigitStep(v, 2);
    DigitStep(v, 3);
    assert Ten(0) == 1;
    assert UnderValue(v, 4) == UnderValue(v, 3) + DigitAt(v, 0) * Ten(0);
    assert UnderValue(v, 3) == UnderValue(v, 2) + DigitAt(v, 1) * Ten(1);
    assert UnderValue(v, 2) == UnderValue(v, 1) + DigitAt(v, 2) * Ten(2);
    assert UnderValue(v, 1) == DigitAt(v, 3) * Ten(3);
    SmallMod(v);
  }

  lemma SmallMod(v: nat)
    requires v < 1_0000
    ensures v % Ten(4) == v
  {
    Tens();
  }

  lemma ReadUnderStep(base: Reading, p: Printed, d: nat, position: nat)
    requires d <= 9 && position <= 3 && ReadFrom(base, p.text).num == 0
    ensures var (a, r) := (ReadFrom(base, p.text), ReadFrom(base, UnderStep(p, d, position).text));
      r == if d == 0 then a else if position == 0 then a.(num := d) else AddUnit(a, d, Ten(position))
  {
    var a := ReadFrom(base, p.text);
    if d > 0 {
      ReadAppend(base, p.text, "零");
      ReadZero(a);
      ReadAppend(base, if p.pendingZero then p.text + "零" else p.text, [CN_DIGITS[d]] + CN_UNITS[position]);
      ReadDigitUnit(a, d, position);
    }
  }

  /** Read where no group and no digit is open, it adds its value to the section. */
  lemma {:induction false} ReadUnder(v: nat, k: nat, total: nat)
    requires v < 1_0000 && k <= 4
    ensures var r := ReadFrom(Reading(total, 0, 0), UnderState(v, k).text);
      r.total == total && r.section + r.num == UnderValue(v, k) && (k < 4 ==> r.num == 0)
  {
    if k > 0 {
      ReadUnder(v, k - 1, total);
      ReadUnderStep(Reading(total, 0, 0), UnderState(v, k - 1), DigitAt(v, 4 - k), 4 - k);
      assert Ten(0) == 1;
    }
  }

  datatype Parts = Parts(text: string, started: bool)

  function Chunk(value: nat, index: nat): (c: nat)
    requires index <= 3
    ensures c < 1_0000
  {
    if index == 0 then value % 1_0000
    else if index == 1 then value / 1_0000 % 1_0000
    else if index == 2 then value / 1_0000_0000 % 1_0000
    else value / 1_0000_0000_0000 % 1_0000
  }

  function GroupStep(p: Parts, chunk: nat, index: nat): Parts
    requires index <= 3
  {
    if chunk == 0 then p else Parts(p.text + GroupText(p.started && chunk < 1000, chunk, index), true)
  }

  function GroupText(zero: bool, chunk: nat, index: nat): string
    requires index <= 3
  {
    (if zero then "零" else "") + UnderTenThousand(chunk) + CN_GROUPS[index]
  }

  /** After the k highest of four groups. */
  function GroupState(value: nat, k: nat): Parts
    requires k <= 4
  {
    if k == 0 then Parts("", false) else GroupStep(GroupState(value, k - 1), Chunk(value, 4 - k), 4 - k)
  }

  function Positive(value: nat): string {
    var out := GroupState(value, 4).text;
    if 10 <= value < 20 && out != "" then out[1..] else out
  }

  function IntToChinese(value: int): string
    decreases value < 0
  {
    if value < 0 then [NEGATIVE] + IntToChinese(-value)
    else if value == 0 then [CN_DIGITS[0]]
    else Positive(value)
  }

  function Join(parts: seq<string>): string {
    if parts == [] then "" else Join(parts[..|parts| - 1]) + parts[|parts| - 1]
  }

  method PrintPositive(value: nat) returns (text: string)
    ensures text == Positive(value)
  {
    var parts: seq<string> := [];
    var index := 4;
    while index > 0
      invariant 0 <= index <= 4 && Parts(Join(parts), parts != []) == GroupState(value, 4 - index)
    {
      index := index - 1;
      var chunk := Chunk(value, index);
      if chunk == 0 {
        continue;
      }
      var spoken := PrintUnderTenThousand(chunk);
      if parts != [] && chunk < 1000 {
        spoken := "零" + spoken;
      } else {
        assert spoken == "" + spoken;
      }
      ghost var before := parts;
      parts := parts + [spoken + CN_GROUPS[index]];
      assert parts[..|parts| - 1] == before;
    }
    text := Join(parts);
    if 10 <= value < 20 && text != "" {
      text := text[1..];
    }
  }

  method PrintInt(value: int) returns (text: string)
    ensures text == IntToChinese(value)
    decreases value < 0
  {
    if value < 0 {
      var rest := PrintInt(-value);
      return [NEGATIVE] + rest;
    }
    if value == 0 {
      return [CN_DIGITS[0]];
    }
    text := PrintPositive(value);
  }

  /** What the k highest of four groups contribute. */
  function GroupsValue(v: nat, k: nat): nat
    requires k <= 4
  {
    if k == 0 then 0 else GroupsValue(v, k - 1) + Chunk(v, 4 - k) * Ten(4 * (4 - k))
  }

  lemma ChunkStep(v: nat, index: nat)
    requires index <= 3
    ensures v % Ten(4 * index + 4) == Chunk(v, index) * Ten(4 * index) + v % Ten(4 * index)
  {
    Tens();
    ModStep(v, Ten(4 * index), 1_0000);
    TenFour(4 * index);
    assert Chunk(v, index) == v / Ten(4 * index) % 1_0000;
  }

  /** Digits above the fourth group are lost. */
  lemma GroupsValueIs(v: nat)
    ensures GroupsValue(v, 4) == LowDigits(v)
  {
    ChunkStep(v, 0);
    ChunkStep(v, 1);
    ChunkStep(v, 2);
    ChunkStep(v, 3);
    assert Ten(0) == 1;
    assert GroupsValue(v, 4) == GroupsValue(v, 3) + Chunk(v, 0) * Ten(0);
    assert GroupsValue(v, 3) == GroupsValue(v, 2) + Chunk(v, 1) * Ten(4);
    assert GroupsValue(v, 2) == GroupsValue(v, 1) + Chunk(v, 2) * Ten(8);
    assert GroupsValue(v, 1) == Chunk(v, 3) * Ten(12);
    Tens();
  }

  lemma TenFour(k: nat)
    ensures Ten(k + 4) == 1_0000 * Ten(k)
  {
    assert Ten(k + 4) == 10 * Ten(k + 3) && Ten(k + 3) == 10 * Ten(k + 2) && Ten(k + 2) == 10 * Ten(k + 1);
  }

  /** One group: an optional 零, its four digits, its group character. */
  lemma ReadOneGroup(a: Reading, zero: bool, chunk: nat, index: nat)
    requires a.section == a.num == 0 && 1 <= chunk < 1_0000 && index <= 3
    ensures var r := ReadFrom(a, GroupText(zero, chunk, index));
      if index > 0 then r == AddGroup(a, chunk, Ten(4 * index)) else Value(r) == a.total + chunk
  {
    Tens();
    var lead := if zero then "零" else "";
    ReadZero(a);
    ReadAppend(a, lead, UnderTenThousand(chunk));
    ReadUnder(chunk, 4, a.total);
    UnderValueIs(chunk);
    ReadAppend(a, lead + UnderTenThousand(chunk), CN_GROUPS[index]);
    if index > 0 { ReadGroup(ReadFrom(a, lead + UnderTenThousand(chunk)), index); }
  }

  lemma ReadGroupStep(p: Parts, chunk: nat, index: nat)
    requires chunk < 1_0000 && index <= 3
    requires ReadFrom(BLANK, p.text).section == ReadFrom(BLANK, p.text).num == 0
    ensures var (a, r) := (ReadFrom(BLANK, p.text), ReadFrom(BLANK, GroupStep(p, chunk, index).text));
      Value(r) == a.total + chunk * Ten(4 * index) && (index > 0 ==> r.section == r.num == 0)
  {
    if chunk > 0 {
      var a, text := ReadFrom(BLANK, p.text), GroupText(p.started && chunk < 1000, chunk, index);
      ReadOneGroup(a, p.started && chunk < 1000, chunk, index);
      ReadAppend(BLANK, p.text, text);
      OneWeight(chunk, index);
    }
  }

  lemma OneWeight(chunk: nat, index: nat)
    ensures index == 0 ==> chunk * Ten(4 * index) == chunk
  {
    assert Ten(0) == 1;
  }

  lemma GroupUnfold(v: nat, k: nat, p: Parts)
    requires 1 <= k <= 4 && p == GroupState(v, k - 1)
    ensures GroupState(v, k) == GroupStep(p, Chunk(v, 4 - k), 4 - k)
    ensures GroupsValue(v, k) == GroupsValue(v, k - 1) + Chunk(v, 4 - k) * Ten(4 * (4 - k))
  {
  }

  lemma {:induction false} ReadGroups(v: nat, k: nat)
    requires k <= 4
    ensures var r := ReadFrom(BLANK, GroupState(v, k).text);
      Value(r) == GroupsValue(v, k) && (k < 4 ==> r.section == r.num == 0)
  {
    if k > 0 {
      var p := GroupState(v, k - 1);
      ReadGroups(v, k - 1);
      GroupUnfold(v, k, p);
      ReadGroupStep(p, Chunk(v, 4 - k), 4 - k);
    }
  }

  lemma TeensText(value: nat)
    requires 10 <= value < 20
    ensures Positive(value) == "十" + if value == 10 then "" else [CN_DIGITS[value - 10]]
  {
    Tens();
    assert Chunk(value, 3) == Chunk(value, 2) == Chunk(value, 1) == 0 && Chunk(value, 0) == value;
    assert GroupState(value, 1) == Parts("", false);
    assert GroupState(value, 2) == Parts("", false);
    assert GroupState(value, 3) == Parts("", false);
    TeensUnder(value);
    var out := GroupState(value, 4).text;
    assert out == "" + GroupText(false, value, 0) == UnderTenThousand(value);
    assert out[1..] == "十" + if value == 10 then "" else [CN_DIGITS[value - 10]];
  }

  lemma TeensUnder(value: nat)
    requires 10 <= value < 20
    ensures UnderTenThousand(value) == "一十" + if value == 10 then "" else [CN_DIGITS[value - 10]]
  {
    Tens();
    assert DigitAt(value, 3) == 0 && DigitAt(value, 2) == 0 && DigitAt(value, 1) == 1 && DigitAt(value, 0) == value - 10;
    assert UnderState(value, 1) == Printed("", false);
    assert UnderState(value, 2) == Printed("", false);
    assert [CN_DIGITS[1]] + CN_UNITS[1] == "一十";
    assert UnderState(value, 3) == Printed("一十", false);
    if value > 10 { assert [CN_DIGITS[value - 10]] + CN_UNITS[0] == [CN_DIGITS[value - 10]]; }
  }

  lemma ReadTeens(d: nat, text: string)
    requires d <= 9 && text == "十" + if d == 0 then "" else [CN_DIGITS[d]]
    ensures Value(ReadFrom(BLANK, text)) == 10 + d
  {
    ReadOne(BLANK, '十');
    assert Ten(1) == 10;
    if d > 0 {
      ReadAppend(BLANK, "十", [CN_DIGITS[d]]);
      ReadDigit(Reading(0, 10, 0), d);
    } else {
      assert "十" + "" == "十";
    }
  }

  lemma SmallLow(value: nat)
    requires value < LIMIT
    ensures LowDigits(value) == value
  {
  }

  /** 一十八 becomes 十八, which reads the same. */
  lemma TeensReadTheSame(value: nat, text: string)
    requires 10 <= value < 20 && text == Positive(value)
    ensures Value(ReadFrom(BLANK, text)) == LowDigits(value)
  {
    TeensText(value);
    ReadTeens(value - 10, text);
    SmallLow(value);
  }

  lemma ReadOthers(value: nat, text: string)
    requires !(10 <= value < 20) && text == Positive(value)
    ensures Value(ReadFrom(BLANK, text)) == LowDigits(value)
  {
    assert text == GroupState(value, 4).text;
    ReadGroups(value, 4);
    GroupsValueIs(value);
  }

  lemma ReadPositive(value: nat, text: string)
    requires value > 0 && text == Positive(value)
    ensures Value(ReadFrom(BLANK, text)) == LowDigits(value)
  {
    if 10 <= value < 20 {
      TeensReadTheSame(value, text);
    } else {
      ReadOthers(value, text);
    }
  }

  function Abs(n: int): nat { if n < 0 then -n else n }

  lemma FirstIsNotMinus(value: nat)
    requires value > 0
    ensures Positive(value) == "" || Positive(value)[0] != NEGATIVE
  {
    if 10 <= value < 20 {
      TeensText(value);
    } else {
      NoMinusInGroups(value, 4);
    }
  }

  predicate NoMinus(s: string) { forall i :: 0 <= i < |s| ==> s[i] != NEGATIVE }

  lemma {:induction false} NoMinusUnder(v: nat, k: nat)
    requires k <= 4
    ensures NoMinus(UnderState(v, k).text)
  {
    if k > 0 { NoMinusUnder(v, k - 1); }
  }

  lemma {:induction false} NoMinusInGroups(v: nat, k: nat)
    requires k <= 4
    ensures NoMinus(GroupState(v, k).text)
  {
    if k > 0 {
      NoMinusInGroups(v, k - 1);
      NoMinusUnder(Chunk(v, 4 - k), 4);
      assert NoMinus(CN_GROUPS[4 - k]);
    }
  }

  lemma ReadIntPositive(n: nat)
    ensures Read(IntToChinese(n)) == LowDigits(n)
  {
    if n == 0 {
      ReadDigit(BLANK, 0);
    } else {
      ReadPositive(n, Positive(n));
      FirstIsNotMinus(n);
    }
  }

  lemma ReadMinus(s: string)
    ensures Read([NEGATIVE] + s) == 0 - Value(ReadFrom(BLANK, s)) as int
  {
    assert ([NEGATIVE] + s)[1..] == s;
  }

  lemma NegativeText(n: int, text: string)
    requires n < 0 && text == Positive(-n)
    ensures IntToChinese(n) == [NEGATIVE] + text
  {
    assert IntToChinese(-n) == text;
  }

  lemma ReadIntNegative(n: int, v: nat, text: string)
    requires n < 0 && v == -n && text == Positive(v)
    ensures Read(IntToChinese(n)) == 0 - LowDigits(v) as int
  {
    ReadPositive(v, text);
    NegativeText(n, text);
    ReadMinus(text);
  }

  /** Reading the sequencer's numeral gives the number modulo 10^16, with its sign. */
  lemma ReadIntToChinese(n: int, v: nat, read: int)
    requires v == Abs(n) && read == Read(IntToChinese(n))
    ensures read == if n < 0 then 0 - LowDigits(v) as int else LowDigits(v)
  {
    if n < 0 {
      ReadIntNegative(n, v, Positive(v));
    } else {
      ReadIntPositive(v);
    }
  }

  lemma ModSelf(v: nat, m: nat)
    requires m > 0
    ensures v % m == v <==> v < m
  {
  }

  /** The round trip holds exactly below 10^16 (the documentation promises it below 10^8). */
  lemma IntRoundTrip(n: int)
    ensures Read(IntToChinese(n)) == n <==> Abs(n) < LIMIT
  {
    ReadIntToChinese(n, Abs(n), Read(IntToChinese(n)));
    ModSelf(Abs(n), LIMIT);
  }

  lemma IntToChineseInjective(n: int, m: int)
    requires Abs(n) < LIMIT && Abs(m) < LIMIT && IntToChinese(n) == IntToChinese(m)
    ensures n == m
  {
    IntRoundTrip(n);
    IntRoundTrip(m);
  }

  // ------------------------------------------------------------------
  // The printer of zh_numbers
  // ------------------------------------------------------------------

  const BIG: seq<string> := ["", "万", "亿"]

  datatype Error = IndexError

  /** `str(n)`, as digits. */
  function Digits(n: nat): seq<nat> { if n < 10 then [n] else Digits(n / 10) + [n % 10] }

  predicate AreDigits(ds: seq<nat>) { forall i :: 0 <= i < |ds| ==> ds[i] <= 9 }

  function DigitsValue(ds: seq<nat>): nat {
    if ds == [] then 0 else DigitsValue(ds[..|ds| - 1]) * 10 + ds[|ds| - 1]
  }

  lemma {:induction false} DigitsRoundTrip(n: nat)
    ensures AreDigits(Digits(n)) && DigitsValue(Digits(n)) == n && |Digits(n)| >= 1 && (n > 0 ==> Digits(n)[0] > 0)
    decreases n
  {
    if n >= 10 {
      DigitsRoundTrip(n / 10);
      assert Digits(n)[..|Digits(n)| - 1] == Digits(n / 10);
    } else {
      assert Digits(n)[..0] == [];
    }
  }

  lemma {:induction false} DigitsLength(n: nat, k: nat)
    requires k >= 1
    ensures |Digits(n)| <= k <==> n < Ten(k)
    decreases k
  {
    if n >= 10 {
      if k == 1 {
        assert Ten(1) == 10;
      } else {
        DigitsLength(n / 10, k - 1);
      }
    } else {
      assert Ten(k) == 10 * Ten(k - 1);
    }
  }

  /** Some digit of the three before position i is not zero. */
  predicate GroupSpoken(ds: seq<nat>, i: nat)
    requires i <= |ds|
  {
    exists j :: Max(0, i - 3) <= j < i && ds[j] != 0
  }

  function ZeroText(p: Printed): string { if p.pendingZero then "零" else "" }

  function DigitText(d: nat, pos: nat, first: bool): string
    requires d <= 9
  {
    if d == 1 && pos % 4 == 1 && first then CN_UNITS[1] else [CN_DIGITS[d]] + CN_UNITS[pos % 4]
  }

  function BigText(pos: nat): string
    requires pos < 12
  {
    if pos % 4 == 0 then BIG[pos / 4] else ""
  }

  /** What one digit appends: a waiting 零 comes only before a digit that is not zero, and a
      zero at the end of a group still closes a group that has something to say. */
  function Piece(p: Printed, d: nat, pos: nat, first: bool, spoken: bool): string
    requires d <= 9 && pos < 12
  {
    if d != 0 then ZeroText(p) + DigitText(d, pos, first) + BigText(pos)
    else if spoken then BigText(pos)
    else ""
  }

  function CardinalStep(ds: seq<nat>, i: nat, p: Printed): Printed
    requires AreDigits(ds) && i < |ds| <= 12
  {
    var text := p.text + Piece(p, ds[i], |ds| - 1 - i, i == 0, GroupSpoken(ds, i));
    Printed(text, ds[i] == 0 && text != "")
  }

  function CardinalState(ds: seq<nat>, i: nat): Printed
    requires AreDigits(ds) && i <= |ds| <= 12
  {
    if i == 0 then Printed("", false) else CardinalStep(ds, i - 1, CardinalState(ds, i - 1))
  }

  function Cardinal(n: int): Result<string, Error> {
    DigitsRoundTrip(Abs(n));
    var ds := Digits(Abs(n));
    if n == 0 then Success([CN_DIGITS[0]])
    else if |ds| > 12 then Failure(IndexError)
    else Success((if n < 0 then [NEGATIVE] else "") + CardinalState(ds, |ds|).text)
  }

  lemma UnitIsTen(k: nat)
    requires k < 4
    ensures CN_UNITS[k] == "十" <==> k == 1
  {
  }

  /** What one digit other than zero appends. */
  method SpeakDigit(d: nat, pos: nat, first: bool, zeroPending: bool) returns (piece: string)
    requires 1 <= d <= 9 && pos < 12
    ensures piece == (if zeroPending then "零" else "") + DigitText(d, pos, first) + BigText(pos)
  {
    var big := BIG[pos / 4];
    var unit := CN_UNITS[pos % 4];
    UnitIsTen(pos % 4);
    piece := if zeroPending then "零" else "";
    if d == 1 && unit == "十" && first {
      piece := piece + unit;
    } else {
      piece := piece + ([CN_DIGITS[d]] + unit);
    }
    if pos % 4 == 0 {
      piece := piece + big;
    }
  }

  /** One round of the digit loop. */
  method PrintDigit(digits: seq<nat>, i: nat, out: string, zeroPending: bool) returns (out1: string, zeroPending1: bool)
    requires AreDigits(digits) && i < |digits| <= 12
    ensures Printed(out1, zeroPending1) == CardinalStep(digits, i, Printed(out, zeroPending))
  {
    var d := digits[i];
    var pos := |digits| - 1 - i;
    out1 := out;
    if d == 0 {
      if pos % 4 == 0 && GroupSpoken(digits, i) {
        out1 := out1 + BIG[pos / 4];
      }
      zeroPending1 := out1 != "";
      return;
    }
    var piece := SpeakDigit(d, pos, i == 0, zeroPending);
    zeroPending1 := false;
    out1 := out1 + piece;
  }

  method PrintCardinal(n: int) returns (r: Result<string, Error>)
    ensures r == Cardinal(n)
  {
    if n == 0 {
      return Success([CN_DIGITS[0]]);
    }
    var sign := if n < 0 then [NEGATIVE] else "";
    var digits := Digits(Abs(n));
    DigitsRoundTrip(Abs(n));
    var out := "";
    var zeroPending := false;
    for i := 0 to |digits|
      invariant i > 0 ==> |digits| <= 12
      invariant |digits| <= 12 ==> Printed(out, zeroPending) == CardinalState(digits, i)
    {
      if (|digits| - 1 - i) / 4 >= |BIG| {
        return Failure(IndexError);
      }
      out, zeroPending := PrintDigit(digits, i, out, zeroPending);
    }
    r := Success(sign + out);
  }

  // ------------------------------------------------------------------
  // It reads back
  // ------------------------------------------------------------------

  /** How many digits of the group being read are done before position i. */
  function InGroup(ds: seq<nat>, i: nat): nat
    requires i < |ds|
  {
    var r := |ds| - i;
    if r % 4 == 0 then 0 else Min(4 - r % 4, i)
  }

  /** What has been read after i digits: the finished groups, and the open one scaled to the
      place of its next digit. */
  ghost predicate ReadsPrefix(ds: seq<nat>, i: nat, a: Reading)
    requires i <= |ds|
  {
    if i == |ds| then Value(a) == DigitsValue(ds)
    else
      var r := |ds| - i;
      && a.num == 0
      && a.section == OpenValue(ds, i) * Ten(r % 4)
      && a.total == DoneValue(ds, i) * Ten((r + 3) / 4 * 4)
  }

  lemma DigitsValueStep(ds: seq<nat>, j: nat, i: nat)
    requires j <= i < |ds|
    ensures DigitsValue(ds[j..i + 1]) == DigitsValue(ds[j..i]) * 10 + ds[i]
  {
    assert ds[j..i + 1][..i - j] == ds[j..i];
  }

  lemma Horner(p: nat, t: nat, q: nat, d: nat)
    ensures (p * t + q) * 10 + d == p * (10 * t) + (q * 10 + d)
  {
  }

  lemma {:induction false} DigitsValueSplit(ds: seq<nat>, j: nat, i: nat)
    requires j <= i <= |ds|
    ensures DigitsValue(ds[..i]) == DigitsValue(ds[..j]) * Ten(i - j) + DigitsValue(ds[j..i])
    decreases i
  {
    if i > j {
      DigitsValueSplit(ds, j, i - 1);
      DigitsValueStep(ds, j, i - 1);
      DigitsValueStep(ds, 0, i - 1);
      assert ds[..i] == ds[0..i] && ds[..i - 1] == ds[0..i - 1];
      Horner(DigitsValue(ds[..j]), Ten(i - 1 - j), DigitsValue(ds[j..i - 1]), ds[i - 1]);
    } else {
      assert ds[j..i] == [];
    }
  }

  lemma {:induction false} ZeroValue(ds: seq<nat>)
    ensures DigitsValue(ds) == 0 <==> forall k :: 0 <= k < |ds| ==> ds[k] == 0
  {
    if ds != [] {
      ZeroValue(ds[..|ds| - 1]);
      assert forall k :: 0 <= k < |ds| - 1 ==> ds[..|ds| - 1][k] == ds[k];
    }
  }

  lemma Places(r: nat)
    requires r >= 1
    ensures (r - 1) % 4 != 0 ==> (r + 3) / 4 == (r + 2) / 4 && (if r % 4 == 0 then (r - 1) % 4 == 3 else r % 4 == (r - 1) % 4 + 1)
    ensures (r - 1) % 4 == 0 ==> r % 4 == 1 && (r + 3) / 4 * 4 == r + 3 && (r + 2) / 4 * 4 == r - 1
  {
  }

  lemma InGroupStep(ds: seq<nat>, i: nat)
    requires i + 1 < |ds|
    ensures var r := |ds| - i;
      InGroup(ds, i + 1) == if (r - 1) % 4 == 0 then 0 else InGroup(ds, i) + 1
    ensures InGroup(ds, i) <= 3 && ((|ds| - i) % 4 == 1 && InGroup(ds, i) < 3 ==> InGroup(ds, i) == i)
  {
    Places(|ds| - i);
  }

  lemma ScaledDigit(x: nat, d: nat, k: nat)
    ensures x * Ten(k + 1) + d * Ten(k) == (x * 10 + d) * Ten(k)
  {
    assert Ten(k + 1) == 10 * Ten(k);
    Distribute(x, d, Ten(k));
  }

  lemma Distribute(x: nat, d: nat, t: nat)
    ensures x * (10 * t) + d * t == (x * 10 + d) * t
  {
  }

  lemma SectionStep(section: nat, x: nat, d: nat, j: nat, k: nat)
    requires section == x * Ten(j) && (j == k + 1 || x == 0)
    ensures section + d * Ten(k) == (x * 10 + d) * Ten(k)
  {
    if j == k + 1 {
      ScaledDigit(x, d, k);
    } else {
      assert x * Ten(j) == 0;
      assert x * 10 + d == d;
    }
  }

  /** The value of the digits of the open group before position i. */
  function OpenValue(ds: seq<nat>, i: nat): nat
    requires i < |ds|
  {
    DigitsValue(ds[i - InGroup(ds, i)..i])
  }

  function DoneValue(ds: seq<nat>, i: nat): nat
    requires i < |ds|
  {
    DigitsValue(ds[..i - InGroup(ds, i)])
  }

  lemma OpenValueStep(ds: seq<nat>, i: nat, pos: nat)
    requires i + 1 < |ds| && pos == |ds| - 1 - i && pos % 4 != 0
    ensures OpenValue(ds, i + 1) == OpenValue(ds, i) * 10 + ds[i] && DoneValue(ds, i + 1) == DoneValue(ds, i)
    ensures (pos + 1) % 4 == 0 ==> OpenValue(ds, i) == 0
  {
    InGroupStep(ds, i);
    DigitsValueStep(ds, i - InGroup(ds, i), i);
    if (pos + 1) % 4 == 0 {
      assert |ds| - i == pos + 1;
      assert ds[i..i] == [];
    }
  }

  /** A digit inside a group (not its last place). */
  lemma InnerParts(ds: seq<nat>, i: nat, a: Reading, pos: nat)
    requires i < |ds| && ReadsPrefix(ds, i, a) && pos == |ds| - 1 - i
    ensures a.section == OpenValue(ds, i) * Ten((pos + 1) % 4) && a.total == DoneValue(ds, i) * Ten((pos + 4) / 4 * 4)
  {
  }

  lemma InnerJoin(ds: seq<nat>, i: nat, b: Reading, pos: nat)
    requires i + 1 < |ds| && pos == |ds| - 1 - i && b.num == 0
    requires b.section == OpenValue(ds, i + 1) * Ten(pos % 4) && b.total == DoneValue(ds, i + 1) * Ten((pos + 3) / 4 * 4)
    ensures ReadsPrefix(ds, i + 1, b)
  {
  }

  lemma InnerPlaces(pos: nat)
    requires pos % 4 != 0
    ensures (pos + 4) / 4 * 4 == (pos + 3) / 4 * 4
    ensures if (pos + 1) % 4 == 0 then pos % 4 == 3 else (pos + 1) % 4 == pos % 4 + 1
  {
  }

  lemma PrefixInsideGroup(ds: seq<nat>, i: nat, a: Reading, pos: nat, b: Reading)
    requires i < |ds| && ReadsPrefix(ds, i, a) && pos == |ds| - 1 - i && pos % 4 != 0
    requires b == AddUnit(a, ds[i], Ten(pos % 4))
    ensures ReadsPrefix(ds, i + 1, b)
  {
    var x, y, x1, y1 := OpenValue(ds, i), DoneValue(ds, i), OpenValue(ds, i + 1), DoneValue(ds, i + 1);
    OpenValueStep(ds, i, pos);
    InnerParts(ds, i, a, pos);
    InnerSums(a, ds[i], pos, x, y);
    InnerJoin(ds, i, b, pos);
  }

  lemma InnerSums(a: Reading, d: nat, pos: nat, x: nat, y: nat)
    requires pos % 4 != 0 && ((pos + 1) % 4 == 0 ==> x == 0)
    requires a.section == x * Ten((pos + 1) % 4) && a.total == y * Ten((pos + 4) / 4 * 4)
    ensures a.section + d * Ten(pos % 4) == (x * 10 + d) * Ten(pos % 4) && a.total == y * Ten((pos + 3) / 4 * 4)
  {
    InnerPlaces(pos);
    SectionStep(a.section, x, d, (pos + 1) % 4, pos % 4);
  }

  lemma GroupArithmetic(x: nat, y: nat, d: nat, t: nat)
    ensures x * (1_0000 * t) + (y * 10 + d) * t == (x * 1_0000 + y * 10 + d) * t
  {
  }

  lemma GroupFlush(total: nat, section: nat, x: nat, y: nat, d: nat, t: nat, t4: nat, ten: nat)
    requires total == x * t4 && t4 == 1_0000 * t && section == y * ten && ten == 10
    ensures total + (section + d) * t == (x * 1_0000 + y * 10 + d) * t
  {
    GroupArithmetic(x, y, d, t);
  }

  lemma GroupValue(ds: seq<nat>, i: nat, g: nat)
    requires g <= i < |ds| && g <= 3 && (g < 3 ==> i == g)
    ensures DigitsValue(ds[..i + 1]) == DigitsValue(ds[..i - g]) * 1_0000 + DigitsValue(ds[i - g..i]) * 10 + ds[i]
  {
    DigitsValueSplit(ds, i - g, i);
    DigitsValueStep(ds, 0, i);
    assert ds[0..i + 1] == ds[..i + 1] && ds[0..i] == ds[..i];
    if g == 3 {
      Tens();
    } else {
      assert ds[..i - g] == [];
    }
  }

  lemma EndsGroupValue(ds: seq<nat>, i: nat)
    requires i < |ds| && (|ds| - 1 - i) % 4 == 0
    ensures DigitsValue(ds[..i + 1]) == DoneValue(ds, i) * 1_0000 + OpenValue(ds, i) * 10 + ds[i]
  {
    Places(|ds| - i);
    GroupValue(ds, i, InGroup(ds, i));
  }

  lemma EndPlaces(r: nat)
    requires r >= 1 && (r - 1) % 4 == 0
    ensures r % 4 == 1 && (r + 3) / 4 * 4 == r - 1 + 4
  {
  }

  /** What is open and what is done when the last digit of a group comes. */
  lemma PrefixParts(ds: seq<nat>, i: nat, a: Reading, p: nat)
    requires i < |ds| && ReadsPrefix(ds, i, a) && p == |ds| - 1 - i && p % 4 == 0
    ensures a.total == DoneValue(ds, i) * Ten(p + 4) && a.section == OpenValue(ds, i) * Ten(1)
  {
    EndPlaces(|ds| - i);
    assert (|ds| - i) % 4 == 1 && ((|ds| - i) + 3) / 4 * 4 == p + 4;
  }

  /** The last digit of a group: the group is added at its weight. */
  lemma PrefixEndsGroup(ds: seq<nat>, i: nat, a: Reading, p: nat)
    requires i < |ds| && ReadsPrefix(ds, i, a) && p == |ds| - 1 - i && p % 4 == 0
    ensures a.total + (a.section + ds[i]) * Ten(p) == DigitsValue(ds[..i + 1]) * Ten(p)
  {
    var x, y, t, t4, ten := DoneValue(ds, i), OpenValue(ds, i), Ten(p), Ten(p + 4), Ten(1);
    PrefixParts(ds, i, a, p);
    EndsGroupValue(ds, i);
    TenFour(p);
    Tens();
    GroupFlush(a.total, a.section, x, y, ds[i], t, t4, ten);
  }

  lemma PrefixAtGroupEnd(ds: seq<nat>, i: nat, b: Reading, p: nat)
    requires i < |ds| && p == |ds| - 1 - i && p % 4 == 0
    requires Value(b) == DigitsValue(ds[..i + 1]) * Ten(p) && (p > 0 ==> b.section == b.num == 0)
    ensures ReadsPrefix(ds, i + 1, b)
  {
    Places(p + 1);
    if p > 0 {
      GroupStarts(ds, i + 1, p);
      assert (p + 3) / 4 * 4 == p;
      assert 0 * Ten(p % 4) == 0;
    } else {
      assert Ten(0) == 1 && ds[..i + 1] == ds;
    }
  }

  lemma GroupStarts(ds: seq<nat>, i: nat, p: nat)
    requires i < |ds| && p == |ds| - i && p % 4 == 0
    ensures OpenValue(ds, i) == 0 && DoneValue(ds, i) == DigitsValue(ds[..i])
  {
    assert InGroup(ds, i) == 0;
    assert ds[i..i] == [] && ds[..i - 0] == ds[..i];
  }

  /** A reader that has seen no more than zeros of a group has nothing open. */
  lemma SilentGroup(ds: seq<nat>, i: nat)
    requires i < |ds| && (|ds| - 1 - i) % 4 == 0 && !GroupSpoken(ds, i)
    ensures OpenValue(ds, i) == 0
  {
    EndPlaces(|ds| - i);
    var g := InGroup(ds, i);
    var open := ds[i - g..i];
    ZeroValue(open);
    assert forall k :: 0 <= k < g ==> open[k] == 0;
  }

  lemma ReadDigitText(a: Reading, d: nat, pos: nat, first: bool)
    requires 1 <= d <= 9 && a.num == 0
    ensures ReadFrom(a, DigitText(d, pos, first))
         == if pos % 4 == 0 then a.(num := d) else AddUnit(a, d, Ten(pos % 4))
  {
    if d == 1 && pos % 4 == 1 && first {
      ReadOne(a, '十');
      assert CN_UNITS[1] == ['十'];
    } else {
      ReadDigitUnit(a, d, pos % 4);
    }
  }

  lemma ReadBig(a: Reading, pos: nat)
    requires 0 < pos < 12 && pos % 4 == 0
    ensures ReadFrom(a, BIG[pos / 4]) == AddGroup(a, a.num, Ten(pos))
  {
    assert BIG[pos / 4] == CN_GROUPS[pos / 4] && 4 * (pos / 4) == pos;
    ReadGroup(a, pos / 4);
  }

  lemma ReadPiece(a: Reading, p: Printed, d: nat, pos: nat, first: bool)
    requires 1 <= d <= 9 && a.num == 0 && pos < 12
    ensures ReadFrom(a, ZeroText(p) + DigitText(d, pos, first) + BigText(pos))
         == ReadFrom(ReadFrom(a, DigitText(d, pos, first)), BigText(pos))
  {
    ReadAppend(a, ZeroText(p) + DigitText(d, pos, first), BigText(pos));
    ReadAppend(a, ZeroText(p), DigitText(d, pos, first));
    ReadZero(a);
  }

  /** What a reader makes of one digit at its place. */
  function AfterDigit(a: Reading, d: nat, pos: nat, silent: bool): Reading {
    if pos == 0 then a.(num := d)
    else if pos % 4 != 0 then AddUnit(a, d, Ten(pos % 4))
    else if silent then a
    else AddGroup(a, d, Ten(pos))
  }

  lemma ReadZeroStep(a: Reading, p: Printed, pos: nat, first: bool, spoken: bool)
    requires pos < 12 && a.num == 0
    ensures ReadFrom(a, Piece(p, 0, pos, first, spoken)) == AfterDigit(a, 0, pos, !spoken)
  {
    if pos > 0 && pos % 4 == 0 && spoken { ReadBig(a, pos); }
  }

  lemma ReadBigText(a: Reading, pos: nat)
    requires pos < 12
    ensures ReadFrom(a, BigText(pos))
         == if pos > 0 && pos % 4 == 0 then AddGroup(a, a.num, Ten(pos)) else a
  {
    if pos > 0 && pos % 4 == 0 {
      ReadBig(a, pos);
    } else {
      assert BigText(pos) == "";
    }
  }

  lemma AfterDigitIs(a: Reading, b: Reading, c: Reading, d: nat, pos: nat)
    requires 1 <= d <= 9
    requires b == if pos % 4 == 0 then a.(num := d) else AddUnit(a, d, Ten(pos % 4))
    requires c == if pos > 0 && pos % 4 == 0 then AddGroup(b, b.num, Ten(pos)) else b
    ensures c == AfterDigit(a, d, pos, false)
  {
  }

  lemma ReadDigitStep(a: Reading, p: Printed, d: nat, pos: nat, first: bool, spoken: bool)
    requires 1 <= d <= 9 && pos < 12 && a.num == 0
    ensures ReadFrom(a, Piece(p, d, pos, first, spoken)) == AfterDigit(a, d, pos, false)
  {
    var b := ReadFrom(a, DigitText(d, pos, first));
    var c := ReadFrom(b, BigText(pos));
    ReadDigitText(a, d, pos, first);
    ReadBigText(b, pos);
    AfterDigitIs(a, b, c, d, pos);
    PieceIs(p, d, pos, first, spoken);
    ReadPiece(a, p, d, pos, first);
  }

  lemma PieceIs(p: Printed, d: nat, pos: nat, first: bool, spoken: bool)
    requires 1 <= d <= 9 && pos < 12
    ensures Piece(p, d, pos, first, spoken) == ZeroText(p) + DigitText(d, pos, first) + BigText(pos)
  {
  }

  lemma ReadStep(a: Reading, p: Printed, d: nat, pos: nat, first: bool, spoken: bool)
    requires d <= 9 && pos < 12 && a.num == 0
    ensures ReadFrom(a, Piece(p, d, pos, first, spoken)) == AfterDigit(a, d, pos, d == 0 && !spoken)
  {
    if d == 0 {
      ReadZeroStep(a, p, pos, first, spoken);
    } else {
      ReadDigitStep(a, p, d, pos, first, spoken);
    }
  }

  /** What a reader has after i digits. */
  function ReadingAfter(ds: seq<nat>, i: nat): Reading
    requires i <= |ds|
  {
    if i == 0 then BLANK
    else AfterDigit(ReadingAfter(ds, i - 1), ds[i - 1], |ds| - i, ds[i - 1] == 0 && !GroupSpoken(ds, i - 1))
  }

  lemma {:induction false} NoDigitOpen(ds: seq<nat>, i: nat)
    requires i < |ds|
    ensures ReadingAfter(ds, i).num == 0
  {
    if i > 0 { NoDigitOpen(ds, i - 1); }
  }

  /** A zero that ends a group of zeros. */
  lemma PrefixSilent(ds: seq<nat>, i: nat, a: Reading, p: nat)
    requires i < |ds| && ReadsPrefix(ds, i, a) && p == |ds| - 1 - i && p % 4 == 0
    requires ds[i] == 0 && !GroupSpoken(ds, i)
    ensures a.section == a.num == 0 && Value(a) == DigitsValue(ds[..i + 1]) * Ten(p)
  {
    SilentGroup(ds, i);
    PrefixParts(ds, i, a, p);
    PrefixEndsGroup(ds, i, a, p);
    assert 0 * Ten(1) == 0 && 0 * Ten(p) == 0;
  }

  lemma LastDigit(ds: seq<nat>, i: nat, a: Reading, silent: bool)
    requires i + 1 == |ds| && ReadsPrefix(ds, i, a)
    ensures ReadsPrefix(ds, i + 1, AfterDigit(a, ds[i], 0, silent))
  {
    PrefixEndsGroup(ds, i, a, 0);
    assert Ten(0) == 1;
    PrefixAtGroupEnd(ds, i, a.(num := ds[i]), 0);
  }

  lemma InnerDigit(ds: seq<nat>, i: nat, a: Reading, pos: nat, silent: bool)
    requires i < |ds| && pos == |ds| - 1 - i && pos % 4 != 0 && ReadsPrefix(ds, i, a)
    ensures ReadsPrefix(ds, i + 1, AfterDigit(a, ds[i], pos, silent))
  {
    PrefixInsideGroup(ds, i, a, pos, AddUnit(a, ds[i], Ten(pos % 4)));
  }

  lemma SilentDigit(ds: seq<nat>, i: nat, a: Reading, pos: nat)
    requires i < |ds| && pos == |ds| - 1 - i && pos > 0 && pos % 4 == 0 && ReadsPrefix(ds, i, a)
    requires ds[i] == 0 && !GroupSpoken(ds, i)
    ensures ReadsPrefix(ds, i + 1, AfterDigit(a, ds[i], pos, true))
  {
    PrefixSilent(ds, i, a, pos);
    PrefixAtGroupEnd(ds, i, a, pos);
  }

  lemma FlushDigit(ds: seq<nat>, i: nat, a: Reading, pos: nat)
    requires i < |ds| && pos == |ds| - 1 - i && pos > 0 && pos % 4 == 0 && ReadsPrefix(ds, i, a)
    ensures ReadsPrefix(ds, i + 1, AfterDigit(a, ds[i], pos, false))
  {
    PrefixEndsGroup(ds, i, a, pos);
    PrefixAtGroupEnd(ds, i, AddGroup(a, ds[i], Ten(pos)), pos);
  }

  lemma PrefixStep(ds: seq<nat>, i: nat, a: Reading, pos: nat, silent: bool)
    requires i < |ds| && pos == |ds| - 1 - i && ReadsPrefix(ds, i, a) && silent == (ds[i] == 0 && !GroupSpoken(ds, i))
    ensures ReadsPrefix(ds, i + 1, AfterDigit(a, ds[i], pos, silent))
  {
    if pos == 0 {
      LastDigit(ds, i, a, silent);
    } else if pos % 4 != 0 {
      InnerDigit(ds, i, a, pos, silent);
    } else if silent {
      SilentDigit(ds, i, a, pos);
    } else {
      FlushDigit(ds, i, a, pos);
    }
  }

  lemma NothingRead(ds: seq<nat>)
    requires |ds| >= 1
    ensures ReadsPrefix(ds, 0, BLANK)
  {
    var r := |ds|;
    assert InGroup(ds, 0) == 0;
    assert ds[0..0] == [] && ds[..0] == [];
    assert OpenValue(ds, 0) == 0 && DoneValue(ds, 0) == 0;
    assert 0 * Ten(r % 4) == 0 && 0 * Ten((r + 3) / 4 * 4) == 0;
  }

  lemma {:induction false} ReadingIsValue(ds: seq<nat>, i: nat)
    requires 1 <= |ds| && i <= |ds|
    ensures ReadsPrefix(ds, i, ReadingAfter(ds, i))
  {
    if i == 0 {
      NothingRead(ds);
    } else {
      ReadingIsValue(ds, i - 1);
      PrefixStep(ds, i - 1, ReadingAfter(ds, i - 1), |ds| - i, ds[i - 1] == 0 && !GroupSpoken(ds, i - 1));
    }
  }

  lemma CardinalUnfold(ds: seq<nat>, i: nat, p: Printed, t: string)
    requires AreDigits(ds) && 1 <= i <= |ds| <= 12 && p == CardinalState(ds, i - 1)
    requires t == Piece(p, ds[i - 1], |ds| - i, i == 1, GroupSpoken(ds, i - 1))
    ensures CardinalState(ds, i) == Printed(p.text + t, ds[i - 1] == 0 && p.text + t != "")
  {
  }

  lemma {:induction false} ReadCardinalState(ds: seq<nat>, i: nat)
    requires AreDigits(ds) && i <= |ds| <= 12
    ensures ReadFrom(BLANK, CardinalState(ds, i).text) == ReadingAfter(ds, i)
  {
    if i > 0 {
      var p, spoken := CardinalState(ds, i - 1), GroupSpoken(ds, i - 1);
      var piece := Piece(p, ds[i - 1], |ds| - i, i == 1, spoken);
      CardinalUnfold(ds, i, p, piece);
      ReadCardinalState(ds, i - 1);
      ReadAppend(BLANK, p.text, piece);
      NoDigitOpen(ds, i - 1);
      ReadStep(ReadingAfter(ds, i - 1), p, ds[i - 1], |ds| - i, i == 1, spoken);
    }
  }

  lemma NoMinusInPiece(p: Printed, d: nat, pos: nat, first: bool, spoken: bool)
    requires d <= 9 && pos < 12
    ensures NoMinus(Piece(p, d, pos, first, spoken))
  {
    assert NoMinus(ZeroText(p)) && NoMinus(DigitText(d, pos, first)) && NoMinus(BigText(pos));
  }

  lemma {:induction false} NoMinusInCardinal(ds: seq<nat>, i: nat)
    requires AreDigits(ds) && i <= |ds| <= 12
    ensures NoMinus(CardinalState(ds, i).text)
  {
    if i > 0 {
      NoMinusInCardinal(ds, i - 1);
      NoMinusInPiece(CardinalState(ds, i - 1), ds[i - 1], |ds| - i, i == 1, GroupSpoken(ds, i - 1));
    }
  }

  /** `cardinal` prints exactly the numbers of at most twelve digits, and what it prints
      reads back. */
  lemma ReadCardinal(n: int)
    ensures Cardinal(n).Success? <==> Abs(n) < Ten(12)
    ensures Cardinal(n).Success? ==> Read(Cardinal(n).value) == n
  {
    var ds := Digits(Abs(n));
    DigitsRoundTrip(Abs(n));
    DigitsLength(Abs(n), 12);
    if n == 0 {
      ReadDigit(BLANK, 0);
    } else if |ds| <= 12 {
      ReadCardinalState(ds, |ds|);
      ReadingIsValue(ds, |ds|);
      NoMinusInCardinal(ds, |ds|);
      var s := CardinalState(ds, |ds|).text;
      assert "" + s == s && ([NEGATIVE] + s)[1..] == s;
    }
  }

  lemma CardinalInjective(n: int, m: int)
    requires Cardinal(n).Success? && Cardinal(n) == Cardinal(m)
    ensures n == m
  {
    ReadCardinal(n);
    ReadCardinal(m);
  }

  /** The two printers denote the same number wherever both print, ... */
  lemma PrintersAgree(n: int, m: int)
    requires Cardinal(n).Success? && Abs(m) < LIMIT
    ensures Read(Cardinal(n).value) == Read(IntToChinese(m)) <==> n == m
  {
    ReadCardinal(n);
    IntRoundTrip(m);
  }

  lemma HundredThousand()
    ensures Digits(100000) == [1, 0, 0, 0, 0, 0]
  {
    assert Digits(1) == [1] && Digits(10) == [1, 0] && Digits(100) == [1, 0, 0];
    assert Digits(1000) == [1, 0, 0, 0] && Digits(10000) == [1, 0, 0, 0, 0];
  }

  /** ... but they do not print it alike: 十万 against 一十万. */
  lemma PrintersDiffer()
    ensures Cardinal(100000) == Success("十万") && IntToChinese(100000) == "一十万"
  {
    TenThousands();
    HundredThousand();
    var ds := [1, 0, 0, 0, 0, 0];
    HeadOfIt(ds);
    SilentTail(ds, 2);
    assert "" + "十万" == "十万";
  }

  lemma HeadOfIt(ds: seq<nat>)
    requires ds == [1, 0, 0, 0, 0, 0]
    ensures CardinalState(ds, 2) == Printed("十万", true)
  {
    var blank, ten := Printed("", false), Printed("十", false);
    assert !GroupSpoken(ds, 0);
    assert Piece(blank, 1, 5, true, false) == "十";
    assert CardinalState(ds, 0) == blank;
    assert CardinalState(ds, 1) == ten;
    assert GroupSpoken(ds, 1) by { assert ds[0] != 0; }
    assert Piece(ten, 0, 4, false, true) == "万";
    assert "十" + "万" == "十万";
  }

  lemma SilentTail(ds: seq<nat>, i: nat)
    requires ds == [1, 0, 0, 0, 0, 0] && i == 2 && CardinalState(ds, i) == Printed("十万", true)
    ensures CardinalState(ds, 6) == Printed("十万", true)
  {
    assert CardinalState(ds, 3) == Printed("十万" + "", true);
    assert CardinalState(ds, 4) == Printed("十万" + "", true);
    assert CardinalState(ds, 5) == Printed("十万" + "", true);
    assert !GroupSpoken(ds, 5);
  }

  lemma TenThousands()
    ensures IntToChinese(100000) == "一十万"
  {
    Tens();
    TeensUnder(10);
    assert Chunk(100000, 3) == 0 && Chunk(100000, 2) == 0 && Chunk(100000, 1) == 10 && Chunk(100000, 0) == 0;
    assert GroupState(100000, 1) == Parts("", false);
    assert GroupState(100000, 2) == Parts("", false);
    assert GroupText(false, 10, 1) == "一十万";
    assert GroupState(100000, 3) == Parts("" + "一十万", true);
    assert GroupState(100000, 4).text == "一十万";
  }

  // ------------------------------------------------------------------
  // How many 零
  // ------------------------------------------------------------------

  function Zeros(s: string): nat {
    if s == "" then 0 else Zeros(s[..|s| - 1]) + if s[|s| - 1] == '零' then 1 else 0
  }

  lemma {:induction false} ZerosAppend(s: string, t: string)
    ensures Zeros(s + t) == Zeros(s) + Zeros(t)
    decreases |t|
  {
    if t == "" {
      assert s + t == s;
    } else {
      assert (s + t)[..|s + t| - 1] == s + t[..|t| - 1];
      ZerosAppend(s, t[..|t| - 1]);
    }
  }

  lemma {:induction false} ZeroFree(s: string)
    requires forall k :: 0 <= k < |s| ==> s[k] != '零'
    ensures Zeros(s) == 0
  {
    if s != "" { ZeroFree(s[..|s| - 1]); }
  }

  /** Among the first i digits: zero-digit runs that a digit other than zero follows. */
  function InnerZeroRuns(ds: seq<nat>, i: nat): nat
    requires i <= |ds|
  {
    if i <= 1 then 0 else InnerZeroRuns(ds, i - 1) + if ds[i - 1] != 0 && ds[i - 2] == 0 then 1 else 0
  }

  /** 零 neither begins nor ends it, and no two are adjacent. */
  predicate ZerosApart(s: string) {
    && s != "" && s[0] != '零' && s[|s| - 1] != '零'
    && forall k :: 0 <= k < |s| - 1 && s[k] == '零' ==> s[k + 1] != '零'
  }

  predicate NoZero(s: string) { forall k :: 0 <= k < |s| ==> s[k] != '零' }

  lemma NoZeroInNames(d: nat, pos: nat, first: bool)
    requires 1 <= d <= 9 && pos < 12
    ensures NoZero(BigText(pos)) && NoZero(DigitText(d, pos, first)) && DigitText(d, pos, first) != ""
  {
    assert NoZero([CN_DIGITS[d]]);
    assert NoZero(CN_UNITS[pos % 4]);
  }

  /** 零 only at the front, and never alone. */
  predicate ZeroLeads(t: string, leads: bool) {
    && (forall k :: 1 <= k < |t| ==> t[k] != '零')
    && (leads <==> t != "" && t[0] == '零')
    && (leads ==> |t| >= 2)
  }

  lemma PieceZeros(p: Printed, d: nat, pos: nat, first: bool, spoken: bool)
    requires d <= 9 && pos < 12
    ensures var (t, leads) := (Piece(p, d, pos, first, spoken), d != 0 && p.pendingZero);
      ZeroLeads(t, leads) && Zeros(t) == (if leads then 1 else 0) && (d != 0 ==> t != "")
  {
    NoZeroInNames(Max(1, d), pos, first);
    if d != 0 {
      var lead, rest := ZeroText(p), DigitText(d, pos, first) + BigText(pos);
      assert ZeroText(p) + DigitText(d, pos, first) + BigText(pos) == lead + rest;
      ZeroFree(rest);
      ZerosAppend(lead, rest);
      assert "零"[..0] == "";
    } else if spoken {
      ZeroFree(BigText(pos));
    }
  }

  lemma ApartAppend(s: string, t: string, leads: bool)
    requires ZerosApart(s) && ZeroLeads(t, leads)
    ensures ZerosApart(s + t)
  {
  }

  lemma ApartFirst(t: string)
    requires ZeroLeads(t, false) && t != ""
    ensures ZerosApart(t)
  {
  }

  lemma FirstPiece(d: nat, pos: nat, spoken: bool, t: string)
    requires 1 <= d <= 9 && pos < 12 && t == Piece(Printed("", false), d, pos, true, spoken)
    ensures ZerosApart(t) && Zeros(t) == 0
  {
    PieceZeros(Printed("", false), d, pos, true, spoken);
    ApartFirst(t);
  }

  lemma FirstDigit(ds: seq<nat>)
    requires AreDigits(ds) && 1 <= |ds| <= 12 && ds[0] != 0
    ensures var p := CardinalState(ds, 1); ZerosApart(p.text) && !p.pendingZero && Zeros(p.text) == 0
  {
    var blank, spoken := Printed("", false), GroupSpoken(ds, 0);
    var t := Piece(blank, ds[0], |ds| - 1, true, spoken);
    FirstPiece(ds[0], |ds| - 1, spoken, t);
    CardinalUnfold(ds, 1, blank, t);
    assert "" + t == t;
  }

  lemma ZerosStep(p: Printed, d: nat, pos: nat, spoken: bool, t: string)
    requires d <= 9 && pos < 12 && ZerosApart(p.text) && t == Piece(p, d, pos, false, spoken)
    ensures ZerosApart(p.text + t) && Zeros(p.text + t) == Zeros(p.text) + if d != 0 && p.pendingZero then 1 else 0
  {
    PieceZeros(p, d, pos, false, spoken);
    ZerosAppend(p.text, t);
    ApartAppend(p.text, t, d != 0 && p.pendingZero);
  }

  lemma {:induction false} ZerosInCardinal(ds: seq<nat>, i: nat)
    requires AreDigits(ds) && 1 <= i <= |ds| <= 12 && ds[0] != 0
    ensures var p := CardinalState(ds, i);
      ZerosApart(p.text) && (p.pendingZero <==> ds[i - 1] == 0) && Zeros(p.text) == InnerZeroRuns(ds, i)
  {
    if i == 1 {
      FirstDigit(ds);
    } else {
      var p, spoken := CardinalState(ds, i - 1), GroupSpoken(ds, i - 1);
      var t := Piece(p, ds[i - 1], |ds| - i, false, spoken);
      CardinalUnfold(ds, i, p, t);
      ZerosInCardinal(ds, i - 1);
      ZerosStep(p, ds[i - 1], |ds| - i, spoken, t);
    }
  }

  lemma SignedZeros(sign: string, s: string)
    requires (sign == "" || sign == [NEGATIVE]) && ZerosApart(s)
    ensures Zeros(sign + s) == Zeros(s) && ZerosApart(sign + s)
  {
    ZeroFree(sign);
    ZerosAppend(sign, s);
  }

  /** For a number other than zero, 零 stands once for every run of zero digits inside it, and
      never for one at its end. */
  lemma ZeroLaw(n: int)
    requires n != 0 && Cardinal(n).Success?
    ensures var (s, ds) := (Cardinal(n).value, Digits(Abs(n)));
      Zeros(s) == InnerZeroRuns(ds, |ds|) && ZerosApart(s)
  {
    var ds := Digits(Abs(n));
    DigitsRoundTrip(Abs(n));
    ZerosInCardinal(ds, |ds|);
    SignedZeros(if n < 0 then [NEGATIVE] else "", CardinalState(ds, |ds|).text);
  }

  // ------------------------------------------------------------------
  // How many 零 the sequencer prints
  // ------------------------------------------------------------------

  /** The four digits of a group. */
  function GroupDigits(v: nat): seq<nat> { [DigitAt(v, 3), DigitAt(v, 2), DigitAt(v, 1), DigitAt(v, 0)] }

  predicate Begun(ds: seq<nat>, i: nat)
    requires i <= |ds|
  {
    exists k :: 0 <= k < i && ds[k] != 0
  }

  /** Among the first i digits: runs of zeros that lie between two digits other than zero. */
  function ZerosBetween(ds: seq<nat>, i: nat): nat
    requires i <= |ds|
  {
    if i <= 1 then 0 else ZerosBetween(ds, i - 1) + if ds[i - 1] != 0 && ds[i - 2] == 0 && Begun(ds, i - 1) then 1 else 0
  }

  lemma UnderPieceZeros(p: Printed, d: nat, position: nat)
    requires 1 <= d <= 9 && position <= 3
    ensures var t := (if p.pendingZero then "零" else "") + ([CN_DIGITS[d]] + CN_UNITS[position]);
      UnderStep(p, d, position).text == p.text + t && ZeroLeads(t, p.pendingZero) && t != ""
      && Zeros(t) == if p.pendingZero then 1 else 0
  {
    var lead, rest := if p.pendingZero then "零" else "", [CN_DIGITS[d]] + CN_UNITS[position];
    assert NoZero([CN_DIGITS[d]]) && NoZero(CN_UNITS[position]);
    assert p.text + (lead + rest) == p.text + lead + rest && p.text + "" == p.text;
    ZeroFree(rest);
    ZerosAppend(lead, rest);
    assert "零"[..0] == "";
  }

  /** What is known of a group after its k highest digits. */
  ghost predicate UnderZerosOk(p: Printed, ds: seq<nat>, k: nat)
    requires k <= |ds|
  {
    && (p.text == "" <==> !Begun(ds, k))
    && (p.text != "" ==> ZerosApart(p.text))
    && (p.pendingZero <==> Begun(ds, k) && ds[k - 1] == 0)
    && Zeros(p.text) == ZerosBetween(ds, k)
  }

  lemma UnderZerosStep(p: Printed, ds: seq<nat>, k: nat, position: nat)
    requires 1 <= k <= |ds| && ds[k - 1] <= 9 && position <= 3 && UnderZerosOk(p, ds, k - 1)
    ensures UnderZerosOk(UnderStep(p, ds[k - 1], position), ds, k)
  {
    var d := ds[k - 1];
    assert Begun(ds, k) <==> Begun(ds, k - 1) || d != 0;
    if d != 0 {
      var t := (if p.pendingZero then "零" else "") + ([CN_DIGITS[d]] + CN_UNITS[position]);
      UnderPieceZeros(p, d, position);
      ZerosAppend(p.text, t);
      if p.text == "" {
        assert p.text + t == t;
        ApartFirst(t);
      } else {
        ApartAppend(p.text, t, p.pendingZero);
      }
    }
  }

  lemma {:induction false} UnderZeros(v: nat, k: nat)
    requires k <= 4
    ensures UnderZerosOk(UnderState(v, k), GroupDigits(v), k)
  {
    if k > 0 {
      UnderZeros(v, k - 1);
      assert GroupDigits(v)[k - 1] == DigitAt(v, 4 - k);
      UnderZerosStep(UnderState(v, k - 1), GroupDigits(v), k, 4 - k);
    }
  }

  lemma {:induction false} NoDigits(v: nat, k: nat)
    requires k <= 4 && !Begun(GroupDigits(v), k)
    ensures UnderValue(v, k) == 0
  {
    if k > 0 {
      assert GroupDigits(v)[k - 1] == DigitAt(v, 4 - k) == 0;
      NoDigits(v, k - 1);
    }
  }

  lemma GroupHasDigit(v: nat)
    requires 1 <= v < 1_0000
    ensures Begun(GroupDigits(v), 4)
  {
    UnderValueIs(v);
    if !Begun(GroupDigits(v), 4) { NoDigits(v, 4); }
  }

  /** In a group 零 stands once for each run of zero digits between two others. */
  lemma UnderZeroLaw(v: nat)
    requires 1 <= v < 1_0000
    ensures ZerosApart(UnderTenThousand(v)) && Zeros(UnderTenThousand(v)) == ZerosBetween(GroupDigits(v), 4)
  {
    UnderZeros(v, 4);
    GroupHasDigit(v);
  }

  lemma ApartTail(rest: string, index: nat)
    requires ZerosApart(rest) && index <= 3
    ensures ZerosApart(rest + CN_GROUPS[index]) && Zeros(rest + CN_GROUPS[index]) == Zeros(rest)
  {
    var group := CN_GROUPS[index];
    assert NoZero(group) && |group| <= 1;
    ZeroFree(group);
    ZerosAppend(rest, group);
  }

  lemma LeadZeros(s: string, zero: bool, tail: string, t: string)
    requires ZerosApart(s) && ZerosApart(tail) && t == (if zero then "零" else "") + tail
    ensures ZerosApart(s + t) && Zeros(s + t) == Zeros(s) + Zeros(tail) + if zero then 1 else 0
  {
    ZerosAppend(s, t);
    ZerosAppend(if zero then "零" else "", tail);
    assert "零"[..0] == "";
    LeadApart(s, zero, tail);
  }

  lemma LeadApart(s: string, zero: bool, tail: string)
    requires ZerosApart(s) && ZerosApart(tail)
    ensures ZerosApart(s + ((if zero then "零" else "") + tail))
  {
  }

  /** Some of the k highest groups is not zero. */
  predicate GroupsBegun(v: nat, k: nat)
    requires k <= 4
  {
    k > 0 && (GroupsBegun(v, k - 1) || Chunk(v, 4 - k) != 0)
  }

  /** The 零 of the k highest groups: those inside a group, and one before a later group that has
      fewer than four digits. */
  function GroupZeros(v: nat, k: nat): nat
    requires k <= 4
  {
    if k == 0 then 0
    else
      var chunk := Chunk(v, 4 - k);
      GroupZeros(v, k - 1)
      + (if chunk == 0 then 0 else ZerosBetween(GroupDigits(chunk), 4) + if GroupsBegun(v, k - 1) && chunk < 1000 then 1 else 0)
  }

  ghost predicate GroupZerosOk(p: Parts, v: nat, k: nat)
    requires k <= 4
  {
    && (p.started <==> GroupsBegun(v, k)) && (p.started <==> p.text != "")
    && (p.started ==> ZerosApart(p.text)) && Zeros(p.text) == GroupZeros(v, k)
  }

  lemma JoinGroup(text: string, zero: bool, rest: string, index: nat)
    requires ZerosApart(rest) && index <= 3 && if text == "" then !zero else ZerosApart(text)
    ensures var all := text + ((if zero then "零" else "") + rest + CN_GROUPS[index]);
      ZerosApart(all) && Zeros(all) == Zeros(text) + Zeros(rest) + if zero then 1 else 0
  {
    var tail, t := rest + CN_GROUPS[index], (if zero then "零" else "") + rest + CN_GROUPS[index];
    ApartTail(rest, index);
    assert t == (if zero then "零" else "") + tail;
    if text == "" {
      assert text + t == tail;
    } else {
      LeadZeros(text, zero, tail, t);
    }
  }

  lemma OneMoreGroup(p: Parts, chunk: nat, index: nat, rest: string)
    requires 1 <= chunk < 1_0000 && index <= 3 && (p.started <==> p.text != "") && (p.started ==> ZerosApart(p.text))
    requires rest == UnderTenThousand(chunk) && ZerosApart(rest)
    ensures var text := GroupStep(p, chunk, index).text;
      ZerosApart(text) && Zeros(text) == Zeros(p.text) + Zeros(rest) + if p.started && chunk < 1000 then 1 else 0
  {
    var zero := p.started && chunk < 1000;
    JoinGroup(p.text, zero, rest, index);
    assert GroupText(zero, chunk, index) == (if zero then "零" else "") + rest + CN_GROUPS[index];
  }

  lemma GroupZerosStep(p: Parts, v: nat, k: nat, chunk: nat)
    requires 1 <= k <= 4 && chunk == Chunk(v, 4 - k) < 1_0000 && GroupZerosOk(p, v, k - 1)
    ensures GroupZerosOk(GroupStep(p, chunk, 4 - k), v, k)
  {
    if chunk != 0 {
      UnderZeroLaw(chunk);
      OneMoreGroup(p, chunk, 4 - k, UnderTenThousand(chunk));
    }
  }

  lemma {:induction false} GroupsZeros(v: nat, k: nat)
    requires k <= 4
    ensures GroupZerosOk(GroupState(v, k), v, k)
  {
    if k > 0 {
      GroupsZeros(v, k - 1);
      GroupZerosStep(GroupState(v, k - 1), v, k, Chunk(v, 4 - k));
    }
  }

  lemma {:induction false} NoGroups(v: nat, k: nat)
    requires k <= 4 && !GroupsBegun(v, k)
    ensures GroupsValue(v, k) == 0 && GroupZeros(v, k) == 0
  {
    if k > 0 { NoGroups(v, k - 1); }
  }

  lemma SmallGroups(v: nat)
    requires v < 1_0000
    ensures Chunk(v, 3) == Chunk(v, 2) == Chunk(v, 1) == 0 && Chunk(v, 0) == v
    ensures !GroupsBegun(v, 3)
  {
    assert Chunk(v, 3) == Chunk(v, 2) == Chunk(v, 1) == 0;
    assert !GroupsBegun(v, 1);
    assert !GroupsBegun(v, 2);
  }

  lemma TeensApart(v: nat, text: string)
    requires 10 <= v < 20 && text == "十" + if v == 10 then "" else [CN_DIGITS[v - 10]]
    ensures ZerosApart(text) && Zeros(text) == 0
  {
    assert NoZero([CN_DIGITS[Max(1, v - 10)]]);
    assert NoZero(text);
    ZeroFree(text);
  }

  lemma TeensZeros(v: nat)
    requires 10 <= v < 20
    ensures GroupZeros(v, 4) == 0
  {
    SmallGroups(v);
    NoGroups(v, 3);
    UnderZeroLaw(v);
    TeensUnder(v);
    var text := UnderTenThousand(v);
    assert NoZero([CN_DIGITS[Max(1, v - 10)]]);
    assert NoZero(text);
    ZeroFree(text);
  }

  lemma GroupsBegunIs(v: nat)
    requires 0 < v < LIMIT
    ensures GroupsBegun(v, 4)
  {
    GroupsValueIs(v);
    SmallLow(v);
    if !GroupsBegun(v, 4) { NoGroups(v, 4); }
  }

  /** The sequencer's 零, for every number it can print: one for each run of zero digits between
      two others of a group, one before each later group that has fewer than four digits, and no
      more; none is first, last or beside another. */
  lemma SequencerZeroLaw(n: int)
    requires 0 < Abs(n) < LIMIT
    ensures Zeros(IntToChinese(n)) == GroupZeros(Abs(n), 4) && ZerosApart(IntToChinese(n))
  {
    var v := Abs(n);
    var text := Positive(v);
    if 10 <= v < 20 {
      TeensZeros(v);
      TeensText(v);
      TeensApart(v, text);
    } else {
      GroupsZeros(v, 4);
      GroupsBegunIs(v);
    }
    if n < 0 {
      NegativeText(n, text);
      SignedZeros([NEGATIVE], text);
    } else {
      SignedZeros("", text);
      assert "" + text == text;
    }
  }

  // ------------------------------------------------------------------
  // Where units stand
  // ------------------------------------------------------------------

  predicate IsUnit(c: char) { c == '十' || c == '百' || c == '千' }

  predicate IsDigitName(c: char) {
    c == '一' || c == '二' || c == '三' || c == '四' || c == '五' || c == '六' || c == '七' || c == '八' || c == '九'
  }

  predicate UnitAt(s: string, k: nat)
    requires k < |s|
  {
    IsUnit(s[k]) ==> k > 0 && IsDigitName(s[k - 1])
  }

  /** Every unit follows a digit. */
  predicate UnitsFollow(s: string) { forall k: nat :: k < |s| ==> UnitAt(s, k) }

  /** Every unit follows a digit, but for a 十 that begins the numeral. */
  predicate UnitsOk(s: string) { forall k: nat :: k < |s| ==> (k == 0 && s[k] == '十') || UnitAt(s, k) }

  lemma UnitsAppend(s: string, t: string)
    requires UnitsFollow(s) && UnitsFollow(t)
    ensures UnitsFollow(s + t)
  {
    forall k: nat | k < |s + t| ensures UnitAt(s + t, k) {
      if k >= |s| { assert UnitAt(t, k - |s|); } else { assert UnitAt(s, k); }
    }
  }

  lemma UnitsAppendOk(s: string, t: string)
    requires UnitsOk(s) && UnitsFollow(t)
    ensures UnitsOk(s + t)
  {
    var all := s + t;
    forall k: nat | k < |all| ensures (k == 0 && all[k] == '十') || UnitAt(all, k) {
      if k >= |s| { assert UnitAt(t, k - |s|); } else { assert (k == 0 && s[k] == '十') || UnitAt(s, k); }
    }
  }

  lemma DigitWithUnit(d: nat, k: nat)
    requires 1 <= d <= 9 && k < 4
    ensures UnitsFollow([CN_DIGITS[d]] + CN_UNITS[k])
  {
    assert IsDigitName(CN_DIGITS[d]) && !IsUnit(CN_DIGITS[d]) && |CN_UNITS[k]| <= 1;
  }

  lemma NoUnits(t: string)
    requires forall k :: 0 <= k < |t| ==> !IsUnit(t[k])
    ensures UnitsFollow(t)
  {
  }

  lemma NameUnits(d: nat, pos: nat, first: bool)
    requires 1 <= d <= 9
    ensures UnitsOk(DigitText(d, pos, first)) && (!first ==> UnitsFollow(DigitText(d, pos, first)))
  {
    DigitWithUnit(d, pos % 4);
  }

  lemma BigUnits(pos: nat)
    requires pos < 12
    ensures UnitsFollow(BigText(pos))
  {
    NoUnits(BigText(pos));
  }

  lemma JoinUnits(zero: string, name: string, big: string, first: bool)
    requires UnitsFollow(zero) && UnitsFollow(big) && UnitsOk(name) && if first then zero == "" else UnitsFollow(name)
    ensures UnitsOk(zero + name + big) && (!first ==> UnitsFollow(zero + name + big))
  {
    if first {
      assert zero + name == name;
      UnitsAppendOk(name, big);
    } else {
      UnitsAppend(zero, name);
      UnitsAppend(zero + name, big);
    }
  }

  lemma PieceUnits(p: Printed, d: nat, pos: nat, first: bool, spoken: bool)
    requires d <= 9 && pos < 12 && !(first && p.pendingZero)
    ensures UnitsOk(Piece(p, d, pos, first, spoken))
    ensures !first ==> UnitsFollow(Piece(p, d, pos, first, spoken))
  {
    BigUnits(pos);
    if d != 0 {
      NoUnits(ZeroText(p));
      NameUnits(d, pos, first);
      JoinUnits(ZeroText(p), DigitText(d, pos, first), BigText(pos), first);
    }
  }

  lemma UnitsStep(text: string, t: string, all: string)
    requires UnitsOk(text) && UnitsFollow(t) && all == text + t
    ensures UnitsOk(all) && text <= all
  {
    UnitsAppendOk(text, t);
  }

  lemma FirstUnits(ds: seq<nat>)
    requires AreDigits(ds) && 1 <= |ds| <= 12 && ds[0] != 0
    ensures UnitsOk(CardinalState(ds, 1).text)
  {
    var blank, spoken := Printed("", false), GroupSpoken(ds, 0);
    var t := Piece(blank, ds[0], |ds| - 1, true, spoken);
    PieceUnits(blank, ds[0], |ds| - 1, true, spoken);
    CardinalUnfold(ds, 1, blank, t);
    assert "" + t == t;
  }

  lemma {:induction false} UnitsInCardinal(ds: seq<nat>, i: nat)
    requires AreDigits(ds) && 1 <= i <= |ds| <= 12 && ds[0] != 0
    ensures UnitsOk(CardinalState(ds, i).text) && CardinalState(ds, 1).text <= CardinalState(ds, i).text
  {
    if i == 1 {
      FirstUnits(ds);
    } else {
      var p, spoken := CardinalState(ds, i - 1), GroupSpoken(ds, i - 1);
      var t := Piece(p, ds[i - 1], |ds| - i, false, spoken);
      CardinalUnfold(ds, i, p, t);
      PieceUnits(p, ds[i - 1], |ds| - i, false, spoken);
      UnitsInCardinal(ds, i - 1);
      UnitsStep(p.text, t, p.text + t);
    }
  }

  predicate BeginsWithOneTen(s: string) { |s| >= 2 && s[0] == '一' && s[1] == '十' }

  lemma NameBegins(d: nat, pos: nat, big: string)
    requires 1 <= d <= 9 && (pos % 4 != 0 ==> big == "") && (big == "" || !IsUnit(big[0]))
    ensures var t := DigitText(d, pos, true) + big;
      t != "" && !BeginsWithOneTen(t) && (|t| == 1 ==> (pos % 4 == 0 && big == "") || t[0] != '一')
  {
    UnitIsTen(pos % 4);
    assert CN_DIGITS[d] == '一' ==> d == 1;
  }

  lemma FirstBegins(ds: seq<nat>)
    requires AreDigits(ds) && 1 <= |ds| <= 12 && ds[0] != 0
    ensures var t := CardinalState(ds, 1).text; t != "" && !BeginsWithOneTen(t) && (|t| == 1 ==> |ds| == 1 || t[0] != '一')
  {
    var p, spoken, pos := Printed("", false), GroupSpoken(ds, 0), |ds| - 1;
    var t := Piece(p, ds[0], pos, true, spoken);
    CardinalUnfold(ds, 1, p, t);
    NameBegins(ds[0], pos, BigText(pos));
    assert t == "" + DigitText(ds[0], pos, true) + BigText(pos) && "" + t == t;
  }

  /** In the text of `cardinal` every unit follows a digit, except that a leading 一十 is 十. */
  lemma UnitLaw(n: nat)
    requires n != 0 && Cardinal(n).Success?
    ensures UnitsOk(Cardinal(n).value) && !BeginsWithOneTen(Cardinal(n).value)
  {
    var ds := Digits(n);
    DigitsRoundTrip(n);
    var text := CardinalState(ds, |ds|).text;
    UnitsInCardinal(ds, |ds|);
    FirstBegins(ds);
    assert "" + text == text;
  }

  lemma UnderUnitsStep(p: Printed, d: nat, position: nat)
    requires d <= 9 && position <= 3 && UnitsFollow(p.text)
    ensures UnitsFollow(UnderStep(p, d, position).text)
  {
    if d != 0 {
      NoUnits("零");
      UnitsAppend(p.text, "零");
      DigitWithUnit(d, position);
      UnitsAppend(if p.pendingZero then p.text + "零" else p.text, [CN_DIGITS[d]] + CN_UNITS[position]);
    }
  }

  lemma {:induction false} UnderUnits(v: nat, k: nat)
    requires k <= 4
    ensures UnitsFollow(UnderState(v, k).text)
  {
    if k > 0 {
      UnderUnits(v, k - 1);
      UnderUnitsStep(UnderState(v, k - 1), DigitAt(v, 4 - k), 4 - k);
    }
  }

  lemma GroupUnits(text: string, zero: bool, rest: string, index: nat)
    requires UnitsFollow(text) && UnitsFollow(rest) && index <= 3
    ensures UnitsFollow(text + ((if zero then "零" else "") + rest + CN_GROUPS[index]))
  {
    var lead := if zero then "零" else "";
    NoUnits(lead);
    NoUnits(CN_GROUPS[index]);
    UnitsAppend(lead, rest);
    UnitsAppend(lead + rest, CN_GROUPS[index]);
    UnitsAppend(text, lead + rest + CN_GROUPS[index]);
  }

  lemma {:induction false} GroupsUnits(v: nat, k: nat)
    requires k <= 4
    ensures UnitsFollow(GroupState(v, k).text)
  {
    if k > 0 {
      var p, chunk := GroupState(v, k - 1), Chunk(v, 4 - k);
      GroupsUnits(v, k - 1);
      UnderUnits(chunk, 4);
      GroupUnits(p.text, p.started && chunk < 1000, UnderTenThousand(chunk), 4 - k);
    }
  }

  /** In the sequencer's text every unit follows a digit, except that exactly the numbers from 10
      to 19 begin with 十. */
  lemma SequencerUnitLaw(n: nat)
    ensures if 10 <= n < 20 then IntToChinese(n) == "十" + (if n == 10 then "" else [CN_DIGITS[n - 10]])
            else UnitsFollow(IntToChinese(n))
  {
    if 10 <= n < 20 {
      TeensText(n);
    } else if n != 0 {
      GroupsUnits(n, 4);
    }
  }
}
