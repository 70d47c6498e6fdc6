/**
 * The two regular-expression scanners of the entity resolver:
 * `extract_year` (`\b(20[0-2][0-9])\b` on the original text, then the
 * "last year" / "this year" / "current" phrases) and `extract_round`
 * (`(?:round|race)\s*(\d+)` on the lower-cased text). Both follow
 * `re.search`: the match that starts leftmost wins.
 */
module Patterns {
  import opened Wrappers
  import opened Python

  // ---- extract_year ------------------------------------------------------

  /** `\b(20[0-2][0-9])\b` matches `t` at offset `i`. */
  predicate YearAt(t: string, i: int) {
    0 <= i && i + 4 <= |t|
    && t[i] == '2' && t[i + 1] == '0' && '0' <= t[i + 2] <= '2' && IsDigit(t[i + 3])
    && (i == 0 || !IsWordChar(t[i - 1]))
    && (i + 4 == |t| || !IsWordChar(t[i + 4]))
  }

  /** The leftmost offset at or after `from` where the year pattern matches. */
  function FindYear(t: string, from: nat): (r: Option<nat>)
    ensures r.Some? ==> from <= r.value && YearAt(t, r.value)
    ensures r.Some? ==> forall j :: from <= j < r.value ==> !YearAt(t, j)
    ensures r.None? ==> forall j :: from <= j ==> !YearAt(t, j)
    decreases |t| - from
  {
    if from + 4 > |t| then None
    else if YearAt(t, from) then Some(from)
    else FindYear(t, from + 1)
  }

  /** The numeric value of a four-character digit string. */
  function YearValue(y: string): int
    requires |y| == 4
  {
    1000 * (y[0] as int - '0' as int) + 100 * (y[1] as int - '0' as int)
    + 10 * (y[2] as int - '0' as int) + (y[3] as int - '0' as int)
  }

  /** The reference year the source hard-codes for "last year". */
  const LastYear := "2024"
  /** The reference year the source hard-codes for "this year" and "current". */
  const ThisYear := "2025"

  function ExtractYear(text: string): Option<string> {
    match FindYear(text, 0)
    case Some(i) => Some(text[i..i + 4])
    case None => PhraseYear(Lower(text))
  }

  /** The phrase fallbacks of `extract_year`, on the lower-cased text. */
  function PhraseYear(low: string): Option<string> {
    if Contains(low, "last year") then Some(LastYear)
    else if Contains(low, "this year") || Contains(low, "current") then Some(ThisYear)
    else None
  }

  /** What `extract_year` returns: the leftmost word-bounded year of
      2000-2029 in the original text; failing that, the phrase years, with
      "last year" ahead of "this year"/"current"; failing that, nothing. */
  lemma ExtractYearSpec(text: string)
    ensures var r := ExtractYear(text);
      && (r.Some? ==> |r.value| == 4 && 2000 <= YearValue(r.value) <= 2029)
      && ((exists i :: YearAt(text, i)) ==>
            exists i :: YearAt(text, i) && (forall j :: 0 <= j < i ==> !YearAt(text, j))
                        && r == Some(text[i..i + 4]))
      && ((forall i :: !YearAt(text, i)) ==>
            r == (if Contains(Lower(text), "last year") then Some("2024")
                  else if Contains(Lower(text), "this year") || Contains(Lower(text), "current")
                  then Some("2025")
                  else None))
  {
    var r := ExtractYear(text);
    match FindYear(text, 0)
    case Some(i) =>
      var y := text[i..i + 4];
      assert y[0] == '2' && y[1] == '0' && '0' <= y[2] <= '2' && IsDigit(y[3]);
    case None =>
  }

  // ---- extract_round -----------------------------------------------------

  /** Where `(?:round|race)` ends when it matches at offset `i`. */
  function KeywordEnd(t: string, i: nat): (r: Option<nat>)
    requires i <= |t|
    ensures r.Some? ==> r.value <= |t|
  {
    if StartsWith(t[i..], "round") then Some(i + 5)
    else if StartsWith(t[i..], "race") then Some(i + 4)
    else None
  }

  /** The end of the longest run of whitespace (`\s*`) from `i` on. */
  function SpaceEnd(t: string, i: nat): (e: nat)
    requires i <= |t|
    ensures i <= e <= |t|
    ensures forall k :: i <= k < e ==> IsSpace(t[k])
    ensures e == |t| || !IsSpace(t[e])
    decreases |t| - i
  {
    if i < |t| && IsSpace(t[i]) then SpaceEnd(t, i + 1) else i
  }

  /** The end of the longest run of digits (`\d+`, greedy) from `i` on. */
  function DigitEnd(t: string, i: nat): (e: nat)
    requires i <= |t|
    ensures i <= e <= |t|
    ensures forall k :: i <= k < e ==> IsDigit(t[k])
    ensures e == |t| || !IsDigit(t[e])
    decreases |t| - i
  {
    if i < |t| && IsDigit(t[i]) then DigitEnd(t, i + 1) else i
  }

  /** The digits `(?:round|race)\s*(\d+)` captures when it matches at `i`. */
  function RoundAt(t: string, i: nat): Option<string>
    requires i <= |t|
  {
    match KeywordEnd(t, i)
    case None => None
    case Some(k) =>
      var s := SpaceEnd(t, k);
      var e := DigitEnd(t, s);
      if s < e then Some(t[s..e]) else None
  }

  /** The leftmost match of the round pattern at or after `from`. */
  function FindRound(t: string, from: nat): (r: Option<string>)
    requires from <= |t|
    ensures r.Some? ==> exists i :: from <= i <= |t| && RoundAt(t, i) == r
                                   && forall j :: from <= j < i ==> RoundAt(t, j).None?
    ensures r.None? ==> forall j :: from <= j <= |t| ==> RoundAt(t, j).None?
    decreases |t| - from
  {
    if RoundAt(t, from).Some? then RoundAt(t, from)
    else if from == |t| then None
    else FindRound(t, from + 1)
  }

  function ExtractRound(text: string): Option<string> {
    FindRound(Lower(text), 0)
  }

  /** `d` is what the round pattern captures when it matches at `i`: the
      keyword ends at `k`, whitespace runs from `k` to `s`, and `d` is the
      whole (non-empty) digit run that starts at `s`. */
  predicate Captures(t: string, i: int, s: int, d: string) {
    0 <= i <= |t|
    && KeywordEnd(t, i).Some? && KeywordEnd(t, i).value <= s && s + |d| <= |t|
    && (forall m :: KeywordEnd(t, i).value <= m < s ==> IsSpace(t[m]))
    && d == t[s..s + |d|]
    && |d| > 0 && (forall m :: 0 <= m < |d| ==> IsDigit(d[m]))
    && (s + |d| == |t| || !IsDigit(t[s + |d|]))
  }

  lemma {:induction false} RoundAtCaptures(t: string, i: nat)
    requires i <= |t|
    ensures RoundAt(t, i).Some? ==> exists s :: Captures(t, i, s, RoundAt(t, i).value)
  {
    if RoundAt(t, i).Some? {
      var k := KeywordEnd(t, i).value;
      var s := SpaceEnd(t, k);
      var e := DigitEnd(t, s);
      var d := t[s..e];
      assert forall m :: 0 <= m < |d| ==> d[m] == t[s + m];
      assert Captures(t, i, s, d);
    }
  }

  /** What `extract_round` returns: the whole digit run that follows the
      leftmost "round" or "race" (with optional whitespace between) that is
      followed by a digit in the lower-cased text, and nothing when there is
      no such keyword. */
  lemma ExtractRoundSpec(text: string)
    ensures var t, r := Lower(text), ExtractRound(text);
      && (r.None? <==> forall i :: 0 <= i <= |t| ==> RoundAt(t, i).None?)
      && (r.Some? ==>
            exists i, s :: Captures(t, i, s, r.value)
              && forall j :: 0 <= j < i ==> RoundAt(t, j).None?)
  {
    var t := Lower(text);
    var r := FindRound(t, 0);
    assert r == ExtractRound(text);
    if r.Some? {
      var i :| 0 <= i <= |t| && RoundAt(t, i) == r && forall j :: 0 <= j < i ==> RoundAt(t, j).None?;
      RoundAtCaptures(t, i);
      var s :| Captures(t, i, s, r.value);
      assert !(forall j :: 0 <= j <= |t| ==> RoundAt(t, j).None?) by {
        assert RoundAt(t, i).Some?;
      }
    } else {
      assert FindRound(t, 0).None?;
    }
  }

  lemma RoundFiveExample()
    ensures ExtractRound("round 5") == Some("5")
  {
    var t := "round 5";
    assert Lower(t) == t by { LowerOfLowerCase(t); }
    assert RoundAt(t, 0) == Some("5") by {
      assert StartsWith(t[0..], "round");
      assert KeywordEnd(t, 0) == Some(5);
      assert SpaceEnd(t, 5) == 6;
      assert DigitEnd(t, 6) == 7;
      assert t[6..7] == "5";
    }
  }

  lemma RaceTwelveExample()
    ensures ExtractRound("race 12") == Some("12")
  {
    var t := "race 12";
    assert Lower(t) == t by { LowerOfLowerCase(t); }
    assert RoundAt(t, 0) == Some("12") by {
      assert t[0..][..5][1] == 'a';
      assert !StartsWith(t[0..], "round");
      assert StartsWith(t[0..], "race");
      assert KeywordEnd(t, 0) == Some(4);
      assert SpaceEnd(t, 4) == 5;
      assert DigitEnd(t, 5) == 7;
      assert t[5..7] == "12";
    }
  }

  lemma RaceAloneExample()
    ensures ExtractRound("race") == None
  {
    var t := "race";
    assert Lower(t) == t by { LowerOfLowerCase(t); }
    assert RoundAt(t, 0) == None by {
      assert KeywordEnd(t, 0) == Some(4);
      assert SpaceEnd(t, 4) == 4;
      assert DigitEnd(t, 4) == 4;
    }
    forall j | 1 <= j <= 4 ensures RoundAt(t, j).None? {
      assert !StartsWith(t[j..], "round") && !StartsWith(t[j..], "race");
    }
  }

  lemma NumericYearExample()
    ensures ExtractYear("2021 results?") == Some("2021")
  {
    var t := "2021 results?";
    assert YearAt(t, 0);
    assert t[0..4] == "2021";
  }

  lemma LastYearExample()
    ensures ExtractYear("last year") == Some("2024")
  {
    var t := "last year";
    forall j | 0 <= j ensures !YearAt(t, j) {
      if j + 4 <= |t| {
        assert t[j] != '2';
      }
    }
    assert Lower(t) == t by { LowerOfLowerCase(t); }
    assert Contains(t, "last year") by { assert OccursAt(t, "last year", 0); }
  }

  lemma NoPhraseExample()
    ensures PhraseYear("no year here") == None
  {
    var t := "no year here";
    NotContainedByFirstChar(t, "last year");
    NotContainedByFirstChar(t, "this year");
    NotContainedByFirstChar(t, "current");
  }

  lemma NoYearExample()
    ensures ExtractYear("no year here") == None
  {
    var t := "no year here";
    assert FindYear(t, 0) == None by {
      forall j | 0 <= j ensures !YearAt(t, j) {
        if j + 4 <= |t| {
          assert t[j] != '2';
        }
      }
    }
    assert Lower(t) == t by { LowerOfLowerCase(t); }
    NoPhraseExample();
  }
}
