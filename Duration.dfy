/**
  * `extract_duration` in travel_planner/helpers.py: the first integer written before "day"
  * in the lower-cased message, found with `re.search(r'(\d+)\s*-?\s*day', ...)`.
  *
  * `ExtractDuration` is a left-to-right scan that settles each `\s*` and `\d+` greedily;
  * `RegexMatch` states what the regular expression matches, with every split point
  * existentially chosen, as a backtracking matcher may choose it. The lemmas below show the
  * scan returns the group of the leftmost regex match, and nothing when there is none.
  */
module Duration {
  import opened Text
  import opened Wrappers

  // ---------------------------------------------------------------- the scan

  /** End of the run of whitespace that starts at `i`. */
  function SpaceRunEnd(s: string, i: nat): (e: nat)
    requires i <= |s|
    ensures i <= e <= |s|
    ensures forall k :: i <= k < e ==> PyIsSpace(s[k])
    ensures e == |s| || !PyIsSpace(s[e])
    decreases |s| - i
  {
    if i < |s| && PyIsSpace(s[i]) then SpaceRunEnd(s, i + 1) else i
  }

  predicate DayAt(s: string, i: nat) {
    i + 3 <= |s| && s[i..i + 3] == "day"
  }

  /** `\s*-?\s*day` at `j`, each part taken greedily. */
  predicate SeparatorThenDay(s: string, j: nat)
    requires j <= |s|
  {
    var a := SpaceRunEnd(s, j);
    if a < |s| && s[a] == '-' then DayAt(s, SpaceRunEnd(s, a + 1)) else DayAt(s, a)
  }

  /** A match of the whole pattern can start at `i`, with the maximal digit run as group. */
  predicate MatchStartsAt(s: string, i: nat)
    requires i <= |s|
  {
    i < |s| && IsDigit(s[i]) && SeparatorThenDay(s, DigitRunEnd(s, i))
  }

  /** Python's `int(digits)` for a string of ASCII digits (leading zeros allowed). */
  function DigitsValue(d: string): nat
    requires forall k :: 0 <= k < |d| ==> IsDigit(d[k])
  {
    if d == [] then 0
    else
      assert IsDigit(d[|d| - 1]);
      DigitsValue(d[..|d| - 1]) * 10 + (d[|d| - 1] as int - '0' as int)
  }

  function ExtractFrom(s: string, i: nat): Option<nat>
    requires i <= |s|
    decreases |s| - i
  {
    if i == |s| then None
    else if MatchStartsAt(s, i) then Some(DigitsValue(s[i..DigitRunEnd(s, i)]))
    else ExtractFrom(s, i + 1)
  }

  /**
    * `extract_duration`: the group of the leftmost match of `(\d+)\s*-?\s*day` in the
    * lower-cased message, as an integer, and None exactly when the pattern does not match.
    */
  function ExtractDuration(message: string): (d: Option<nat>)
    ensures d == None <==> forall i, e :: !RegexMatch(Lower(message), i, e)
    ensures d.Some? ==> exists i, e ::
      LeftmostMatch(Lower(message), i, e) && d.value == DigitsValue(Lower(message)[i..e])
  {
    ScanFindsLeftmostMatch(Lower(message));
    ExtractFrom(Lower(message), 0)
  }

  // ---------------------------------------------------------------- what the pattern matches

  ghost predicate SpacesBetween(s: string, a: int, b: int) {
    0 <= a <= b <= |s| && forall k :: a <= k < b ==> PyIsSpace(s[k])
  }

  ghost predicate DigitsBetween(s: string, a: int, b: int) {
    0 <= a <= b <= |s| && forall k :: a <= k < b ==> IsDigit(s[k])
  }

  /** `\s*-?\s*day` matches from `j` with the split points a (after the first `\s*`),
    * b (after the optional `-`) and c (after the second `\s*`). */
  ghost predicate SeparatorSplit(s: string, j: int, a: int, b: int, c: int) {
    && SpacesBetween(s, j, a)
    && (b == a || (b == a + 1 && a < |s| && s[a] == '-'))
    && SpacesBetween(s, b, c)
    && DayAt(s, c)
  }

  /** `(\d+)\s*-?\s*day` matches at `i` with group 1 being `s[i..e]`. */
  ghost predicate RegexMatch(s: string, i: int, e: int) {
    && i < e
    && DigitsBetween(s, i, e)
    && exists a, b, c :: SeparatorSplit(s, e, a, b, c)
  }

  /** The match `re.search` reports: no match starts further left. */
  ghost predicate LeftmostMatch(s: string, i: int, e: int) {
    RegexMatch(s, i, e) && forall i', e' :: 0 <= i' < i ==> !RegexMatch(s, i', e')
  }

  // ---------------------------------------------------------------- the scan is the regex

  lemma SpaceRunEndLands(s: string, j: nat, t: nat)
    requires SpacesBetween(s, j, t) && t < |s| && !PyIsSpace(s[t])
    ensures SpaceRunEnd(s, j) == t
  {
  }

  /** What the greedy separator test accepts, the pattern can split. */
  lemma SeparatorThenDayGivesSplit(s: string, j: nat)
    requires j <= |s| && SeparatorThenDay(s, j)
    ensures exists a, b, c :: SeparatorSplit(s, j, a, b, c)
  {
    var a := SpaceRunEnd(s, j);
    if a < |s| && s[a] == '-' {
      var c := SpaceRunEnd(s, a + 1);
      assert SeparatorSplit(s, j, a, a + 1, c);
    } else {
      assert SeparatorSplit(s, j, a, a, a);
    }
  }

  /** Whatever split the pattern finds, the greedy separator test finds too. */
  lemma SplitGivesSeparatorThenDay(s: string, j: nat, a: int, b: int, c: int)
    requires j <= |s| && SeparatorSplit(s, j, a, b, c)
    ensures SeparatorThenDay(s, j)
  {
    assert s[c] == 'd' by { assert s[c..c + 3][0] == 'd'; }
    if b == a {
      assert SpacesBetween(s, j, c);
      SpaceRunEndLands(s, j, c);
    } else {
      SpaceRunEndLands(s, j, a);
      SpaceRunEndLands(s, a + 1, c);
    }
  }

  /** The greedy separator test accepts exactly the strings the pattern can split. */
  lemma SeparatorThenDayIsSplit(s: string, j: nat)
    requires j <= |s|
    ensures SeparatorThenDay(s, j) <==> exists a, b, c :: SeparatorSplit(s, j, a, b, c)
  {
    if SeparatorThenDay(s, j) {
      SeparatorThenDayGivesSplit(s, j);
    }
    if exists a, b, c :: SeparatorSplit(s, j, a, b, c) {
      var a, b, c :| SeparatorSplit(s, j, a, b, c);
      SplitGivesSeparatorThenDay(s, j, a, b, c);
    }
  }

  /** The digits of a match always end where the digit run ends: `\d+` cannot give back. */
  lemma RegexGroupIsDigitRun(s: string, i: nat, e: int)
    requires i <= |s| && RegexMatch(s, i, e)
    ensures e == DigitRunEnd(s, i)
  {
    var a, b, c :| SeparatorSplit(s, e, a, b, c);
    assert s[c] == 'd' by { assert s[c..c + 3][0] == 'd'; }
    assert e < |s| && !IsDigit(s[e]);
  }

  lemma MatchStartsAtIsRegexMatch(s: string, i: nat)
    requires i <= |s|
    ensures MatchStartsAt(s, i) <==> exists e :: RegexMatch(s, i, e)
    ensures MatchStartsAt(s, i) ==> RegexMatch(s, i, DigitRunEnd(s, i))
  {
    if MatchStartsAt(s, i) {
      SeparatorThenDayIsSplit(s, DigitRunEnd(s, i));
      assert RegexMatch(s, i, DigitRunEnd(s, i));
    }
    if exists e :: RegexMatch(s, i, e) {
      var e :| RegexMatch(s, i, e);
      RegexGroupIsDigitRun(s, i, e);
      SeparatorThenDayIsSplit(s, e);
    }
  }

  /** `k` is the first position at or after `i` where a match starts. */
  predicate FirstMatchFrom(s: string, i: nat, k: nat) {
    && i <= k < |s| && MatchStartsAt(s, k)
    && forall k' :: i <= k' < k ==> !MatchStartsAt(s, k')
  }

  lemma {:induction false} NoneMeansNoMatch(s: string, i: nat)
    requires i <= |s| && ExtractFrom(s, i) == None
    ensures forall k :: i <= k < |s| ==> !MatchStartsAt(s, k)
    decreases |s| - i
  {
    if i < |s| {
      NoneMeansNoMatch(s, i + 1);
    }
  }

  /** Where the scan from `i` stops when it finds a match. */
  ghost function FirstMatchPosition(s: string, i: nat): (k: nat)
    requires i <= |s| && ExtractFrom(s, i).Some?
    ensures FirstMatchFrom(s, i, k)
    ensures ExtractFrom(s, i) == Some(DigitsValue(s[k..DigitRunEnd(s, k)]))
    decreases |s| - i
  {
    if MatchStartsAt(s, i) then i else FirstMatchPosition(s, i + 1)
  }

  lemma ExtractFromSome(s: string, i: nat)
    requires i <= |s| && ExtractFrom(s, i).Some?
    ensures exists k: nat ::
      && FirstMatchFrom(s, i, k)
      && ExtractFrom(s, i).value == DigitsValue(s[k..DigitRunEnd(s, k)])
  {
    var k := FirstMatchPosition(s, i);
    assert FirstMatchFrom(s, i, k);
  }

  /** The scan from `i` reports the first position at or after `i` where a match starts. */
  lemma ExtractFromIsFirstMatch(s: string, i: nat)
    requires i <= |s|
    ensures ExtractFrom(s, i) == None <==> forall k :: i <= k < |s| ==> !MatchStartsAt(s, k)
    ensures ExtractFrom(s, i).Some? ==> exists k: nat ::
      && FirstMatchFrom(s, i, k)
      && ExtractFrom(s, i).value == DigitsValue(s[k..DigitRunEnd(s, k)])
  {
    if ExtractFrom(s, i) == None {
      NoneMeansNoMatch(s, i);
    } else {
      var k := FirstMatchPosition(s, i);
      assert FirstMatchFrom(s, i, k);
    }
  }

  lemma RegexMatchStarts(s: string, i: int, e: int)
    requires RegexMatch(s, i, e)
    ensures 0 <= i < |s| && MatchStartsAt(s, i)
  {
    MatchStartsAtIsRegexMatch(s, i);
  }

  lemma ScanNone(s: string)
    requires ExtractFrom(s, 0) == None
    ensures forall i, e :: !RegexMatch(s, i, e)
  {
    NoneMeansNoMatch(s, 0);
    forall i, e | RegexMatch(s, i, e) ensures 0 <= i < |s| && MatchStartsAt(s, i) {
      RegexMatchStarts(s, i, e);
    }
  }

  lemma ScanSome(s: string)
    requires ExtractFrom(s, 0).Some?
    ensures exists i, e :: LeftmostMatch(s, i, e) && ExtractFrom(s, 0).value == DigitsValue(s[i..e])
  {
    var k := FirstMatchPosition(s, 0);
    MatchStartsAtIsRegexMatch(s, k);
    var e := DigitRunEnd(s, k);
    forall i', e' | 0 <= i' < k && RegexMatch(s, i', e') ensures MatchStartsAt(s, i') {
      RegexMatchStarts(s, i', e');
    }
    assert LeftmostMatch(s, k, e);
  }

  lemma ScanFindsLeftmostMatch(s: string)
    ensures ExtractFrom(s, 0) == None <==> forall i, e :: !RegexMatch(s, i, e)
    ensures ExtractFrom(s, 0).Some? ==> exists i, e ::
      LeftmostMatch(s, i, e) && ExtractFrom(s, 0).value == DigitsValue(s[i..e])
  {
    if ExtractFrom(s, 0) == None {
      ScanNone(s);
    } else {
      ScanSome(s);
    }
  }

  // ---------------------------------------------------------------- examples

  /** Text without a digit never yields a duration. */
  lemma {:induction false} NoDigitsNoMatch(s: string, i: nat)
    requires i <= |s|
    requires forall k :: 0 <= k < |s| ==> !IsDigit(s[k])
    ensures ExtractFrom(s, i) == None
    decreases |s| - i
  {
    if i < |s| { NoDigitsNoMatch(s, i + 1); }
  }

  /** Positions without a digit are skipped: no match can start there. */
  lemma {:induction false} SkipNonDigits(s: string, i: nat, j: nat)
    requires i <= j <= |s|
    requires forall k :: i <= k < j ==> !IsDigit(s[k])
    ensures ExtractFrom(s, i) == ExtractFrom(s, j)
    decreases j - i
  {
    if i < j { SkipNonDigits(s, i + 1, j); }
  }

  lemma HyphenLowered()
    ensures Lower("Plan a 5-day trip") == "plan a 5-day trip"
  {
  }

  lemma HyphenScan()
    ensures ExtractFrom("plan a 5-day trip", 0) == Some(5)
  {
    var s := "plan a 5-day trip";
    assert DigitRunEnd(s, 7) == 8;
    assert SpaceRunEnd(s, 8) == 8;
    assert SpaceRunEnd(s, 9) == 9;
    assert DayAt(s, 9);
    assert MatchStartsAt(s, 7);
    assert s[7..8] == "5";
    SkipNonDigits(s, 0, 7);
  }

  lemma ExampleHyphen()
    ensures ExtractDuration("Plan a 5-day trip") == Some(5)
  {
    HyphenLowered();
    HyphenScan();
  }

  lemma ExampleGlued()
    ensures ExtractDuration("3day tour") == Some(3)
  {
    var s := Lower("3day tour");
    assert s == "3day tour";
    assert DigitRunEnd(s, 0) == 1;
    assert SpaceRunEnd(s, 1) == 1;
    assert DayAt(s, 1);
    assert s[0..1] == "3";
  }

  lemma ExampleUpperCase()
    ensures ExtractDuration("3 DAYS") == Some(3)
  {
    var s := Lower("3 DAYS");
    assert s == "3 days";
    assert DigitRunEnd(s, 0) == 1;
    assert SpaceRunEnd(s, 1) == 2;
    assert DayAt(s, 2);
    assert s[0..1] == "3";
  }

  lemma ExampleNone()
    ensures ExtractDuration("Plan a trip") == None
  {
    var s := Lower("Plan a trip");
    assert s == "plan a trip";
    NoDigitsNoMatch(s, 0);
  }
}
