/**
  * String primitives shared by the Python server code and the JavaScript client:
  * case mapping, whitespace trimming, substring tests and line splitting/joining.
  *
  * Case mapping is ASCII-only (`str.lower`, `str.upper` on letters outside A-Z are not
  * modelled). The two whitespace sets are exact: Python's `str.isspace` (which is also what
  * `\s` matches in a Python `re` pattern over `str`) and the set `String.prototype.trim`
  * removes in JavaScript. They differ: Python also strips U+001C..U+001F and U+0085, while
  * JavaScript also strips U+FEFF.
  */
module Text {

  // ---------------------------------------------------------------- case mapping

  predicate IsUpperAscii(c: char) { 'A' <= c <= 'Z' }

  predicate IsLowerAscii(c: char) { 'a' <= c <= 'z' }

  function LowerChar(c: char): (d: char)
    ensures !IsUpperAscii(d)
    ensures IsUpperAscii(c) ==> d as int == c as int + 32
    ensures !IsUpperAscii(c) ==> d == c
  {
    if IsUpperAscii(c) then (c as int + 32) as char else c
  }

  function UpperChar(c: char): (d: char)
    ensures !IsLowerAscii(d)
    ensures IsLowerAscii(c) ==> d as int == c as int - 32
    ensures !IsLowerAscii(c) ==> d == c
  {
    if IsLowerAscii(c) then (c as int - 32) as char else c
  }

  /** Python's `s.lower()` restricted to ASCII letters. */
  function Lower(s: string): (r: string)
    ensures |r| == |s|
    ensures forall i :: 0 <= i < |s| ==> r[i] == LowerChar(s[i])
  {
    seq(|s|, i requires 0 <= i < |s| => LowerChar(s[i]))
  }

  /** Python's `s.upper()` restricted to ASCII letters. */
  function Upper(s: string): (r: string)
    ensures |r| == |s|
    ensures forall i :: 0 <= i < |s| ==> r[i] == UpperChar(s[i])
  {
    seq(|s|, i requires 0 <= i < |s| => UpperChar(s[i]))
  }

  /** A string with no upper-case ASCII letter: one `Lower` leaves unchanged. */
  predicate IsLowerCased(s: string) {
    forall i :: 0 <= i < |s| ==> !IsUpperAscii(s[i])
  }

  lemma LowerOfLowerCased(s: string)
    requires IsLowerCased(s)
    ensures Lower(s) == s
  {
  }

  // ---------------------------------------------------------------- whitespace

  /** Python's `str.isspace()` for one character; also what `\s` matches in `re`. */
  predicate PyIsSpace(c: char) {
    || '\t' <= c <= '\r'
    || '\U{1C}' <= c <= '\U{1F}'
    || c == ' ' || c == '\U{85}' || c == '\U{A0}' || c == '\U{1680}'
    || '\U{2000}' <= c <= '\U{200A}'
    || c == '\U{2028}' || c == '\U{2029}' || c == '\U{202F}' || c == '\U{205F}' || c == '\U{3000}'
  }

  /** The characters JavaScript's `trim()` removes (WhiteSpace and LineTerminator). */
  predicate JsIsSpace(c: char) {
    || '\t' <= c <= '\r'
    || c == ' ' || c == '\U{A0}' || c == '\U{1680}'
    || '\U{2000}' <= c <= '\U{200A}'
    || c == '\U{2028}' || c == '\U{2029}' || c == '\U{202F}' || c == '\U{205F}' || c == '\U{3000}'
    || c == '\U{FEFF}'
  }

  /** End of the run of spaces that starts at `i`. */
  function LeadingEnd(s: string, i: nat, isSpace: char -> bool): (e: nat)
    requires i <= |s|
    ensures i <= e <= |s|
    ensures forall k :: i <= k < e ==> isSpace(s[k])
    ensures e == |s| || !isSpace(s[e])
    decreases |s| - i
  {
    if i < |s| && isSpace(s[i]) then LeadingEnd(s, i + 1, isSpace) else i
  }

  /** Start of the run of spaces that ends at `j`, going back no further than `lo`. */
  function TrailingStart(s: string, lo: nat, j: nat, isSpace: char -> bool): (b: nat)
    requires lo <= j <= |s|
    ensures lo <= b <= j
    ensures forall k :: b <= k < j ==> isSpace(s[k])
    ensures b == lo || !isSpace(s[b - 1])
    decreases j - lo
  {
    if lo < j && isSpace(s[j - 1]) then TrailingStart(s, lo, j - 1, isSpace) else j
  }

  /** `r` is the slice of `s` at `a`, and everything around it is space. */
  ghost predicate StrippedAt(s: string, r: string, a: int, isSpace: char -> bool) {
    && 0 <= a <= |s| - |r| && r == s[a..a + |r|]
    && (forall i :: 0 <= i < a ==> isSpace(s[i]))
    && (forall i :: a + |r| <= i < |s| ==> isSpace(s[i]))
  }

  /**
    * Removes the longest all-space prefix and suffix: the result is the slice of `s`
    * between them, and it neither starts nor ends with a space.
    */
  function Strip(s: string, isSpace: char -> bool): (r: string)
    ensures exists a :: StrippedAt(s, r, a, isSpace)
    ensures r == [] || (!isSpace(r[0]) && !isSpace(r[|r| - 1]))
  {
    var a := LeadingEnd(s, 0, isSpace);
    var b := TrailingStart(s, a, |s|, isSpace);
    assert StrippedAt(s, s[a..b], a, isSpace);
    s[a..b]
  }

  lemma StripOfStripped(s: string, isSpace: char -> bool)
    requires s == [] || (!isSpace(s[0]) && !isSpace(s[|s| - 1]))
    ensures Strip(s, isSpace) == s
  {
  }

  /** Python's `s.strip()`. */
  function PyStrip(s: string): string { Strip(s, PyIsSpace) }

  /** JavaScript's `s.trim()`. */
  function JsTrim(s: string): string { Strip(s, JsIsSpace) }

  // ---------------------------------------------------------------- substrings

  /** Python's `sub in s` and JavaScript's `s.includes(sub)`. */
  predicate Contains(s: string, sub: string) {
    exists i | 0 <= i <= |s| - |sub| :: OccursAt(s, sub, i)
  }

  /** `sub` occurs in `s` starting at index `i`. */
  predicate OccursAt(s: string, sub: string, i: int) {
    0 <= i <= |s| - |sub| && s[i..i + |sub|] == sub
  }

  predicate StartsWith(s: string, prefix: string) {
    |prefix| <= |s| && s[..|prefix|] == prefix
  }

  predicate EndsWith(s: string, suffix: string) {
    |suffix| <= |s| && s[|s| - |suffix|..] == suffix
  }

  lemma OccursInfix(a: string, b: string, c: string)
    ensures OccursAt(a + b + c, b, |a|)
  {
    assert (a + b + c)[|a|..|a| + |b|] == b;
  }

  lemma OccursAtFront(b: string, c: string)
    ensures OccursAt(b + c, b, 0)
  {
    assert (b + c)[..|b|] == b;
  }

  /** An occurrence survives putting text in front, shifted by its length. */
  lemma OccursShift(a: string, s: string, sub: string, i: int)
    requires OccursAt(s, sub, i)
    ensures OccursAt(a + s, sub, |a| + i)
  {
    assert (a + s)[|a| + i..|a| + i + |sub|] == s[i..i + |sub|];
  }

  lemma ContainsInfix(a: string, b: string, c: string)
    ensures Contains(a + b + c, b)
  {
    OccursInfix(a, b, c);
  }

  lemma ContainsTransitive(s: string, t: string, u: string)
    requires Contains(s, t) && Contains(t, u)
    ensures Contains(s, u)
  {
    var i :| 0 <= i <= |s| - |t| && OccursAt(s, t, i);
    var j :| 0 <= j <= |t| - |u| && OccursAt(t, u, j);
    forall k | 0 <= k < |u| ensures s[i + j + k] == u[k] {
      assert t[j..j + |u|][k] == u[k];
      assert s[i..i + |t|][j + k] == t[j + k];
    }
    assert s[i + j..i + j + |u|] == u;
    assert OccursAt(s, u, i + j);
  }

  /** Lower-casing keeps every occurrence of an already lower-case pattern. */
  lemma ContainsLower(s: string, sub: string)
    requires Contains(s, sub) && IsLowerCased(sub)
    ensures Contains(Lower(s), sub)
  {
    var i :| 0 <= i <= |s| - |sub| && OccursAt(s, sub, i);
    assert Lower(s)[i..i + |sub|] == sub;
    assert OccursAt(Lower(s), sub, i);
  }

  // ---------------------------------------------------------------- lines

  /** Python's `"\n".join(lines)` and JavaScript's `lines.join('\n')`. */
  function JoinLines(lines: seq<string>): string {
    if |lines| == 0 then ""
    else if |lines| == 1 then lines[0]
    else lines[0] + "\n" + JoinLines(lines[1..])
  }

  /** JavaScript's `s.split('\n')`: never empty, and no piece contains a newline. */
  function SplitLines(s: string): (lines: seq<string>)
    ensures |lines| >= 1
    ensures forall k :: 0 <= k < |lines| ==> '\n' !in lines[k]
  {
    if s == [] then [""]
    else if s[0] == '\n' then [""] + SplitLines(s[1..])
    else
      var rest := SplitLines(s[1..]);
      [[s[0]] + rest[0]] + rest[1..]
  }

  predicate NoNewlines(lines: seq<string>) {
    forall k :: 0 <= k < |lines| ==> '\n' !in lines[k]
  }

  /** Joining the pieces of a split gives the text back. */
  lemma {:induction false} JoinOfSplit(s: string)
    ensures JoinLines(SplitLines(s)) == s
  {
    if s == [] {
    } else if s[0] == '\n' {
      JoinOfSplit(s[1..]);
      assert s == "\n" + s[1..];
    } else {
      var rest := SplitLines(s[1..]);
      JoinOfSplit(s[1..]);
      if |rest| == 1 {
        assert s == [s[0]] + s[1..];
      } else {
        calc {
          JoinLines(SplitLines(s));
          ([s[0]] + rest[0]) + "\n" + JoinLines(rest[1..]);
          [s[0]] + (rest[0] + "\n" + JoinLines(rest[1..]));
          [s[0]] + JoinLines(rest);
          s;
        }
      }
    }
  }

  lemma {:induction false} SplitOfLine(a: string)
    requires '\n' !in a
    ensures SplitLines(a) == [a]
  {
    if a != [] {
      SplitOfLine(a[1..]);
      assert [a[0]] + a[1..] == a;
    }
  }

  lemma {:induction false} SplitOfLineThenNewline(a: string, b: string)
    requires '\n' !in a
    ensures SplitLines(a + "\n" + b) == [a] + SplitLines(b)
  {
    if a == [] {
      assert a + "\n" + b == "\n" + b;
    } else {
      assert (a + "\n" + b)[1..] == a[1..] + "\n" + b;
      SplitOfLineThenNewline(a[1..], b);
      assert [a[0]] + a[1..] == a;
    }
  }

  /** Splitting a join of newline-free lines gives the lines back. */
  lemma {:induction false} SplitOfJoin(lines: seq<string>)
    requires |lines| >= 1 && NoNewlines(lines)
    ensures SplitLines(JoinLines(lines)) == lines
  {
    if |lines| == 1 {
      SplitOfLine(lines[0]);
    } else {
      SplitOfJoin(lines[1..]);
      SplitOfLineThenNewline(lines[0], JoinLines(lines[1..]));
      assert lines == [lines[0]] + lines[1..];
    }
  }

  /** A join splits at any line boundary into the joins of the two halves. */
  lemma {:induction false} JoinAt(lines: seq<string>, k: nat)
    requires 0 < k < |lines|
    ensures JoinLines(lines) == JoinLines(lines[..k]) + "\n" + JoinLines(lines[k..])
  {
    if k > 1 {
      JoinAt(lines[1..], k - 1);
      assert lines[1..][..k - 1] == lines[..k][1..];
      assert lines[1..][k - 1..] == lines[k..];
    }
  }

  /** A join of at least one line starts with its first line. */
  lemma JoinStartsWithFirst(lines: seq<string>)
    requires |lines| >= 1
    ensures StartsWith(JoinLines(lines), lines[0])
  {
    if |lines| > 1 {
      var first, s := lines[0], JoinLines(lines);
      assert s == (first + "\n") + JoinLines(lines[1..]);
      assert |first| <= |s|;
      forall i | 0 <= i < |first| ensures s[i] == first[i] {
        assert s[i] == (first + "\n")[i];
      }
      assert s[..|first|] == first;
    }
  }

  /** Every line of a join occurs in it. */
  lemma {:induction false} JoinContainsLine(lines: seq<string>, k: nat)
    requires k < |lines|
    ensures Contains(JoinLines(lines), lines[k])
  {
    if |lines| == 1 {
      assert OccursAt(lines[0], lines[0], 0);
    } else if k == 0 {
      ContainsInfix("", lines[0], "\n" + JoinLines(lines[1..]));
      assert JoinLines(lines) == "" + lines[0] + ("\n" + JoinLines(lines[1..]));
    } else {
      JoinContainsLine(lines[1..], k - 1);
      ContainsInfix(lines[0] + "\n", JoinLines(lines[1..]), "");
      assert JoinLines(lines) == lines[0] + "\n" + JoinLines(lines[1..]) + "";
      ContainsTransitive(JoinLines(lines), JoinLines(lines[1..]), lines[k]);
    }
  }

  // ---------------------------------------------------------------- digits

  /** `\d` over ASCII. */
  predicate IsDigit(c: char) { '0' <= c <= '9' }

  /** End of the run of digits that starts at `i`. */
  function DigitRunEnd(s: string, i: nat): (e: nat)
    requires i <= |s|
    ensures i <= e <= |s|
    ensures forall k :: i <= k < e ==> IsDigit(s[k])
    ensures e == |s| || !IsDigit(s[e])
    decreases |s| - i
  {
    if i < |s| && IsDigit(s[i]) then DigitRunEnd(s, i + 1) else i
  }

  /** A stretch of digits from `i` never reaches past the run. */
  lemma DigitRunCovers(s: string, i: nat, e: nat)
    requires i <= e <= |s| && forall k :: i <= k < e ==> IsDigit(s[k])
    ensures e <= DigitRunEnd(s, i)
  {
  }

  /** A stretch of digits from `i` that a non-digit (or the end) follows is the run. */
  lemma DigitRunIs(s: string, i: nat, e: nat)
    requires i <= e <= |s| && forall k :: i <= k < e ==> IsDigit(s[k])
    requires e == |s| || !IsDigit(s[e])
    ensures DigitRunEnd(s, i) == e
  {
    DigitRunCovers(s, i, e);
  }
}
