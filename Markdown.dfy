/**
  * The reply formatter of the browser client (`formatMarkdown` in
  * travel_planner/static/script.js): HTML escaping, grouping of bullet lines into `<ul>`
  * lists, and cost badges around prices.
  */
module Markdown {
  import opened Text

  // ---------------------------------------------------------------- escaping

  /** `s.replace(/c/g, r)` for a one-character pattern. */
  function ReplaceChar(s: string, c: char, r: string): (t: string)
    ensures c !in r ==> c !in t
    ensures forall d :: d !in s && d !in r ==> d !in t
  {
    if s == [] then [] else (if s[0] == c then r else [s[0]]) + ReplaceChar(s[1..], c, r)
  }

  lemma {:induction false} ReplaceCharAppend(a: string, b: string, c: char, r: string)
    ensures ReplaceChar(a + b, c, r) == ReplaceChar(a, c, r) + ReplaceChar(b, c, r)
  {
    if a != [] {
      var head := if a[0] == c then r else [a[0]];
      assert (a + b)[0] == a[0] && (a + b)[1..] == a[1..] + b;
      ReplaceCharAppend(a[1..], b, c, r);
      assert ReplaceChar(a, c, r) == head + ReplaceChar(a[1..], c, r);
      assert ReplaceChar(a + b, c, r) == head + ReplaceChar(a[1..] + b, c, r);
      assert head + (ReplaceChar(a[1..], c, r) + ReplaceChar(b, c, r))
        == (head + ReplaceChar(a[1..], c, r)) + ReplaceChar(b, c, r);
    } else {
      assert a + b == b;
    }
  }

  lemma {:induction false} ReplaceCharAbsent(s: string, c: char, r: string)
    requires c !in s
    ensures ReplaceChar(s, c, r) == s
  {
    if s != [] {
      ReplaceCharAbsent(s[1..], c, r);
    }
  }

  /**
    * The three chained replacements of the source: `&` first, then `<`, then `>`. The
    * escaped text holds no raw angle bracket.
    */
  function EscapeHtml(s: string): (r: string)
    ensures '<' !in r && '>' !in r
  {
    ReplaceChar(ReplaceChar(ReplaceChar(s, '&', "&amp;"), '<', "&lt;"), '>', "&gt;")
  }

  /** The entity for one character. */
  function EscapeChar(c: char): string {
    if c == '&' then "&amp;" else if c == '<' then "&lt;" else if c == '>' then "&gt;" else [c]
  }

  /** Escaping character by character, the reference the chained replacements are checked against. */
  function EscapeEach(s: string): string {
    if s == [] then [] else EscapeChar(s[0]) + EscapeEach(s[1..])
  }

  lemma EscapeHtmlAppend(a: string, b: string)
    ensures EscapeHtml(a + b) == EscapeHtml(a) + EscapeHtml(b)
  {
    ReplaceCharAppend(a, b, '&', "&amp;");
    var a1, b1 := ReplaceChar(a, '&', "&amp;"), ReplaceChar(b, '&', "&amp;");
    ReplaceCharAppend(a1, b1, '<', "&lt;");
    ReplaceCharAppend(ReplaceChar(a1, '<', "&lt;"), ReplaceChar(b1, '<', "&lt;"), '>', "&gt;");
  }

  lemma EscapeHtmlChar(c: char)
    ensures EscapeHtml([c]) == EscapeChar(c)
  {
    ChainedReplaceChar(c);
  }

  /** The three replacements, applied to one character. */
  lemma ChainedReplaceChar(c: char)
    ensures ReplaceChar(ReplaceChar(ReplaceChar([c], '&', "&amp;"), '<', "&lt;"), '>', "&gt;")
      == EscapeChar(c)
  {
    if c == '&' {
      assert ReplaceChar([c], '&', "&amp;") == "&amp;" by { assert [c][1..] == []; }
      ReplaceCharAbsent("&amp;", '<', "&lt;");
      ReplaceCharAbsent("&amp;", '>', "&gt;");
    } else if c == '<' {
      ReplaceCharAbsent([c], '&', "&amp;");
      assert ReplaceChar([c], '<', "&lt;") == "&lt;" by { assert [c][1..] == []; }
      ReplaceCharAbsent("&lt;", '>', "&gt;");
    } else {
      ReplaceCharAbsent([c], '&', "&amp;");
      ReplaceCharAbsent([c], '<', "&lt;");
      assert ReplaceChar([c], '>', "&gt;") == EscapeChar(c) by { assert [c][1..] == []; }
    }
  }

  /**
    * Because `&` is replaced first, the entities introduced for `<` and `>` keep their `&`:
    * the chain escapes every character on its own.
    */
  lemma {:induction false} EscapeIsCharwise(s: string)
    ensures EscapeHtml(s) == EscapeEach(s)
  {
    if s != [] {
      assert s == [s[0]] + s[1..];
      EscapeHtmlAppend([s[0]], s[1..]);
      EscapeHtmlChar(s[0]);
      EscapeIsCharwise(s[1..]);
    }
  }

  /** Decodes the three entities the escaping produces. */
  function Unescape(s: string): string {
    if s == [] then []
    else if StartsWith(s, "&amp;") then "&" + Unescape(s[5..])
    else if StartsWith(s, "&lt;") then "<" + Unescape(s[4..])
    else if StartsWith(s, "&gt;") then ">" + Unescape(s[4..])
    else [s[0]] + Unescape(s[1..])
  }

  /** Escaping loses nothing: decoding the escaped text gives the original back. */
  lemma {:induction false} UnescapeOfEscape(s: string)
    ensures Unescape(EscapeHtml(s)) == s
  {
    EscapeIsCharwise(s);
    UnescapeOfEscapeEach(s);
  }

  /** Decoding an escaped character followed by any text. */
  lemma UnescapeStep(c: char, tail: string)
    ensures Unescape(EscapeChar(c) + tail) == [c] + Unescape(tail)
  {
    if c == '&' {
      UnescapeAmp(tail);
    } else if c == '<' {
      UnescapeLt(tail);
    } else if c == '>' {
      UnescapeGt(tail);
    } else {
      UnescapePlain(c, tail);
    }
  }

  lemma UnescapeAmp(tail: string)
    ensures Unescape("&amp;" + tail) == "&" + Unescape(tail)
  {
    var e := "&amp;" + tail;
    assert e[..5] == "&amp;" && e[5..] == tail;
  }

  lemma UnescapeLt(tail: string)
    ensures Unescape("&lt;" + tail) == "<" + Unescape(tail)
  {
    var e := "&lt;" + tail;
    assert e[..4] == "&lt;" && e[4..] == tail;
    assert !StartsWith(e, "&amp;") by { assert e[1] == 'l'; }
  }

  lemma UnescapeGt(tail: string)
    ensures Unescape("&gt;" + tail) == ">" + Unescape(tail)
  {
    var e := "&gt;" + tail;
    assert e[..4] == "&gt;" && e[4..] == tail;
    assert !StartsWith(e, "&amp;") by { assert e[1] == 'g'; }
    assert !StartsWith(e, "&lt;") by { assert e[1] == 'g'; }
  }

  lemma UnescapePlain(c: char, tail: string)
    requires c != '&'
    ensures Unescape([c] + tail) == [c] + Unescape(tail)
  {
    var e := [c] + tail;
    assert e[0] == c && e[1..] == tail;
    assert !StartsWith(e, "&amp;") && !StartsWith(e, "&lt;") && !StartsWith(e, "&gt;");
  }

  lemma {:induction false} UnescapeOfEscapeEach(s: string)
    ensures Unescape(EscapeEach(s)) == s
  {
    if s != [] {
      UnescapeOfEscapeEach(s[1..]);
      UnescapeStep(s[0], EscapeEach(s[1..]));
      assert s == [s[0]] + s[1..];
    }
  }

  /** Text without `&`, `<` or `>` passes through unchanged. */
  lemma EscapeOfPlain(s: string)
    requires '&' !in s && '<' !in s && '>' !in s
    ensures EscapeHtml(s) == s
  {
    ReplaceCharAbsent(s, '&', "&amp;");
    ReplaceCharAbsent(s, '<', "&lt;");
    ReplaceCharAbsent(s, '>', "&gt;");
  }

  /** Entity text already in the reply is escaped again, not passed through: its `&` becomes
    * `&amp;`, so `&lt;` is shown as the four characters `&lt;`, not as `<`. */
  lemma EntityIsEscapedAgain(name: string)
    requires '&' !in name && '<' !in name && '>' !in name
    ensures EscapeHtml("&" + name) == "&amp;" + name
  {
    EscapeHtmlAppend("&", name);
    assert "&" == ['&'];
    EscapeHtmlChar('&');
    EscapeOfPlain(name);
  }

  // ---------------------------------------------------------------- bullet lists

  const ListOpen: string := "<ul>"
  const ListClose: string := "</ul>"
  const ItemOpen: string := "<li>"
  const ItemClose: string := "</li>"

  /** A line whose trimmed form starts with `- `. */
  predicate IsBullet(line: string) {
    StartsWith(JsTrim(line), "- ")
  }

  /** The list item for a bullet line: its trimmed text without the first two characters. */
  function Item(line: string): string
    requires IsBullet(line)
  {
    ItemOpen + JsTrim(line)[2..] + ItemClose
  }

  /** What one line contributes, given whether a list is open before it: a bullet opens a
    * list if none is open and becomes an item; any other line closes an open list and is
    * kept as it is. */
  function Emit(line: string, inList: bool): seq<string> {
    if IsBullet(line) then (if inList then [] else [ListOpen]) + [Item(line)]
    else (if inList then [ListClose] else []) + [line]
  }

  /**
    * The grouping pass over the remaining lines; a list still open at the end is closed. The
    * output has one line per input line, plus an opening and a closing tag per maximal run
    * of bullet lines, plus the closing tag of a list already open.
    */
  function Grouped(lines: seq<string>, inList: bool): (out: seq<string>)
    ensures |out| == |lines| + 2 * Runs(lines, inList) + (if inList then 1 else 0)
  {
    if lines == [] then (if inList then [ListClose] else [])
    else Emit(lines[0], inList) + Grouped(lines[1..], IsBullet(lines[0]))
  }

  lemma AppendAssociative(a: seq<string>, b: seq<string>, c: seq<string>)
    ensures a + b + c == a + (b + c)
  {
  }

  lemma GroupedStep(lines: seq<string>, i: nat, inList: bool)
    requires i < |lines|
    ensures Grouped(lines[i..], inList)
      == Emit(lines[i], inList) + Grouped(lines[i + 1..], IsBullet(lines[i]))
  {
    assert lines[i..][0] == lines[i] && lines[i..][1..] == lines[i + 1..];
  }

  /** The body of the line loop: what one line appends, and the new `inList`. */
  method EmitLine(line: string, inList: bool) returns (out: seq<string>, nowInList: bool)
    ensures out == Emit(line, inList) && nowInList == IsBullet(line)
  {
    var trimmed := JsTrim(line);
    out := [];
    if StartsWith(trimmed, "- ") {
      if !inList {
        out := out + [ListOpen];
      }
      out := out + [ItemOpen + trimmed[2..] + ItemClose];
      nowInList := true;
    } else {
      if inList {
        out := out + [ListClose];
      }
      out := out + [line];
      nowInList := false;
    }
  }

  /** The line loop of `formatMarkdown`, with its `inList` flag. */
  method GroupBullets(lines: seq<string>) returns (result: seq<string>)
    ensures result == Grouped(lines, false)
  {
    var inList := false;
    result := [];
    for i := 0 to |lines|
      invariant result + Grouped(lines[i..], inList) == Grouped(lines, false)
    {
      var out, nowInList := EmitLine(lines[i], inList);
      GroupedStep(lines, i, inList);
      AppendAssociative(result, out, Grouped(lines[i + 1..], nowInList));
      result, inList := result + out, nowInList;
    }
    if inList {
      result := result + [ListClose];
    }
  }

  // ---------------------------------------------------------------- what the grouping produces

  /** A line the grouping itself writes: a list tag or an item. */
  predicate IsTagLine(line: string) {
    line == ListOpen || line == ListClose || StartsWith(line, ItemOpen)
  }

  predicate IsItemLine(line: string) { StartsWith(line, ItemOpen) }

  predicate IsTextLine(line: string) { !IsTagLine(line) }

  predicate IsNonBullet(line: string) { !IsBullet(line) }

  /** No line that is kept as it is could be mistaken for a line the grouping writes. */
  predicate NoTagLikeText(lines: seq<string>) {
    forall k :: 0 <= k < |lines| && !IsBullet(lines[k]) ==> !IsTagLine(lines[k])
  }

  function Filter(s: seq<string>, keep: string -> bool): (t: seq<string>)
    ensures |t| <= |s|
  {
    if s == [] then [] else (if keep(s[0]) then [s[0]] else []) + Filter(s[1..], keep)
  }

  lemma {:induction false} FilterAppend(a: seq<string>, b: seq<string>, keep: string -> bool)
    ensures Filter(a + b, keep) == Filter(a, keep) + Filter(b, keep)
  {
    if a == [] {
      assert a + b == b;
    } else {
      var head := if keep(a[0]) then [a[0]] else [];
      assert (a + b)[0] == a[0] && (a + b)[1..] == a[1..] + b;
      assert Filter(a + b, keep) == head + Filter(a[1..] + b, keep);
      FilterAppend(a[1..], b, keep);
      AppendAssociative(head, Filter(a[1..], keep), Filter(b, keep));
    }
  }

  /** The items of the bullet lines, in order. */
  function BulletItems(lines: seq<string>): seq<string> {
    if lines == [] then []
    else (if IsBullet(lines[0]) then [Item(lines[0])] else []) + BulletItems(lines[1..])
  }

  /** How many maximal runs of bullet lines start in `lines`, when the line before them was a
    * bullet exactly if `afterBullet`. */
  function Runs(lines: seq<string>, afterBullet: bool): nat {
    if lines == [] then 0
    else (if IsBullet(lines[0]) && !afterBullet then 1 else 0) + Runs(lines[1..], IsBullet(lines[0]))
  }

  lemma FilterOne(x: string, keep: string -> bool)
    ensures Filter([x], keep) == if keep(x) then [x] else []
  {
    assert [x][1..] == [];
  }

  lemma FilterTwo(x: string, y: string, keep: string -> bool)
    ensures Filter([x, y], keep) == Filter([x], keep) + Filter([y], keep)
  {
    assert [x, y] == [x] + [y];
    FilterAppend([x], [y], keep);
  }

  /** What survives of one line's output when only text lines are kept. */
  lemma FilterEmitText(line: string, inList: bool)
    requires !IsBullet(line) ==> !IsTagLine(line)
    ensures Filter(Emit(line, inList), IsTextLine) == if IsBullet(line) then [] else [line]
  {
    TagsDiffer();
    if IsBullet(line) {
      assert IsTagLine(Item(line));
      FilterOne(Item(line), IsTextLine);
      if !inList {
        FilterTwo(ListOpen, Item(line), IsTextLine);
        FilterOne(ListOpen, IsTextLine);
      }
    } else {
      FilterOne(line, IsTextLine);
      if inList {
        FilterTwo(ListClose, line, IsTextLine);
        FilterOne(ListClose, IsTextLine);
      }
    }
  }

  /** What survives of one line's output when only items are kept. */
  lemma FilterEmitItems(line: string, inList: bool)
    requires !IsBullet(line) ==> !IsTagLine(line)
    ensures Filter(Emit(line, inList), IsItemLine) == if IsBullet(line) then [Item(line)] else []
  {
    TagsDiffer();
    if IsBullet(line) {
      assert IsItemLine(Item(line));
      FilterOne(Item(line), IsItemLine);
      if !inList {
        FilterTwo(ListOpen, Item(line), IsItemLine);
        FilterOne(ListOpen, IsItemLine);
      }
    } else {
      FilterOne(line, IsItemLine);
      if inList {
        FilterTwo(ListClose, line, IsItemLine);
        FilterOne(ListClose, IsItemLine);
      }
    }
  }

  lemma NoTagLikeTextTail(lines: seq<string>)
    requires lines != [] && NoTagLikeText(lines)
    ensures NoTagLikeText(lines[1..])
    ensures !IsBullet(lines[0]) ==> !IsTagLine(lines[0])
  {
    var rest := lines[1..];
    forall k | 0 <= k < |rest| && !IsBullet(rest[k]) ensures !IsTagLine(rest[k]) {
      assert rest[k] == lines[k + 1];
    }
  }

  /** Lines that are not bullets come out unchanged and in their order. */
  lemma {:induction false} TextLinesKept(lines: seq<string>, inList: bool)
    requires NoTagLikeText(lines)
    ensures Filter(Grouped(lines, inList), IsTextLine) == Filter(lines, IsNonBullet)
  {
    if lines == [] {
      TagsDiffer();
      assert Filter([ListClose], IsTextLine) == [];
    } else {
      var line, rest := lines[0], lines[1..];
      NoTagLikeTextTail(lines);
      TextLinesKept(rest, IsBullet(line));
      assert Grouped(lines, inList) == Emit(line, inList) + Grouped(rest, IsBullet(line));
      FilterAppend(Emit(line, inList), Grouped(rest, IsBullet(line)), IsTextLine);
      FilterEmitText(line, inList);
      assert Filter(lines, IsNonBullet)
        == (if IsNonBullet(line) then [line] else []) + Filter(rest, IsNonBullet);
    }
  }

  /** Bullet lines become items, in their order. */
  lemma {:induction false} ItemsInOrder(lines: seq<string>, inList: bool)
    requires NoTagLikeText(lines)
    ensures Filter(Grouped(lines, inList), IsItemLine) == BulletItems(lines)
  {
    if lines == [] {
      TagsDiffer();
      assert Filter([ListClose], IsItemLine) == [];
    } else {
      var line, rest := lines[0], lines[1..];
      NoTagLikeTextTail(lines);
      ItemsInOrder(rest, IsBullet(line));
      assert Grouped(lines, inList) == Emit(line, inList) + Grouped(rest, IsBullet(line));
      FilterAppend(Emit(line, inList), Grouped(rest, IsBullet(line)), IsItemLine);
      FilterEmitItems(line, inList);
    }
  }

  /** Where a reader of the output is: outside any list, right after `<ul>`, or after an item. */
  datatype ListState = Outside | Opened | Listing

  /**
    * The output read line by line: `<ul>` only outside a list, an item only inside one,
    * `</ul>` only after an item, other lines only outside, and no list left open. So the
    * tags are balanced, lists are never nested and never empty.
    */
  predicate WellFormed(out: seq<string>, state: ListState) {
    if out == [] then state == Outside
    else if out[0] == ListOpen then state == Outside && WellFormed(out[1..], Opened)
    else if out[0] == ListClose then state == Listing && WellFormed(out[1..], Outside)
    else if IsItemLine(out[0]) then state != Outside && WellFormed(out[1..], Listing)
    else state == Outside && WellFormed(out[1..], Outside)
  }

  lemma TagsDiffer()
    ensures ListOpen != ListClose && !IsItemLine(ListOpen) && !IsItemLine(ListClose)
  {
    assert ListOpen[1] != ListClose[1] && ListOpen[1] != ItemOpen[1] && ListClose[1] != ItemOpen[1];
  }

  lemma ItemStep(item: string, tail: seq<string>)
    requires IsItemLine(item) && WellFormed(tail, Listing)
    ensures WellFormed([item] + tail, Listing)
    ensures WellFormed([ListOpen] + ([item] + tail), Outside)
  {
    TagsDiffer();
    assert item != ListOpen && item != ListClose by {
      assert ListOpen[..|ItemOpen|] != ItemOpen && ListClose[..|ItemOpen|] != ItemOpen;
    }
    assert ([item] + tail)[0] == item && ([item] + tail)[1..] == tail;
    assert ([ListOpen] + ([item] + tail))[1..] == [item] + tail;
  }

  lemma TextStep(line: string, tail: seq<string>)
    requires !IsTagLine(line) && WellFormed(tail, Outside)
    ensures WellFormed([line] + tail, Outside)
    ensures WellFormed([ListClose] + ([line] + tail), Listing)
  {
    TagsDiffer();
    assert ([line] + tail)[0] == line && ([line] + tail)[1..] == tail;
    assert ([ListClose] + ([line] + tail))[1..] == [line] + tail;
  }

  lemma ItemIsItemLine(line: string)
    requires IsBullet(line)
    ensures IsItemLine(Item(line))
  {
    var text := JsTrim(line)[2..];
    assert (ItemOpen + text + ItemClose)[..|ItemOpen|] == ItemOpen;
  }

  /** A bullet's output in front of well-formed output for a list in progress. */
  lemma BulletStep(line: string, inList: bool, tail: seq<string>)
    requires IsBullet(line) && WellFormed(tail, Listing)
    ensures WellFormed(Emit(line, inList) + tail, if inList then Listing else Outside)
  {
    ItemIsItemLine(line);
    ItemStep(Item(line), tail);
    if !inList {
      assert Emit(line, inList) == [ListOpen] + [Item(line)];
      assert Emit(line, inList) + tail == [ListOpen] + ([Item(line)] + tail);
    } else {
      assert Emit(line, inList) == [Item(line)];
    }
  }

  /** Any other line's output in front of well-formed output outside a list. */
  lemma TextLineStep(line: string, inList: bool, tail: seq<string>)
    requires !IsBullet(line) && !IsTagLine(line) && WellFormed(tail, Outside)
    ensures WellFormed(Emit(line, inList) + tail, if inList then Listing else Outside)
  {
    TextStep(line, tail);
    if inList {
      assert Emit(line, inList) == [ListClose] + [line];
      assert Emit(line, inList) + tail == [ListClose] + ([line] + tail);
    } else {
      assert Emit(line, inList) == [line];
    }
  }

  /** The grouping's output is well formed, whatever the text lines say, as long as none of
    * them looks like a tag the grouping writes. */
  lemma {:induction false} GroupedIsWellFormed(lines: seq<string>, inList: bool)
    requires NoTagLikeText(lines)
    ensures WellFormed(Grouped(lines, inList), if inList then Listing else Outside)
  {
    if lines == [] {
      TagsDiffer();
      assert [ListClose][1..] == [];
    } else {
      var line, rest := lines[0], lines[1..];
      assert NoTagLikeText(rest) by {
        forall k | 0 <= k < |rest| && !IsBullet(rest[k]) ensures !IsTagLine(rest[k]) {
          assert rest[k] == lines[k + 1];
        }
      }
      GroupedIsWellFormed(rest, IsBullet(line));
      if IsBullet(line) {
        BulletStep(line, inList, Grouped(rest, true));
      } else {
        TextLineStep(line, inList, Grouped(rest, false));
      }
    }
  }

  /** A character absent from the text is absent from each of its lines. */
  lemma {:induction false} SplitLinesAvoid(s: string, c: char)
    requires c !in s
    ensures forall k :: 0 <= k < |SplitLines(s)| ==> c !in SplitLines(s)[k]
  {
    if s != [] {
      SplitLinesAvoid(s[1..], c);
    }
  }

  /** After escaping, no line of the text can pass for a line the grouping writes, so the
    * grouping of escaped text is well formed. */
  lemma EscapedLinesAreText(text: string)
    ensures NoTagLikeText(SplitLines(EscapeHtml(text)))
    ensures WellFormed(Grouped(SplitLines(EscapeHtml(text)), false), Outside)
  {
    var lines := SplitLines(EscapeHtml(text));
    SplitLinesAvoid(EscapeHtml(text), '<');
    forall k | 0 <= k < |lines| && !IsBullet(lines[k]) ensures !IsTagLine(lines[k]) {
      assert ListOpen[0] == '<' && ListClose[0] == '<' && ItemOpen[0] == '<';
    }
    GroupedIsWellFormed(lines, false);
  }

  // ---------------------------------------------------------------- line breaks

  const LineBreak: string := "<br>"

  /**
    * `html.replace(/\n(?!<)/g, '<br>')`: a newline not followed by `<` becomes `<br>`; text
    * without newlines is left as it is.
    */
  function LineBreaks(s: string): (t: string)
    ensures |s| > 0 && s[0] != '\n' ==> |t| > 0 && t[0] == s[0]
    ensures '\n' !in s ==> t == s
  {
    if s == [] then []
    else if s[0] == '\n' && !(|s| >= 2 && s[1] == '<') then LineBreak + LineBreaks(s[1..])
    else [s[0]] + LineBreaks(s[1..])
  }

  predicate NewlinesBeforeTags(t: string) {
    forall k :: 0 <= k < |t| && t[k] == '\n' ==> k + 1 < |t| && t[k + 1] == '<'
  }

  /** Every newline left in the output comes right before a tag. */
  lemma {:induction false} NewlinesOnlyBeforeTags(s: string)
    ensures NewlinesBeforeTags(LineBreaks(s))
  {
    if s != [] {
      NewlinesOnlyBeforeTags(s[1..]);
      var rest := LineBreaks(s[1..]);
      if s[0] == '\n' && !(|s| >= 2 && s[1] == '<') {
        var t := LineBreak + rest;
        assert |LineBreak| == 4 && LineBreaks(s) == t;
        forall k | 0 <= k < |t| && t[k] == '\n' ensures k + 1 < |t| && t[k + 1] == '<' {
          assert k >= 4 by {
            if k < 4 {
              assert t[k] == LineBreak[k];
            }
          }
          assert t[k] == rest[k - 4];
          assert k - 3 < |rest| && rest[k - 3] == '<';
          assert t[k + 1] == rest[k - 3];
        }
      } else {
        var t := [s[0]] + rest;
        assert LineBreaks(s) == t;
        forall k | 0 <= k < |t| && t[k] == '\n' ensures k + 1 < |t| && t[k + 1] == '<' {
          if k == 0 {
            assert s[1..][0] == s[1] == '<';
            assert t[1] == rest[0];
          } else {
            assert t[k] == rest[k - 1];
            assert k < |rest| && rest[k] == '<';
            assert t[k + 1] == rest[k];
          }
        }
      }
    }
  }

  // ---------------------------------------------------------------- cost badges

  /** The markup a price is wrapped in. */
  const BadgeOpen: string := "<span class=\"cost-badge\">"
  const BadgeClose: string := "</span>"

  predicate AllDigits(t: string) {
    forall k :: 0 <= k < |t| ==> IsDigit(t[k])
  }

  /** The strings the pattern `\$\d+(?:-\d+)?` matches. */
  predicate IsPrice(p: string) {
    && |p| >= 2 && p[0] == '$'
    && (|| AllDigits(p[1..])
        || exists m :: 1 < m < |p| - 1 && p[m] == '-' && AllDigits(p[1..m]) && AllDigits(p[m + 1..]))
  }

  /** The pattern can match at the front: a `$` and a digit. */
  predicate PriceStarts(s: string) {
    |s| >= 2 && s[0] == '$' && IsDigit(s[1])
  }

  /** The length of the match at the front: the digits after `$`, then a `-` and its digits
    * when a digit follows the `-`. */
  function PriceLength(s: string): (e: nat)
    requires PriceStarts(s)
    ensures 2 <= e <= |s|
  {
    var d := DigitRunEnd(s, 1);
    if d + 1 < |s| && s[d] == '-' && IsDigit(s[d + 1]) then DigitRunEnd(s, d + 1) else d
  }

  /** Every price at the front ends within the run the greedy pattern takes. */
  lemma PriceBound(s: string, e: nat)
    requires PriceStarts(s) && e <= |s| && IsPrice(s[..e])
    ensures e <= PriceLength(s)
  {
    var q := s[..e];
    if AllDigits(q[1..]) {
      forall k | 1 <= k < e ensures IsDigit(s[k]) {
        assert s[k] == q[1..][k - 1];
      }
      DigitRunCovers(s, 1, e);
    } else {
      var m :| 1 < m < |q| - 1 && q[m] == '-' && AllDigits(q[1..m]) && AllDigits(q[m + 1..]);
      assert q[1..m] == s[1..m];
      assert q[m + 1..] == s[m + 1..e];
      DashedPriceBound(s, e, m);
    }
  }

  lemma DashedPriceBound(s: string, e: nat, m: nat)
    requires PriceStarts(s) && e <= |s|
    requires 1 < m < e - 1 && s[m] == '-' && AllDigits(s[1..m]) && AllDigits(s[m + 1..e])
    ensures e <= PriceLength(s)
  {
    forall k | 1 <= k < m ensures IsDigit(s[k]) {
      assert s[k] == s[1..m][k - 1];
    }
    DigitRunIs(s, 1, m);
    forall k | m + 1 <= k < e ensures IsDigit(s[k]) {
      assert s[k] == s[m + 1..e][k - m - 1];
    }
    DigitRunCovers(s, m + 1, e);
  }

  /** What the greedy pattern takes is a price, and the longest price at the front. */
  lemma PriceIsLongestMatch(s: string)
    requires PriceStarts(s)
    ensures IsPrice(s[..PriceLength(s)])
    ensures forall e :: PriceLength(s) < e <= |s| ==> !IsPrice(s[..e])
  {
    var d := DigitRunEnd(s, 1);
    var p := s[..PriceLength(s)];
    if d + 1 < |s| && s[d] == '-' && IsDigit(s[d + 1]) {
      assert p[d] == '-' && AllDigits(p[1..d]) && AllDigits(p[d + 1..]);
    } else {
      assert AllDigits(p[1..]);
    }
    forall e | PriceLength(s) < e <= |s| ensures !IsPrice(s[..e]) {
      if IsPrice(s[..e]) {
        PriceBound(s, e);
      }
    }
  }

  /** Where the pattern cannot start, no prefix is a price. */
  lemma NoPriceHere(s: string)
    requires |s| >= 1 && !PriceStarts(s)
    ensures forall e :: 0 <= e <= |s| ==> !IsPrice(s[..e])
  {
    forall e | 0 <= e <= |s| && e >= 2 && s[..e][0] == '$' ensures !IsPrice(s[..e]) {
      var q := s[..e];
      assert q[1..][0] == s[1] && !IsDigit(s[1]);
      forall m | 1 < m < |q| - 1 ensures !AllDigits(q[1..m]) {
        assert q[1..m][0] == s[1];
      }
    }
  }

  /**
    * `html.replace(/(\$\d+(?:-\d+)?)/g, open + '$1' + close)`: scanning left to right, each
    * match is wrapped and the scan resumes after it.
    */
  function Badges(s: string, open: string, close: string): string
    decreases |s|
  {
    if s == [] then []
    else if PriceStarts(s) then
      var e := PriceLength(s);
      open + s[..e] + close + Badges(s[e..], open, close)
    else [s[0]] + Badges(s[1..], open, close)
  }

  /**
    * The badge pass of the formatter. Text without `$` gets no badge, and taking the badge
    * tags out again gives back the text whenever the text holds neither tag itself.
    */
  function CostBadges(s: string): (t: string)
    ensures '$' !in s ==> t == s
    ensures !Contains(s, BadgeOpen) && !Contains(s, BadgeClose) ==> Unwrap(t, BadgeOpen, BadgeClose) == s
  {
    var t := Badges(s, BadgeOpen, BadgeClose);
    assert '$' !in s ==> t == s by {
      if '$' !in s {
        NoDollarNoBadge(s, BadgeOpen, BadgeClose);
      }
    }
    assert !Contains(s, BadgeOpen) && !Contains(s, BadgeClose) ==> Unwrap(t, BadgeOpen, BadgeClose) == s by {
      if !Contains(s, BadgeOpen) && !Contains(s, BadgeClose) {
        BadgeTagsAreDistinct();
        UnwrapOfBadges(s, BadgeOpen, BadgeClose);
      }
    }
    t
  }

  /** Text without `$` gets no badge. */
  lemma {:induction false} NoDollarNoBadge(s: string, open: string, close: string)
    requires '$' !in s
    ensures Badges(s, open, close) == s
  {
    if s != [] {
      NoDollarNoBadge(s[1..], open, close);
    }
  }

  /** Removing the two tags: the inverse of `Badges` on text that holds neither tag. */
  function Unwrap(t: string, open: string, close: string): string
    decreases |t|
  {
    if t == [] then []
    else if |open| > 0 && StartsWith(t, open) then Unwrap(t[|open|..], open, close)
    else if |close| > 0 && StartsWith(t, close) then Unwrap(t[|close|..], open, close)
    else [t[0]] + Unwrap(t[1..], open, close)
  }

  /** Tags that both start with `<`, hold no other `<`, and differ in their second character. */
  predicate DistinctTags(open: string, close: string) {
    && |open| >= 2 && |close| >= 2 && open[0] == '<' && close[0] == '<' && open[1] != close[1]
    && '<' !in open[1..] && '<' !in close[1..]
  }

  lemma {:induction false} UnwrapPlain(p: string, tail: string, open: string, close: string)
    requires DistinctTags(open, close) && '<' !in p
    ensures Unwrap(p + tail, open, close) == p + Unwrap(tail, open, close)
  {
    if p != [] {
      assert (p + tail)[0] == p[0] && (p + tail)[1..] == p[1..] + tail;
      assert !StartsWith(p + tail, open) && !StartsWith(p + tail, close) by {
        assert (p + tail)[0] != '<';
      }
      UnwrapPlain(p[1..], tail, open, close);
      assert p + Unwrap(tail, open, close) == [p[0]] + (p[1..] + Unwrap(tail, open, close));
    } else {
      assert p + tail == tail;
    }
  }

  lemma UnwrapBadge(p: string, rest: string, open: string, close: string)
    requires DistinctTags(open, close) && '<' !in p
    ensures Unwrap(open + p + close + rest, open, close) == p + Unwrap(rest, open, close)
  {
    var t := open + p + close + rest;
    assert StartsWith(t, open) && t[|open|..] == p + (close + rest);
    UnwrapPlain(p, close + rest, open, close);
    var u := close + rest;
    assert u[1] != open[1] && u[0] == '<';
    assert !StartsWith(u, open) && StartsWith(u, close) && u[|close|..] == rest;
  }

  /** The first index from `i` on where the pattern can start, or the end of the text. */
  function NextPrice(s: string, i: nat): (j: nat)
    requires i <= |s|
    ensures i <= j <= |s| && (j < |s| ==> PriceStarts(s[j..]))
    ensures forall k :: i <= k < j ==> !PriceStarts(s[k..])
    decreases |s| - i
  {
    if i == |s| || PriceStarts(s[i..]) then i else NextPrice(s, i + 1)
  }

  /** Up to where a price starts, the text is copied as it is. */
  lemma {:induction false} BadgesCopyUpTo(s: string, i: nat, j: nat, open: string, close: string)
    requires i <= j <= |s| && forall k :: i <= k < j ==> !PriceStarts(s[k..])
    ensures Badges(s[i..], open, close) == s[i..j] + Badges(s[j..], open, close)
    decreases j - i
  {
    if i < j {
      BadgesCopyUpTo(s, i + 1, j, open, close);
      BadgesPlainStep(s, i, open, close);
      assert s[i..j] == [s[i]] + s[i + 1..j];
    } else {
      assert s[i..j] == [];
    }
  }

  /** Where no price starts, one character is copied. */
  lemma BadgesPlainStep(s: string, i: nat, open: string, close: string)
    requires i < |s| && !PriceStarts(s[i..])
    ensures Badges(s[i..], open, close) == [s[i]] + Badges(s[i + 1..], open, close)
  {
    assert s[i..][0] == s[i] && s[i..][1..] == s[i + 1..];
  }

  /** A price holds no `<`. */
  lemma PriceHasNoAngle(s: string)
    requires PriceStarts(s)
    ensures '<' !in s[..PriceLength(s)]
  {
    PriceIsLongestMatch(s);
    var p := s[..PriceLength(s)];
    forall k | 0 <= k < |p| ensures p[k] != '<' {
      if k > 0 && AllDigits(p[1..]) {
        assert p[k] == p[1..][k - 1];
      } else if k > 0 {
        var m :| 1 < m < |p| - 1 && p[m] == '-' && AllDigits(p[1..m]) && AllDigits(p[m + 1..]);
        if k < m {
          assert p[k] == p[1..m][k - 1];
        } else if k > m {
          assert p[k] == p[m + 1..][k - m - 1];
        }
      }
    }
  }

  /**
    * Text that does not hold a tag `w` (one whose only `<` is its first character) cannot
    * start with `w` once the badges are in: a tag of the text would have to run into an
    * inserted tag, whose first character is a `<`.
    */
  lemma NoTagAtFront(s: string, w: string, open: string, close: string)
    requires |s| > 0 && !PriceStarts(s) && |open| > 0 && open[0] == '<'
    requires |w| > 0 && '<' !in w[1..] && !Contains(s, w)
    ensures !StartsWith(Badges(s, open, close), w)
  {
    assert s[0..] == s;
    var j := NextPrice(s, 0);
    BadgesCopyUpTo(s, 0, j, open, close);
    var t := Badges(s, open, close);
    if |w| <= j {
      assert t[..|w|] == s[..|w|] && !OccursAt(s, w, 0);
    } else if j == |s| {
      assert s[j..] == [] && |t| < |w|;
    } else {
      assert t[j] == Badges(s[j..], open, close)[0] == '<';
      assert w[j] != '<' by { assert w[j] == w[1..][j - 1]; }
    }
  }

  lemma ContainsOfSuffix(s: string, i: nat, w: string)
    requires i <= |s| && Contains(s[i..], w)
    ensures Contains(s, w)
  {
    assert OccursAt(s, s[i..], i);
    ContainsTransitive(s, s[i..], w);
  }

  /** Taking the tags out again gives back the text, as long as the text holds neither tag. */
  lemma {:induction false} UnwrapOfBadges(s: string, open: string, close: string)
    requires DistinctTags(open, close) && !Contains(s, open) && !Contains(s, close)
    ensures Unwrap(Badges(s, open, close), open, close) == s
    decreases |s|
  {
    if s != [] {
      if PriceStarts(s) {
        var e := PriceLength(s);
        assert s == s[..e] + s[e..];
        if Contains(s[e..], open) { ContainsOfSuffix(s, e, open); }
        if Contains(s[e..], close) { ContainsOfSuffix(s, e, close); }
        UnwrapOfBadges(s[e..], open, close);
        PriceHasNoAngle(s);
        UnwrapBadge(s[..e], Badges(s[e..], open, close), open, close);
      } else {
        if Contains(s[1..], open) { ContainsOfSuffix(s, 1, open); }
        if Contains(s[1..], close) { ContainsOfSuffix(s, 1, close); }
        UnwrapOfBadges(s[1..], open, close);
        var rest := Badges(s[1..], open, close);
        assert Badges(s, open, close) == [s[0]] + rest;
        if s[0] == '<' {
          NoTagAtFront(s, open, open, close);
          NoTagAtFront(s, close, open, close);
          assert ([s[0]] + rest)[1..] == rest;
        } else {
          UnwrapPlain([s[0]], rest, open, close);
        }
      }
    }
  }

  /** The badge markup is such a pair of tags. */
  lemma BadgeTagsAreDistinct()
    ensures DistinctTags(BadgeOpen, BadgeClose)
  {
    assert BadgeOpen[0] == '<' && BadgeOpen[1] == 's';
    assert BadgeClose[0] == '<' && BadgeClose[1] == '/';
    forall k | 1 <= k < |BadgeOpen| ensures BadgeOpen[k] != '<' { }
    forall k | 1 <= k < |BadgeClose| ensures BadgeClose[k] != '<' { }
  }

  /** After its `$`, a price holds only digits and `-`, so no other price starts inside it. */
  lemma PriceHasNoInnerStart(s: string)
    requires PriceStarts(s)
    ensures forall k :: 1 <= k < PriceLength(s) ==> !PriceStarts(s[k..])
  {
    var d := DigitRunEnd(s, 1);
    forall k | 1 <= k < PriceLength(s) ensures s[k] != '$' {
      if k > d {
        assert IsDigit(s[k]);
      }
    }
    forall k | 1 <= k < PriceLength(s) ensures !PriceStarts(s[k..]) {
      assert s[k..][0] == s[k];
    }
  }

  lemma ContainsBehind(a: string, x: string, w: string)
    requires Contains(x, w)
    ensures Contains(a + x, w)
  {
    var k :| 0 <= k <= |x| - |w| && OccursAt(x, w, k);
    OccursShift(a, x, w, k);
  }

  /**
    * Wherever the pattern can start, the scan finds that match and wraps it: a match never
    * runs over the `$` of the next price, so every price in the text is wrapped whole.
    */
  lemma {:induction false} BadgesWrapPriceAt(s: string, i: nat, open: string, close: string)
    requires i < |s| && PriceStarts(s[i..])
    ensures Contains(Badges(s, open, close), open + s[i..i + PriceLength(s[i..])] + close)
    decreases |s|, 1
  {
    var w := open + s[i..i + PriceLength(s[i..])] + close;
    if PriceStarts(s) {
      var e := PriceLength(s);
      var rest := Badges(s[e..], open, close);
      assert Badges(s, open, close) == open + s[..e] + close + rest;
      if i == 0 {
        assert s[0..] == s && s[0..e] == s[..e];
        ContainsInfix([], w, rest);
        assert [] + w + rest == Badges(s, open, close);
      } else {
        PriceHasNoInnerStart(s);
        BadgesWrapFurtherOn(s, e, i, open, close);
        ContainsBehind(open + s[..e] + close, rest, w);
      }
    } else {
      assert i != 0 by { assert s[0..] == s; }
      BadgesWrapFurtherOn(s, 1, i, open, close);
      ContainsBehind([s[0]], Badges(s[1..], open, close), w);
    }
  }

  /** The same, for a price in the part of the text the scan goes on with. */
  lemma BadgesWrapFurtherOn(s: string, k: nat, i: nat, open: string, close: string)
    requires 0 < k <= i < |s| && PriceStarts(s[i..])
    ensures Contains(Badges(s[k..], open, close), open + s[i..i + PriceLength(s[i..])] + close)
    decreases |s|, 0
  {
    assert s[k..][i - k..] == s[i..];
    BadgesWrapPriceAt(s[k..], i - k, open, close);
    assert s[k..][i - k..i - k + PriceLength(s[i..])] == s[i..i + PriceLength(s[i..])];
  }

  /** The number of places where the pattern can start. */
  function PriceCount(s: string): nat
    decreases |s|
  {
    if s == [] then 0 else (if PriceStarts(s) then 1 else 0) + PriceCount(s[1..])
  }

  /** Skipping places where no price starts leaves the count as it is. */
  lemma {:induction false} PriceCountSkip(s: string, i: nat, j: nat)
    requires i <= j <= |s| && forall k :: i <= k < j ==> !PriceStarts(s[k..])
    ensures PriceCount(s[i..]) == PriceCount(s[j..])
    decreases j - i
  {
    if i < j {
      assert s[i..][1..] == s[i + 1..];
      PriceCountSkip(s, i + 1, j);
    }
  }

  lemma OneMore(a: nat, n: nat)
    ensures a * (1 + n) == a + a * n
  {
  }

  /** The pass adds exactly one pair of tags per place where the pattern can start. */
  lemma {:induction false} BadgesLength(s: string, open: string, close: string)
    ensures |Badges(s, open, close)| == |s| + (|open| + |close|) * PriceCount(s)
    decreases |s|
  {
    if s != [] {
      assert s[0..] == s;
      if PriceStarts(s) {
        var e := PriceLength(s);
        var n := PriceCount(s[e..]);
        PriceHasNoInnerStart(s);
        PriceCountSkip(s, 1, e);
        assert PriceCount(s) == 1 + n;
        BadgesLength(s[e..], open, close);
        assert |Badges(s, open, close)| == |open| + e + |close| + (|s| - e) + (|open| + |close|) * n;
        OneMore(|open| + |close|, n);
      } else {
        BadgesLength(s[1..], open, close);
      }
    }
  }

  /**
    * The badge pass, with the real tags: every price (`$`, digits, and `-` with digits when
    * they follow) is wrapped whole in a badge, and the output grows by exactly one badge
    * per price.
    */
  lemma CostBadgesWrapEveryPrice(s: string)
    ensures forall i :: 0 <= i < |s| && PriceStarts(s[i..]) ==>
      Contains(CostBadges(s), BadgeOpen + s[i..i + PriceLength(s[i..])] + BadgeClose)
    ensures |CostBadges(s)| == |s| + (|BadgeOpen| + |BadgeClose|) * PriceCount(s)
  {
    forall i | 0 <= i < |s| && PriceStarts(s[i..])
      ensures Contains(CostBadges(s), BadgeOpen + s[i..i + PriceLength(s[i..])] + BadgeClose)
    {
      BadgesWrapPriceAt(s, i, BadgeOpen, BadgeClose);
    }
    BadgesLength(s, BadgeOpen, BadgeClose);
  }

  // ---------------------------------------------------------------- the whole formatter

  /**
    * `formatMarkdown(text)`: escaping, the header, bold and italic rewrites, the bullet
    * grouping over the lines, the line breaks and the cost badges, in this order. The three
    * regular-expression rewrites are not modelled; they are the function `emphasis`.
    */
  method FormatMarkdown(text: string, emphasis: string -> string) returns (html: string)
    ensures html == CostBadges(LineBreaks(JoinLines(Grouped(SplitLines(emphasis(EscapeHtml(text))), false))))
  {
    html := EscapeHtml(text);
    html := emphasis(html);
    var lines := SplitLines(html);
    var result := GroupBullets(lines);
    html := JoinLines(result);
    html := LineBreaks(html);
    html := CostBadges(html);
  }
}
