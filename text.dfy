/**
 * The Kotlin standard-library text functions that the `Example.value` setter
 * applies to its argument: `trimIndent()` followed by `trim()`.
 */
module Text {
  import opened Wrappers

  /**
   * Kotlin's `Char.isWhitespace()` on the JVM (`Character.isWhitespace` or
   * `Character.isSpaceChar`): the controls U+0009..U+000D and U+001C..U+001F,
   * and the Unicode space, line and paragraph separators.
   */
  predicate IsWhitespace(c: char): (b: bool)
    ensures c == ' ' || c == '\t' || c == '\n' || c == '\r' ==> b
    ensures 0x21 <= c as int < 0xA0 ==> !b
  {
    var n := c as int;
    || 0x09 <= n <= 0x0D
    || 0x1C <= n <= 0x20
    || n == 0xA0 || n == 0x1680
    || 0x2000 <= n <= 0x200A
    || n == 0x2028 || n == 0x2029 || n == 0x202F || n == 0x205F || n == 0x3000
  }

  /** `isBlank()`: empty or whitespace only. */
  predicate IsBlank(s: string): (b: bool)
    ensures b <==> IndentWidth(s) == |s|
  {
    forall i :: 0 <= i < |s| ==> IsWhitespace(s[i])
  }

  /** The number of leading whitespace characters (the indent width of a line). */
  function IndentWidth(s: string): (w: nat)
    ensures w <= |s|
    ensures forall i :: 0 <= i < w ==> IsWhitespace(s[i])
    ensures w < |s| ==> !IsWhitespace(s[w])
  {
    if s == [] || !IsWhitespace(s[0]) then 0 else 1 + IndentWidth(s[1..])
  }

  /** The number of trailing whitespace characters. */
  function TrailingWidth(s: string): (w: nat)
    ensures w <= |s|
    ensures forall i :: |s| - w <= i < |s| ==> IsWhitespace(s[i])
    ensures w < |s| ==> !IsWhitespace(s[|s| - 1 - w])
  {
    if s == [] || !IsWhitespace(s[|s| - 1]) then 0 else 1 + TrailingWidth(s[..|s| - 1])
  }

  predicate IsLineBreak(c: char) {
    c == '\n' || c == '\r'
  }

  /** The position of the first '\n' or '\r', or |s| when there is none. */
  function BreakAt(s: string): (i: nat)
    ensures i <= |s|
    ensures forall j :: 0 <= j < i ==> !IsLineBreak(s[j])
    ensures i < |s| ==> IsLineBreak(s[i])
  {
    if s == [] || IsLineBreak(s[0]) then 0 else 1 + BreakAt(s[1..])
  }

  /** `lines()`: the text split at every "\r\n", "\n" and "\r"; never empty. */
  function Lines(s: string): (ls: seq<string>)
    ensures |ls| >= 1
    decreases |s|
  {
    var i := BreakAt(s);
    if i == |s| then [s]
    else
      var w := if s[i] == '\r' && i + 1 < |s| && s[i + 1] == '\n' then 2 else 1;
      [s[..i]] + Lines(s[i + w..])
  }

  /** No line holds a line break: every break separates two lines. */
  lemma {:induction false} LinesHaveNoBreaks(s: string)
    ensures forall k, j :: 0 <= k < |Lines(s)| && 0 <= j < |Lines(s)[k]| ==> !IsLineBreak(Lines(s)[k][j])
    decreases |s|
  {
    var i := BreakAt(s);
    if i < |s| {
      var w := if s[i] == '\r' && i + 1 < |s| && s[i + 1] == '\n' then 2 else 1;
      var rest := Lines(s[i + w..]);
      LinesHaveNoBreaks(s[i + w..]);
      assert Lines(s) == [s[..i]] + rest;
      forall k, j | 0 <= k < |Lines(s)| && 0 <= j < |Lines(s)[k]| ensures !IsLineBreak(Lines(s)[k][j]) {
        if k > 0 {
          assert Lines(s)[k] == rest[k - 1];
        }
      }
    }
  }

  /** `joinToString("\n")`. */
  function Join(ls: seq<string>): (r: string)
    ensures ls != [] ==> ls[0] <= r
    ensures |ls| > 1 ==> |ls[0]| < |r| && r[|ls[0]|] == '\n'
  {
    if ls == [] then ""
    else if |ls| == 1 then ls[0]
    else ls[0] + "\n" + Join(ls[1..])
  }

  /** A line ended by "\n" is split off, and the lines of the rest follow it. */
  lemma LinesAtNewline(s: string, i: nat)
    requires i == BreakAt(s) && i < |s| && s[i] == '\n'
    ensures Lines(s) == [s[..i]] + Lines(s[i + 1..])
  {
  }

  /** Joining a line in front of at least one more puts a "\n" between them. */
  lemma JoinCons(line: string, ls: seq<string>)
    requires ls != []
    ensures Join([line] + ls) == line + "\n" + Join(ls)
  {
    assert ([line] + ls)[1..] == ls;
  }

  /** A text is its part before a "\n", the "\n" and its part after. */
  lemma SplitAtNewline(s: string, i: nat)
    requires i < |s| && s[i] == '\n'
    ensures s == s[..i] + "\n" + s[i + 1..]
  {
    assert s[..i] + [s[i]] == s[..i + 1];
  }

  /** Splitting a text without carriage returns and joining the lines again gives the text back. */
  lemma {:induction false} JoinLines(s: string)
    requires forall j :: 0 <= j < |s| ==> s[j] != '\r'
    ensures Join(Lines(s)) == s
    decreases |s|
  {
    var i := BreakAt(s);
    if i < |s| {
      var rest := s[i + 1..];
      assert forall j :: 0 <= j < |rest| ==> rest[j] == s[i + 1 + j];
      JoinLines(rest);
      LinesAtNewline(s, i);
      JoinCons(s[..i], Lines(rest));
      SplitAtNewline(s, i);
    }
  }

  /** The least indent width over the lines that are not blank; None when every line is blank. */
  function MinIndent(ls: seq<string>): (r: Option<nat>)
    ensures r.None? <==> forall k :: 0 <= k < |ls| ==> IsBlank(ls[k])
    ensures r.Some? ==> forall k :: 0 <= k < |ls| && !IsBlank(ls[k]) ==> r.value <= IndentWidth(ls[k])
    ensures r.Some? ==> exists k :: 0 <= k < |ls| && !IsBlank(ls[k]) && r.value == IndentWidth(ls[k])
  {
    if ls == [] then None
    else
      var rest := MinIndent(ls[1..]);
      assert forall k :: 1 <= k < |ls| ==> ls[k] == ls[1..][k - 1];
      if IsBlank(ls[0]) then rest
      else if rest.Some? && rest.value < IndentWidth(ls[0]) then
        var k :| 0 <= k < |ls[1..]| && !IsBlank(ls[1..][k]) && rest.value == IndentWidth(ls[1..][k]);
        assert ls[k + 1] == ls[1..][k];
        rest
      else Some(IndentWidth(ls[0]))
  }

  /** `minCommonIndent` of `replaceIndent`: the least indent of the non-blank lines, 0 if there is none. */
  function MinCommonIndent(ls: seq<string>): nat {
    match MinIndent(ls)
    case None => 0
    case Some(m) => m
  }

  /** `drop(n)`: the line without its first n characters. */
  function Drop(line: string, n: nat): string {
    if n <= |line| then line[n..] else ""
  }

  /** The first line is left out when it is blank. */
  function FirstKept(ls: seq<string>): nat {
    if |ls| > 0 && IsBlank(ls[0]) then 1 else 0
  }

  /** The lines from FirstKept on, without the last line when it is blank and a different line from the first. */
  function EndKept(ls: seq<string>): (e: nat)
    ensures FirstKept(ls) <= e <= |ls|
  {
    if |ls| > FirstKept(ls) && IsBlank(ls[|ls| - 1]) then |ls| - 1 else |ls|
  }

  /**
   * `reindent` as `trimIndent()` calls it: a blank first line and a blank
   * last line are removed, and every remaining line loses the common indent.
   */
  function Reindent(ls: seq<string>): (out: seq<string>)
    ensures |out| == EndKept(ls) - FirstKept(ls)
  {
    var lo, hi := FirstKept(ls), EndKept(ls);
    seq(hi - lo, j requires 0 <= j < hi - lo => Drop(ls[lo + j], MinCommonIndent(ls)))
  }

  /** `trimIndent()`. */
  function TrimIndent(s: string): (r: string)
    ensures BreakAt(s) == |s| && IsBlank(s) ==> r == ""
    ensures BreakAt(s) == |s| && !IsBlank(s) ==> r == s[IndentWidth(s)..]
  {
    var ls := Lines(s);
    if BreakAt(s) == |s| && !IsBlank(s) then
      assert ls == [s];
      assert MinCommonIndent(ls) == IndentWidth(s) by { assert ls[1..] == []; }
      assert FirstKept(ls) == 0 && EndKept(ls) == 1;
      assert Reindent(ls)[0] == Drop(s, IndentWidth(s));
      Join(Reindent(ls))
    else
      assert BreakAt(s) == |s| ==> ls == [s];
      Join(Reindent(ls))
  }

  /**
   * Reindenting keeps every line that is not blank and removes exactly the
   * common indent from it, and what it removes is whitespace.
   */
  lemma ReindentKeepsText(ls: seq<string>, k: nat)
    requires k < |ls| && !IsBlank(ls[k])
    ensures FirstKept(ls) <= k < EndKept(ls)
    ensures MinCommonIndent(ls) <= |ls[k]|
    ensures IsBlank(ls[k][..MinCommonIndent(ls)])
    ensures ls[k] == ls[k][..MinCommonIndent(ls)] + Reindent(ls)[k - FirstKept(ls)]
  {
    var m := MinCommonIndent(ls);
    assert m <= IndentWidth(ls[k]);
    var out := Reindent(ls);
    assert out[k - FirstKept(ls)] == Drop(ls[k], m) == ls[k][m..];
  }

  /**
   * The common indent is removed completely: when some line is not blank,
   * some reindented line starts with a character that is not whitespace.
   */
  lemma ReindentRemovesCommonIndent(ls: seq<string>)
    requires exists k :: 0 <= k < |ls| && !IsBlank(ls[k])
    ensures exists j :: 0 <= j < |Reindent(ls)| && Reindent(ls)[j] != ""
                        && !IsWhitespace(Reindent(ls)[j][0])
  {
    var k :| 0 <= k < |ls| && !IsBlank(ls[k]) && MinCommonIndent(ls) == IndentWidth(ls[k]);
    ReindentKeepsText(ls, k);
    var j := k - FirstKept(ls);
    assert Reindent(ls)[j] == ls[k][IndentWidth(ls[k])..];
  }

  /** `trim()`: the text without leading and trailing whitespace. */
  function Trim(s: string): (r: string)
    ensures r == "" || (!IsWhitespace(r[0]) && !IsWhitespace(r[|r| - 1]))
    ensures exists i :: 0 <= i <= |s| - |r| && r == s[i..i + |r|] && IsBlank(s[..i]) && IsBlank(s[i + |r|..])
    ensures r == "" <==> IsBlank(s)
  {
    var i := IndentWidth(s);
    if i == |s| then
      assert s[..i] == s;
      ""
    else
      var j := |s| - TrailingWidth(s);
      assert i < j;
      var r := s[i..j];
      assert r == s[i..i + |r|];
      r
  }

  /** Trimming twice is trimming once. */
  lemma TrimIdempotent(s: string)
    ensures Trim(Trim(s)) == Trim(s)
  {
    var r := Trim(s);
    if r != "" {
      assert IndentWidth(r) == 0;
      assert TrailingWidth(r) == 0;
    }
  }
}
