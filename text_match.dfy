/**
 * The pieces of Python's `re` and `str` that the governance evaluator relies on:
 * case-insensitive search for `\b`-delimited phrases, the FACT-line and
 * source-tag expressions, and `str.splitlines`.
 *
 * Characters are Unicode scalar values. Case folding is ASCII folding and
 * `\w` is the ASCII word class; `\s` is the full `str.isspace` set.
 */
module TextMatch {

  /** ASCII lower-casing, the folding applied under `re.IGNORECASE` to the ASCII patterns. */
  function Lower(c: char): (r: char)
    ensures 'A' <= c <= 'Z' ==> r as int == c as int + 32
    ensures !('A' <= c <= 'Z') ==> r == c
  {
    if 'A' <= c <= 'Z' then (c as int + 32) as char else c
  }

  function LowerStr(s: string): (r: string)
    ensures |r| == |s|
    ensures forall i :: 0 <= i < |s| ==> r[i] == Lower(s[i])
  {
    seq(|s|, i requires 0 <= i < |s| => Lower(s[i]))
  }

  /** `\w`: letters, digits and underscore. */
  predicate IsWordChar(c: char) {
    ('a' <= c <= 'z') || ('A' <= c <= 'Z') || ('0' <= c <= '9') || c == '_'
  }

  /** `\s` on `str` patterns: exactly the characters for which `str.isspace` holds. */
  predicate IsSpace(c: char) {
    c == ' ' || ('\U{0009}' <= c <= '\U{000D}') || ('\U{001C}' <= c <= '\U{001F}')
    || c == '\U{0085}' || c == '\U{00A0}' || c == '\U{1680}'
    || ('\U{2000}' <= c <= '\U{200A}') || c == '\U{2028}' || c == '\U{2029}'
    || c == '\U{202F}' || c == '\U{205F}' || c == '\U{3000}'
  }

  /** `\b` at position i of s: a word character on exactly one side. */
  predicate Boundary(s: string, i: nat)
    requires i <= |s|
  {
    (i > 0 && IsWordChar(s[i - 1])) != (i < |s| && IsWordChar(s[i]))
  }

  /** `\b<phrase>\b` matches s at position i, ignoring case (phrase is lower-case). */
  predicate PhraseAt(phrase: string, s: string, i: nat) {
    i + |phrase| <= |s|
    && LowerStr(s[i..i + |phrase|]) == phrase
    && Boundary(s, i) && Boundary(s, i + |phrase|)
  }

  /** `re.search` for one phrase, scanning start positions from `from` onwards. */
  function Occurs(phrase: string, s: string, from: nat): (r: bool)
    ensures r <==> exists i :: from <= i <= |s| && PhraseAt(phrase, s, i)
    decreases |s| + 1 - from
  {
    if from > |s| then false
    else PhraseAt(phrase, s, from) || Occurs(phrase, s, from + 1)
  }

  /**
   * A compiled pattern of the evaluator's tables: its source text (reported in
   * signals) and the lower-case phrases its `|`-alternatives and optional
   * suffixes expand to, each delimited by `\b` on both sides.
   */
  datatype Pattern = Pattern(regex: string, phrases: seq<string>)

  /** `re.search(pattern, text, re.IGNORECASE)` finds a match. */
  predicate Matches(p: Pattern, text: string) {
    exists k :: 0 <= k < |p.phrases| && Occurs(p.phrases[k], text, 0)
  }

  lemma {:induction false} NoMatchInEmpty(p: Pattern)
    requires forall k :: 0 <= k < |p.phrases| ==> p.phrases[k] != []
    ensures !Matches(p, "")
  {
    forall k | 0 <= k < |p.phrases|
      ensures !Occurs(p.phrases[k], "", 0)
    {
      assert !PhraseAt(p.phrases[k], "", 0);
    }
  }

  /** A phrase can only match text that contains every one of its letters (lower-cased). */
  lemma PhraseLetters(phrase: string, s: string, i: nat, j: nat)
    requires PhraseAt(phrase, s, i) && j < |phrase|
    ensures Lower(s[i + j]) == phrase[j]
  {
    assert LowerStr(s[i..i + |phrase|])[j] == phrase[j];
  }

  /** Text in which some letter c of the phrase never occurs (lower-cased) does not contain the phrase. */
  lemma {:induction false} AbsentLetter(phrase: string, s: string, j: nat, c: char)
    requires j < |phrase| && phrase[j] == c
    requires forall i :: 0 <= i < |s| ==> Lower(s[i]) != c
    ensures !Occurs(phrase, s, 0)
  {
    if i :| 0 <= i <= |s| && PhraseAt(phrase, s, i) {
      PhraseLetters(phrase, s, i, j);
      assert false;
    }
  }

  // ---------------------------------------------------------------------------
  // FACT_LINE = ^\s*(FACT|FACTS)\s*:\s*   (IGNORECASE, search from the start)

  predicate AllSpace(s: string) {
    forall i :: 0 <= i < |s| ==> IsSpace(s[i])
  }

  /**
   * The declarative reading of FACT_LINE at given split points: whitespace up
   * to k, "fact" (w = 4) or "facts" (w = 5) in any case, whitespace up to m,
   * and ':' at m.
   */
  predicate FactLineAt(line: string, k: nat, w: nat, m: nat) {
    (w == 4 || w == 5) && k + w <= m < |line|
    && AllSpace(line[..k])
    && LowerStr(line[k..k + w]) == "facts"[..w]
    && AllSpace(line[k + w..m])
    && line[m] == ':'
  }

  ghost predicate FactLine(line: string) {
    exists k: nat, w: nat, m: nat :: FactLineAt(line, k, w, m)
  }

  /** The first index at or after i that is not whitespace. */
  function SkipSpace(s: string, i: nat): (j: nat)
    requires i <= |s|
    ensures i <= j <= |s|
    ensures AllSpace(s[i..j])
    ensures j < |s| ==> !IsSpace(s[j])
    decreases |s| - i
  {
    if i == |s| || !IsSpace(s[i]) then i
    else
      var j := SkipSpace(s, i + 1);
      assert s[i..j] == [s[i]] + s[i + 1..j];
      j
  }

  predicate ColonAfterSpace(s: string, i: nat)
    requires i <= |s|
  {
    var j := SkipSpace(s, i);
    j < |s| && s[j] == ':'
  }

  /** FACT_LINE.search(line), computed the way the regex engine backtracks. */
  predicate IsFactLine(line: string) {
    var k := SkipSpace(line, 0);
    k + 4 <= |line|
    && LowerStr(line[k..k + 4]) == "fact"
    && (ColonAfterSpace(line, k + 4)
        || (k + 5 <= |line| && Lower(line[k + 4]) == 's' && ColonAfterSpace(line, k + 5)))
  }

  /** Skipping whitespace from i lands on the only non-space position p that follows a run of spaces. */
  lemma {:induction false} SkipSpaceUnique(s: string, i: nat, p: nat)
    requires i <= p < |s| && AllSpace(s[i..p]) && !IsSpace(s[p])
    ensures SkipSpace(s, i) == p
    decreases p - i
  {
    if i < p {
      assert s[i..p][0] == s[i];
      assert s[i + 1..p] == s[i..p][1..];
      SkipSpaceUnique(s, i + 1, p);
    }
  }

  /** What the backtracking search accepts is a FACT line in the declarative sense. */
  lemma FactLineSound(line: string)
    requires IsFactLine(line)
    ensures FactLine(line)
  {
    var k := SkipSpace(line, 0);
    assert line[0..k] == line[..k];
    if ColonAfterSpace(line, k + 4) {
      var m := SkipSpace(line, k + 4);
      assert LowerStr(line[k..k + 4]) == "facts"[..4];
      assert FactLineAt(line, k, 4, m);
    } else {
      var m := SkipSpace(line, k + 5);
      assert LowerStr(line[k..k + 5]) == "facts"[..5] by {
        assert LowerStr(line[k..k + 5]) == LowerStr(line[k..k + 4]) + [Lower(line[k + 4])];
      }
      assert FactLineAt(line, k, 5, m);
    }
  }

  /** The case-insensitive "fact"/"facts" keyword, letter by letter. */
  lemma FactKeyword(line: string, k: nat, w: nat)
    requires (w == 4 || w == 5) && k + w <= |line|
    requires LowerStr(line[k..k + w]) == "facts"[..w]
    ensures Lower(line[k]) == 'f'
    ensures LowerStr(line[k..k + 4]) == "fact"
    ensures w == 5 ==> Lower(line[k + 4]) == 's'
  {
    var f := LowerStr(line[k..k + w]);
    assert f[0] == Lower(line[k]) && f[1] == Lower(line[k + 1]);
    assert f[2] == Lower(line[k + 2]) && f[3] == Lower(line[k + 3]);
    assert f[..4] == "fact";
    assert LowerStr(line[k..k + 4]) == f[..4];
    if w == 5 {
      assert f[4] == Lower(line[k + 4]);
    }
  }

  /** Every declarative FACT line is found by the backtracking search. */
  lemma FactLineComplete(line: string)
    requires FactLine(line)
    ensures IsFactLine(line)
  {
    var k: nat, w: nat, m: nat :| FactLineAt(line, k, w, m);
    FactKeyword(line, k, w);
    assert !IsSpace(line[k]);
    assert line[0..k] == line[..k];
    SkipSpaceUnique(line, 0, k);
    SkipSpaceUnique(line, k + w, m);
    assert ColonAfterSpace(line, k + w);
  }

  /** FACT_LINE's search and its declarative reading agree on every line. */
  lemma FactLineComputed(line: string)
    ensures IsFactLine(line) <==> FactLine(line)
  {
    if IsFactLine(line) { FactLineSound(line); }
    if FactLine(line) { FactLineComplete(line); }
  }

  // ---------------------------------------------------------------------------
  // SOURCE_TAG = \[source:\s*.+?\]   (IGNORECASE; '.' is any character but '\n')

  /**
   * The tag opens at i with "[source:" in any case; whitespace runs up to m; at
   * least one non-newline character follows before the closing ']' at j.
   */
  predicate SourceTagAt(line: string, i: nat, m: nat, j: nat)
    requires i + 8 <= m < j < |line|
  {
    LowerStr(line[i..i + 8]) == "[source:"
    && AllSpace(line[i + 8..m])
    && (forall k :: m <= k < j ==> line[k] != '\n')
    && line[j] == ']'
  }

  predicate SourceTag(line: string) {
    exists i: nat, m: nat, j: nat :: i + 8 <= m < j < |line| && SourceTagAt(line, i, m, j)
  }

  /** A tag needs an opening bracket. */
  lemma {:induction false} SourceTagNeedsBracket(line: string)
    requires forall i :: 0 <= i < |line| ==> line[i] != '['
    ensures !SourceTag(line)
  {
    forall i: nat, m: nat, j: nat | i + 8 <= m < j < |line|
      ensures !SourceTagAt(line, i, m, j)
    {
      assert LowerStr(line[i..i + 8])[0] == Lower(line[i]);
    }
  }

  // ---------------------------------------------------------------------------
  // str.splitlines()

  /** The line boundaries of `str.splitlines`. */
  predicate IsLineBreak(c: char) {
    c == '\n' || c == '\r' || c == '\U{000B}' || c == '\U{000C}'
    || c == '\U{001C}' || c == '\U{001D}' || c == '\U{001E}'
    || c == '\U{0085}' || c == '\U{2028}' || c == '\U{2029}'
  }

  predicate NoBreak(s: string) {
    forall i :: 0 <= i < |s| ==> !IsLineBreak(s[i])
  }

  /** The first line boundary at or after i, or |s|. */
  function BreakIndex(s: string, i: nat): (j: nat)
    requires i <= |s|
    ensures i <= j <= |s|
    ensures NoBreak(s[i..j])
    ensures j < |s| ==> IsLineBreak(s[j])
    decreases |s| - i
  {
    if i == |s| || IsLineBreak(s[i]) then i
    else
      var j := BreakIndex(s, i + 1);
      assert s[i..j] == [s[i]] + s[i + 1..j];
      j
  }

  /**
   * `text.splitlines()`: lines without their terminators; "\r\n" is one
   * terminator; a final terminator does not open an empty last line.
   */
  function Lines(text: string): (ls: seq<string>)
    ensures forall l :: l in ls ==> NoBreak(l)
    ensures |ls| <= |text|
    ensures text != [] ==> ls != []
    decreases |text|
  {
    if text == [] then []
    else
      var k := BreakIndex(text, 0);
      assert text[0..k] == text[..k];
      if k == |text| then [text]
      else
        var next := if text[k] == '\r' && k + 1 < |text| && text[k + 1] == '\n' then k + 2 else k + 1;
        [text[..k]] + Lines(text[next..])
  }

  /** The scan for a boundary stops at the first one. */
  lemma {:induction false} BreakIndexUnique(s: string, i: nat, p: nat)
    requires i <= p <= |s| && NoBreak(s[i..p]) && (p < |s| ==> IsLineBreak(s[p]))
    ensures BreakIndex(s, i) == p
    decreases p - i
  {
    if i < p {
      assert s[i..p][0] == s[i];
      assert s[i + 1..p] == s[i..p][1..];
      BreakIndexUnique(s, i + 1, p);
    }
  }

  /** A line followed by a line feed splits off as the first line, whatever follows. */
  lemma LinesCons(a: string, rest: string)
    requires NoBreak(a)
    ensures Lines(a + "\n" + rest) == [a] + Lines(rest)
  {
    var t := a + "\n" + rest;
    assert t[0..|a|] == a;
    BreakIndexUnique(t, 0, |a|);
    assert t[..|a|] == a;
    assert t[|a| + 1..] == rest;
  }

  /** Lines each ended by a line feed, written one after another. */
  function Terminated(ls: seq<string>): string {
    if ls == [] then [] else ls[0] + "\n" + Terminated(ls[1..])
  }

  /** Splitting line-feed-terminated lines gives back exactly those lines. */
  lemma {:induction false} LinesOfTerminated(ls: seq<string>)
    requires forall i :: 0 <= i < |ls| ==> NoBreak(ls[i])
    ensures Lines(Terminated(ls)) == ls
  {
    if ls != [] {
      LinesOfTerminated(ls[1..]);
      LinesCons(ls[0], Terminated(ls[1..]));
    }
  }

  /** One line followed by a line feed splits into just that line. */
  lemma LinesOfTerminatedLine(s: string)
    requires NoBreak(s)
    ensures Lines(s + "\n") == [s]
  {
    LinesCons(s, "");
    assert s + "\n" + "" == s + "\n";
  }
}
