/**
 * The Python `str` operations the bot relies on, over `seq<char>`:
 * whitespace and line-break classes, `endswith`, substring `in`,
 * `split()`, `splitlines()`, `replace` of one character, ASCII `title()`
 * and the code-point ordering that `sorted` uses on strings.
 */
module Text {

  /** `c.isspace()` in Python 3. */
  predicate IsSpace(c: char) {
    || c == ' '
    || ('\t' <= c <= '\r')
    || ('\U{1c}' <= c <= '\U{1f}')
    || c == '\U{85}' || c == '\U{a0}' || c == '\U{1680}'
    || ('\U{2000}' <= c <= '\U{200a}')
    || c == '\U{2028}' || c == '\U{2029}' || c == '\U{202f}' || c == '\U{205f}' || c == '\U{3000}'
  }

  /** The line boundaries of `str.splitlines()`. */
  predicate IsLineBreak(c: char) {
    || c == '\n' || c == '\r'
    || c == '\U{0b}' || c == '\U{0c}'
    || ('\U{1c}' <= c <= '\U{1e}')
    || c == '\U{85}' || c == '\U{2028}' || c == '\U{2029}'
  }

  predicate NoSpace(s: string) {
    forall i :: 0 <= i < |s| ==> !IsSpace(s[i])
  }

  predicate NoLineBreak(s: string) {
    forall i :: 0 <= i < |s| ==> !IsLineBreak(s[i])
  }

  /** `s.endswith(suffix)`; every string ends with the empty suffix. */
  predicate EndsWith(s: string, suffix: string) {
    |suffix| <= |s| && s[|s| - |suffix|..] == suffix
  }

  /** `needle in hay` for two strings. */
  predicate IsInfix(needle: string, hay: string) {
    exists i :: 0 <= i <= |hay| && needle <= hay[i..]
  }

  // ---------------------------------------------------------------------------
  // str.split() with no separator

  /** `s` without its leading whitespace. */
  function DropSpaces(s: string): (t: string)
    ensures |t| <= |s| && t == s[|s| - |t|..]
    ensures t == [] || !IsSpace(t[0])
  {
    if s != [] && IsSpace(s[0]) then DropSpaces(s[1..]) else s
  }

  /** Length of the run of non-whitespace at the head of `s`. */
  function WordLength(s: string): (n: nat)
    ensures n <= |s|
    ensures forall i :: 0 <= i < n ==> !IsSpace(s[i])
    ensures n < |s| ==> IsSpace(s[n])
  {
    if s == [] || IsSpace(s[0]) then 0 else 1 + WordLength(s[1..])
  }

  /** `s.split()`: the maximal runs of non-whitespace, in order. */
  function Words(s: string): (ws: seq<string>)
    ensures forall i :: 0 <= i < |ws| ==> ws[i] != [] && NoSpace(ws[i])
    decreases |s|
  {
    if s == [] then []
    else if IsSpace(s[0]) then Words(s[1..])
    else
      var n := WordLength(s);
      [s[..n]] + Words(s[n..])
  }

  /** `" ".join(ws)`. */
  function Unwords(ws: seq<string>): string {
    if ws == [] then ""
    else if |ws| == 1 then ws[0]
    else ws[0] + " " + Unwords(ws[1..])
  }

  /** A single word splits to itself. */
  lemma WordsSingle(w: string)
    requires w != [] && NoSpace(w)
    ensures Words(w) == [w]
  {
    assert WordLength(w) == |w|;
    assert w[..|w|] == w;
    assert w[|w|..] == [];
  }

  /** One word, then a space, then any text: the word comes off first. */
  lemma WordsStep(w: string, rest: string)
    requires w != [] && NoSpace(w)
    ensures Words(w + " " + rest) == [w] + Words(rest)
  {
    var s := w + " " + rest;
    assert s[0] == w[0];
    assert WordLength(s) == |w| by {
      assert s[|w|] == ' ';
      assert forall i :: 0 <= i < |w| ==> s[i] == w[i];
    }
    assert s[..|w|] == w;
    assert s[|w|..] == " " + rest;
    assert (" " + rest)[1..] == rest;
  }

  /** The three facts of `WordLength`'s contract pin it down. */
  lemma WordLengthIs(s: string, n: nat)
    requires n <= |s|
    requires forall i :: 0 <= i < n ==> !IsSpace(s[i])
    requires n < |s| ==> IsSpace(s[n])
    ensures WordLength(s) == n
  {
  }

  /**
   * Any whitespace character separates: the words of `a`, a space and `b`
   * are the words of `a` followed by the words of `b`. With `WordsSingle`
   * this determines `split()` on every string.
   */
  lemma {:induction false} WordsSplitAt(a: string, c: char, b: string)
    requires IsSpace(c)
    ensures Words(a + [c] + b) == Words(a) + Words(b)
    decreases |a|
  {
    var s := a + [c] + b;
    if a == [] {
      assert s[1..] == b;
    } else if IsSpace(a[0]) {
      assert s[1..] == a[1..] + [c] + b;
      WordsSplitAt(a[1..], c, b);
    } else {
      var n := WordLength(a);
      WordLengthIs(s, n);
      assert s[..n] == a[..n];
      assert s[n..] == a[n..] + [c] + b;
      WordsSplitAt(a[n..], c, b);
    }
  }

  /** Splitting words that were joined by single spaces gives them back. */
  lemma {:induction false} WordsOfUnwords(ws: seq<string>)
    requires forall i :: 0 <= i < |ws| ==> ws[i] != [] && NoSpace(ws[i])
    ensures Words(Unwords(ws)) == ws
  {
    if |ws| == 1 {
      WordsSingle(ws[0]);
    } else if ws != [] {
      var tail := ws[1..];
      var u := Unwords(tail);
      assert Unwords(ws) == ws[0] + " " + u;
      WordsStep(ws[0], u);
      WordsOfUnwords(tail);
      assert ws == [ws[0]] + tail;
    }
  }

  // ---------------------------------------------------------------------------
  // str.splitlines()

  /** Index of the first line boundary in `s`, or `|s|`. */
  function LineEnd(s: string): (n: nat)
    ensures n <= |s|
    ensures forall i :: 0 <= i < n ==> !IsLineBreak(s[i])
    ensures n < |s| ==> IsLineBreak(s[n])
  {
    if s == [] || IsLineBreak(s[0]) then 0 else 1 + LineEnd(s[1..])
  }

  /**
   * `s.splitlines()`: the lines of `s` without their terminators; "\r\n"
   * counts as one terminator and a final terminator opens no empty line.
   */
  function SplitLines(s: string): (lines: seq<string>)
    ensures forall i :: 0 <= i < |lines| ==> NoLineBreak(lines[i])
    decreases |s|
  {
    if s == [] then []
    else
      var n := LineEnd(s);
      if n == |s| then [s]
      else
        var next := if s[n] == '\r' && n + 1 < |s| && s[n + 1] == '\n' then n + 2 else n + 1;
        [s[..n]] + SplitLines(s[next..])
  }

  /** Each line followed by "\n". */
  function Terminated(lines: seq<string>): string {
    if lines == [] then "" else lines[0] + "\n" + Terminated(lines[1..])
  }

  /** A break-free line followed by "\n" comes off first. */
  lemma SplitLinesStep(l: string, rest: string)
    requires NoLineBreak(l)
    ensures SplitLines(l + "\n" + rest) == [l] + SplitLines(rest)
  {
    var s := l + "\n" + rest;
    assert s[|l|] == '\n';
    assert LineEnd(s) == |l| by {
      assert forall i :: 0 <= i < |l| ==> s[i] == l[i];
    }
    assert s[..|l|] == l;
    assert s[|l| + 1..] == rest;
  }

  /** A non-empty break-free text is one line. */
  lemma SplitLinesSingle(l: string)
    requires l != [] && NoLineBreak(l)
    ensures SplitLines(l) == [l]
  {
    assert LineEnd(l) == |l|;
  }

  /** A break-free line followed by "\r\n" comes off first: the pair is one terminator. */
  lemma SplitLinesCrLf(l: string, rest: string)
    requires NoLineBreak(l)
    ensures SplitLines(l + "\r\n" + rest) == [l] + SplitLines(rest)
  {
    var s := l + "\r\n" + rest;
    assert s[|l|] == '\r' && s[|l| + 1] == '\n';
    assert LineEnd(s) == |l| by {
      assert forall i :: 0 <= i < |l| ==> s[i] == l[i];
    }
    assert s[..|l|] == l;
    assert s[|l| + 2..] == rest;
  }

  /**
   * A break-free line followed by any other single terminator comes off
   * first (a "\r" only when no "\n" follows it).
   */
  lemma SplitLinesBreak(l: string, c: char, rest: string)
    requires NoLineBreak(l) && IsLineBreak(c)
    requires c == '\r' ==> rest == [] || rest[0] != '\n'
    ensures SplitLines(l + [c] + rest) == [l] + SplitLines(rest)
  {
    var s := l + [c] + rest;
    assert s[|l|] == c;
    assert LineEnd(s) == |l| by {
      assert forall i :: 0 <= i < |l| ==> s[i] == l[i];
    }
    assert s[..|l|] == l;
    assert s[|l| + 1..] == rest;
  }

  /** Lines written out one per "\n"-terminated row are split back exactly. */
  lemma {:induction false} SplitLinesOfTerminated(lines: seq<string>)
    requires forall i :: 0 <= i < |lines| ==> NoLineBreak(lines[i])
    ensures SplitLines(Terminated(lines)) == lines
  {
    if lines != [] {
      SplitLinesStep(lines[0], Terminated(lines[1..]));
      SplitLinesOfTerminated(lines[1..]);
    }
  }

  /**
   * Lines written out one per "\n"-terminated row, then a last line with no
   * terminator, are split back exactly; an empty last line adds none.
   */
  lemma {:induction false} SplitLinesOfText(lines: seq<string>, last: string)
    requires forall i :: 0 <= i < |lines| ==> NoLineBreak(lines[i])
    requires NoLineBreak(last)
    ensures SplitLines(Terminated(lines) + last) == lines + (if last == [] then [] else [last])
  {
    if lines == [] {
      assert Terminated(lines) + last == last;
      if last != [] {
        SplitLinesSingle(last);
      }
    } else {
      var rest := Terminated(lines[1..]) + last;
      assert Terminated(lines) + last == lines[0] + "\n" + rest;
      SplitLinesStep(lines[0], rest);
      SplitLinesOfText(lines[1..], last);
      assert lines == [lines[0]] + lines[1..];
    }
  }

  // ---------------------------------------------------------------------------
  // replace, title

  /** `s.replace(a, b)` for one-character `a` and `b`. */
  function ReplaceChar(s: string, a: char, b: char): (r: string)
    ensures |r| == |s|
    ensures forall i :: 0 <= i < |s| ==> r[i] == (if s[i] == a then b else s[i])
  {
    seq(|s|, i requires 0 <= i < |s| => if s[i] == a then b else s[i])
  }

  predicate IsUpper(c: char) { 'A' <= c <= 'Z' }
  predicate IsLower(c: char) { 'a' <= c <= 'z' }

  function ToUpper(c: char): char { if IsLower(c) then (c as int - 32) as char else c }
  function ToLower(c: char): char { if IsUpper(c) then (c as int + 32) as char else c }

  /** `s.title()` for ASCII: a letter after a letter is lowered, any other letter raised. */
  function Title(s: string): string {
    TitleAfter(s, false)
  }

  function TitleAfter(s: string, afterLetter: bool): string {
    if s == [] then []
    else
      var c := s[0];
      var letter := IsUpper(c) || IsLower(c);
      [if !letter then c else if afterLetter then ToLower(c) else ToUpper(c)]
        + TitleAfter(s[1..], letter)
  }

  // ---------------------------------------------------------------------------
  // ordering of strings by code point, as Python compares `str`

  predicate StrLess(a: string, b: string) {
    if a == [] then b != []
    else if b == [] then false
    else a[0] < b[0] || (a[0] == b[0] && StrLess(a[1..], b[1..]))
  }

  lemma {:induction false} StrLessIrreflexive(a: string)
    ensures !StrLess(a, a)
  {
    if a != [] { StrLessIrreflexive(a[1..]); }
  }

  lemma {:induction false} StrLessTransitive(a: string, b: string, c: string)
    requires StrLess(a, b) && StrLess(b, c)
    ensures StrLess(a, c)
  {
    if a != [] && a[0] == b[0] && b[0] == c[0] {
      StrLessTransitive(a[1..], b[1..], c[1..]);
    }
  }

  lemma {:induction false} StrLessTotal(a: string, b: string)
    requires a != b
    ensures StrLess(a, b) || StrLess(b, a)
  {
    if a != [] && b != [] && a[0] == b[0] {
      StrLessTotal(a[1..], b[1..]);
    }
  }
}
