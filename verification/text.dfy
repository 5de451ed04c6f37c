/**
 * Character classes and string operations with the meaning that Python's
 * `str` methods and `re` character classes give them.
 *
 * Word characters (`\w`), digits (`\d`) and case mapping are restricted to
 * ASCII; whitespace (`\s`, `str.strip`, `str.isspace`) and line boundaries
 * (`str.splitlines`) use Python's full sets.
 */
module Text {

  /** Python's `str.isspace` and the `\s` class of `re`. */
  predicate IsSpace(c: char)
  {
    var n := c as int;
    (9 <= n <= 13) || (28 <= n <= 32) || n == 0x85 || n == 0xA0 || n == 0x1680
    || (0x2000 <= n <= 0x200A) || n == 0x2028 || n == 0x2029 || n == 0x202F
    || n == 0x205F || n == 0x3000
  }

  /** The characters at which `str.splitlines` ends a line. */
  predicate IsLineBreak(c: char)
  {
    var n := c as int;
    (10 <= n <= 13) || (28 <= n <= 30) || n == 0x85 || n == 0x2028 || n == 0x2029
  }

  predicate IsDigit(c: char) { '0' <= c <= '9' }

  predicate IsLetter(c: char) { 'a' <= c <= 'z' || 'A' <= c <= 'Z' }

  /** The `\w` class: letters, digits and the underscore. */
  predicate IsWordChar(c: char) { IsLetter(c) || IsDigit(c) || c == '_' }

  function Lower(c: char): (r: char)
    ensures IsWordChar(r) <==> IsWordChar(c)
  {
    if 'A' <= c <= 'Z' then (c as int + 32) as char else c
  }

  function Upper(c: char): (r: char)
    ensures IsWordChar(r) <==> IsWordChar(c)
  {
    if 'a' <= c <= 'z' then (c as int - 32) as char else c
  }

  /** `str.lower()`. */
  function LowerStr(s: string): (r: string)
    ensures |r| == |s|
    ensures forall i :: 0 <= i < |s| ==> r[i] == Lower(s[i])
  {
    seq(|s|, i requires 0 <= i < |s| => Lower(s[i]))
  }

  /** `str.upper()`. */
  function UpperStr(s: string): (r: string)
    ensures |r| == |s|
    ensures forall i :: 0 <= i < |s| ==> r[i] == Upper(s[i])
  {
    seq(|s|, i requires 0 <= i < |s| => Upper(s[i]))
  }

  /** Lower-casing forgets what upper-casing did: `s.upper().lower() == s.lower()`. */
  lemma LowerOfUpper(s: string)
    ensures LowerStr(UpperStr(s)) == LowerStr(s)
  {
    forall i | 0 <= i < |s|
      ensures LowerStr(UpperStr(s))[i] == LowerStr(s)[i]
    {
      var c := s[i];
      if 'a' <= c <= 'z' {
        assert Upper(c) as int == c as int - 32;
      }
    }
  }

  /** `s.startswith(p)`. */
  predicate StartsWith(s: string, p: string)
  {
    |p| <= |s| && s[..|p|] == p
  }

  lemma StartsWithConcat(a: string, b: string)
    ensures StartsWith(a + b, a)
  {
    assert (a + b)[..|a|] == a;
  }

  /** `s.endswith(p)`. */
  predicate EndsWith(s: string, p: string)
  {
    |p| <= |s| && s[|s| - |p|..] == p
  }

  /** `sub in s`. */
  predicate Contains(s: string, sub: string)
    decreases |s|
  {
    StartsWith(s, sub) || (|s| > 0 && Contains(s[1..], sub))
  }

  /** `lit` occurs at position `i` of `s`, compared without regard to case (`re.IGNORECASE`). */
  predicate MatchesAt(s: string, i: nat, lit: string)
  {
    i + |lit| <= |s| && LowerStr(s[i..i + |lit|]) == LowerStr(lit)
  }

  /** The end of the run of whitespace that starts at `i`. */
  function SkipSpaces(s: string, i: nat): (j: nat)
    requires i <= |s|
    ensures i <= j <= |s|
    ensures forall k :: i <= k < j ==> IsSpace(s[k])
    ensures j < |s| ==> !IsSpace(s[j])
    decreases |s| - i
  {
    if i < |s| && IsSpace(s[i]) then SkipSpaces(s, i + 1) else i
  }

  /** The end of the run of word characters that starts at `i`. */
  function SkipWord(s: string, i: nat): (j: nat)
    requires i <= |s|
    ensures i <= j <= |s|
    ensures forall k :: i <= k < j ==> IsWordChar(s[k])
    ensures j < |s| ==> !IsWordChar(s[j])
    decreases |s| - i
  {
    if i < |s| && IsWordChar(s[i]) then SkipWord(s, i + 1) else i
  }

  /** The end of the run of digits that starts at `i`. */
  function SkipDigits(s: string, i: nat): (j: nat)
    requires i <= |s|
    ensures i <= j <= |s|
    ensures forall k :: i <= k < j ==> IsDigit(s[k])
    ensures j < |s| ==> !IsDigit(s[j])
    decreases |s| - i
  {
    if i < |s| && IsDigit(s[i]) then SkipDigits(s, i + 1) else i
  }

  /** The start of the run of whitespace that ends at `j`, not going below `lo`. */
  function BackSpaces(s: string, lo: nat, j: nat): (i: nat)
    requires lo <= j <= |s|
    ensures lo <= i <= j
    ensures forall k :: i <= k < j ==> IsSpace(s[k])
    ensures lo < i ==> !IsSpace(s[i - 1])
    decreases j
  {
    if lo < j && IsSpace(s[j - 1]) then BackSpaces(s, lo, j - 1) else j
  }

  /** `str.strip()`: the text between the leading and the trailing whitespace. */
  function Strip(s: string): (r: string)
    ensures |r| <= |s|
    ensures r != [] ==> !IsSpace(r[0]) && !IsSpace(r[|r| - 1])
    decreases |s|
  {
    if s == [] then s
    else if IsSpace(s[0]) then Strip(s[1..])
    else if IsSpace(s[|s| - 1]) then Strip(s[..|s| - 1])
    else s
  }

  predicate AllSpace(s: string)
  {
    forall k :: 0 <= k < |s| ==> IsSpace(s[k])
  }

  /** `strip()` keeps the slice `s[i..j]` and drops the whitespace runs `s[..i]` and `s[j..]`. */
  predicate StripsTo(s: string, i: nat, j: nat)
  {
    i <= j <= |s| && Strip(s) == s[i..j] && AllSpace(s[..i]) && AllSpace(s[j..])
  }

  /** `strip()` removes exactly a run of whitespace at each end. */
  lemma {:induction false} StripSpec(s: string)
    ensures exists i, j :: StripsTo(s, i, j)
    decreases |s|
  {
    if s == [] {
      assert StripsTo(s, 0, 0);
    } else if IsSpace(s[0]) {
      StripSpec(s[1..]);
      var i, j :| StripsTo(s[1..], i, j);
      StripFront(s, i, j);
    } else if IsSpace(s[|s| - 1]) {
      StripSpec(s[..|s| - 1]);
      var i, j :| StripsTo(s[..|s| - 1], i, j);
      StripBack(s, i, j);
    } else {
      assert StripsTo(s, 0, |s|);
    }
  }

  lemma StripFront(s: string, i: nat, j: nat)
    requires s != [] && IsSpace(s[0]) && StripsTo(s[1..], i, j)
    ensures StripsTo(s, i + 1, j + 1)
  {
    var t := s[1..];
    assert Strip(s) == Strip(t);
    assert s[i + 1..j + 1] == t[i..j] by {
      forall k | 0 <= k < j - i
        ensures s[i + 1..j + 1][k] == t[i..j][k]
      {
        assert t[i + k] == s[1 + i + k];
      }
    }
    assert s[..i + 1] == [s[0]] + t[..i];
    assert s[j + 1..] == t[j..];
  }

  lemma StripBack(s: string, i: nat, j: nat)
    requires s != [] && !IsSpace(s[0]) && IsSpace(s[|s| - 1]) && StripsTo(s[..|s| - 1], i, j)
    ensures StripsTo(s, i, j)
  {
    var t := s[..|s| - 1];
    assert s[..i] == t[..i];
    assert s[j..] == t[j..] + [s[|s| - 1]];
    assert s[i..j] == t[i..j];
  }

  /** Text without any whitespace at either end is its own `strip()`. */
  lemma StripOfStripped(s: string)
    requires s != [] ==> !IsSpace(s[0]) && !IsSpace(s[|s| - 1])
    ensures Strip(s) == s
  {
  }

  /** `sep.join(parts)`, written as the repeated appending it amounts to. */
  function Join(sep: string, parts: seq<string>): string
  {
    if |parts| == 0 then ""
    else if |parts| == 1 then parts[0]
    else Join(sep, parts[..|parts| - 1]) + sep + parts[|parts| - 1]
  }

  /** The length of the line boundary at position `i`: 2 for "\r\n", 1 for another break, else 0. */
  function BreakLength(s: string, i: nat): nat
    requires i < |s|
  {
    if s[i] == '\r' && i + 1 < |s| && s[i + 1] == '\n' then 2
    else if IsLineBreak(s[i]) then 1
    else 0
  }

  /** The first position at or after `i` that holds a line break, or `|s|`. */
  function NextBreak(s: string, i: nat): (j: nat)
    requires i <= |s|
    ensures i <= j <= |s|
    ensures forall k :: i <= k < j ==> !IsLineBreak(s[k])
    ensures j < |s| ==> IsLineBreak(s[j])
    decreases |s| - i
  {
    if i == |s| || IsLineBreak(s[i]) then i else NextBreak(s, i + 1)
  }

  /** `str.splitlines()`: no trailing empty line, and "" has no lines. */
  function SplitLines(s: string): (lines: seq<string>)
    ensures forall l :: l in lines ==> forall k :: 0 <= k < |l| ==> !IsLineBreak(l[k])
    decreases |s|
  {
    if s == [] then []
    else
      var k := NextBreak(s, 0);
      if k == |s| then [s]
      else
        assert BreakLength(s, k) > 0;
        [s[..k]] + SplitLines(s[k + BreakLength(s, k)..])
  }

  /** Text without a line break is a single line (or none, when empty). */
  lemma SplitSingleLine(s: string)
    requires forall k :: 0 <= k < |s| ==> !IsLineBreak(s[k])
    ensures SplitLines(s) == if s == [] then [] else [s]
  {
    if s != [] {
      assert NextBreak(s, 0) == |s|;
    }
  }

  /** Each line followed by "\n", concatenated: what a loop of `text += line + "\n"` builds. */
  function Unlines(lines: seq<string>): string
    decreases |lines|
  {
    if lines == [] then "" else Unlines(lines[..|lines| - 1]) + lines[|lines| - 1] + "\n"
  }

  /** Appending one more line appends it and its "\n". */
  lemma UnlinesSnoc(lines: seq<string>, line: string)
    ensures Unlines(lines + [line]) == Unlines(lines) + line + "\n"
  {
    assert (lines + [line])[..|lines|] == lines;
  }

  /** Text without line-break characters. */
  predicate SingleLine(s: string)
  {
    forall k :: 0 <= k < |s| ==> !IsLineBreak(s[k])
  }

  /** Concatenating single-line pieces gives a single line. */
  lemma SingleLineConcat(a: string, b: string)
    requires SingleLine(a) && SingleLine(b)
    ensures SingleLine(a + b)
  {
    assert forall k :: 0 <= k < |a + b| ==> (a + b)[k] == if k < |a| then a[k] else b[k - |a|];
  }

  /** Rendering two runs of lines is rendering each and concatenating. */
  lemma {:induction false} UnlinesAppend(a: seq<string>, b: seq<string>)
    ensures Unlines(a + b) == Unlines(a) + Unlines(b)
    decreases |b|
  {
    if b != [] {
      var n := |b| - 1;
      assert (a + b)[..|a + b| - 1] == a + b[..n];
      UnlinesAppend(a, b[..n]);
    } else {
      assert a + b == a;
    }
  }

  /** A line without break characters, then "\n", then more text: the line is the first of `splitlines`. */
  lemma SplitLinesFirst(line: string, rest: string)
    requires forall k :: 0 <= k < |line| ==> !IsLineBreak(line[k])
    ensures SplitLines(line + "\n" + rest) == [line] + SplitLines(rest)
  {
    var s := line + "\n" + rest;
    assert s[|line|] == '\n';
    assert NextBreak(s, 0) == |line| by {
      assert forall k :: 0 <= k < |line| ==> s[k] == line[k];
    }
    assert BreakLength(s, |line|) == 1;
    assert s[..|line|] == line;
    assert s[|line| + 1..] == rest;
  }

  /** `splitlines` recovers the lines that `Unlines` rendered, when none holds a break character. */
  lemma {:induction false} SplitUnlines(lines: seq<string>)
    requires forall l :: l in lines ==> forall k :: 0 <= k < |l| ==> !IsLineBreak(l[k])
    ensures SplitLines(Unlines(lines)) == lines
    decreases |lines|
  {
    if lines != [] {
      UnlinesAppend([lines[0]], lines[1..]);
      assert [lines[0]] + lines[1..] == lines;
      assert Unlines([lines[0]]) == lines[0] + "\n" by {
        assert [lines[0]][..0] == [];
      }
      SplitLinesFirst(lines[0], Unlines(lines[1..]));
      SplitUnlines(lines[1..]);
    }
  }

  /** `re.findall(r'\b\w+\b', s)`: the maximal runs of word characters, in order. */
  function WordTokens(s: string): (tokens: seq<string>)
    ensures forall t :: t in tokens ==> t != [] && forall k :: 0 <= k < |t| ==> IsWordChar(t[k])
    decreases |s|
  {
    if s == [] then []
    else if !IsWordChar(s[0]) then WordTokens(s[1..])
    else
      var n := SkipWord(s, 0);
      [s[..n]] + WordTokens(s[n..])
  }

  /** Each string of `ts` lower-cased. */
  function LowerAll(ts: seq<string>): (r: seq<string>)
    ensures |r| == |ts|
  {
    if ts == [] then [] else [LowerStr(ts[0])] + LowerAll(ts[1..])
  }

  lemma {:induction false} LowerAllAt(ts: seq<string>, i: nat)
    requires i < |ts|
    ensures LowerAll(ts)[i] == LowerStr(ts[i])
    decreases i
  {
    if i > 0 {
      LowerAllAt(ts[1..], i - 1);
    }
  }

  /** Lower-casing twice is lower-casing once. */
  lemma LowerStrIdempotent(s: string)
    ensures LowerStr(LowerStr(s)) == LowerStr(s)
  {
    forall i | 0 <= i < |s|
      ensures LowerStr(LowerStr(s))[i] == LowerStr(s)[i]
    {
      var c := s[i];
      if 'A' <= c <= 'Z' {
        assert Lower(c) as int == c as int + 32;
      }
    }
  }

  /** Lower-casing does not move the end of a word run. */
  lemma {:induction false} SkipWordLower(s: string, i: nat)
    requires i <= |s|
    ensures SkipWord(LowerStr(s), i) == SkipWord(s, i)
    decreases |s| - i
  {
    if i < |s| && IsWordChar(s[i]) {
      SkipWordLower(s, i + 1);
    }
  }

  /**
   * Tokenising the lower-cased text gives the lower-cased tokens:
   * `re.findall(r'\w+', s.lower()) == [t.lower() for t in re.findall(r'\w+', s)]`.
   */
  lemma {:induction false} WordTokensLower(s: string)
    ensures WordTokens(LowerStr(s)) == LowerAll(WordTokens(s))
    decreases |s|
  {
    var ls := LowerStr(s);
    if s != [] {
      assert ls[0] == Lower(s[0]);
      if !IsWordChar(s[0]) {
        assert ls[1..] == LowerStr(s[1..]);
        WordTokensLower(s[1..]);
        assert WordTokens(ls) == WordTokens(ls[1..]);
      } else {
        var n := SkipWord(s, 0);
        SkipWordLower(s, 0);
        assert WordTokens(ls) == [ls[..n]] + WordTokens(ls[n..]);
        assert ls[..n] == LowerStr(s[..n]);
        assert ls[n..] == LowerStr(s[n..]);
        WordTokensLower(s[n..]);
        var rest := WordTokens(s[n..]);
        assert WordTokens(s) == [s[..n]] + rest;
        assert ([s[..n]] + rest)[1..] == rest;
      }
    }
  }

  /** The decimal digit for `d`. */
  function DigitChar(d: nat): char
    requires d < 10
  {
    ('0' as int + d) as char
  }

  /** `str(n)` for a natural number. */
  function NatToString(n: nat): (s: string)
    ensures s != []
    ensures forall k :: 0 <= k < |s| ==> IsDigit(s[k])
  {
    if n < 10 then [DigitChar(n)] else NatToString(n / 10) + [DigitChar(n % 10)]
  }

  /** `int(s)` for a string of digits. */
  function ParseNat(s: string): nat
    requires forall k :: 0 <= k < |s| ==> IsDigit(s[k])
  {
    if s == [] then 0
    else
      assert IsDigit(s[|s| - 1]);
      ParseNat(s[..|s| - 1]) * 10 + (s[|s| - 1] as int - '0' as int)
  }

  /** Printing a count and reading it back gives the count. */
  lemma {:induction false} ParseNatToString(n: nat)
    ensures ParseNat(NatToString(n)) == n
  {
    if n >= 10 {
      var s := NatToString(n);
      assert s[..|s| - 1] == NatToString(n / 10);
      ParseNatToString(n / 10);
    }
  }
}
