/**
 * The few Kotlin standard-library string operations the core relies on
 * (`startsWith`, `joinToString`, `replace`, `substringAfter`, `lowercase`, `uppercaseChar`,
 * `equals(ignoreCase = true)`, `isBlank`, `trim`, `lineSequence`), stated on `seq<char>`.
 */
module Text {

  predicate StartsWith(s: string, prefix: string) {
    |prefix| <= |s| && s[..|prefix|] == prefix
  }

  predicate EndsWith(s: string, suffix: string) {
    |suffix| <= |s| && s[|s| - |suffix|..] == suffix
  }

  /** `joinToString(sep)`: the elements with `sep` between neighbours. */
  function JoinWith(parts: seq<string>, sep: string): string {
    if |parts| == 0 then ""
    else if |parts| == 1 then parts[0]
    else parts[0] + sep + JoinWith(parts[1..], sep)
  }

  /** `s.replace(old, new)` for a one-character `target`: every occurrence of `target` becomes `replacement`. */
  function ReplaceChar(s: string, target: char, replacement: string): (r: string)
    ensures target !in s ==> r == s
    ensures target !in replacement ==> target !in r
  {
    if s == [] then []
    else (if s[0] == target then replacement else [s[0]]) + ReplaceChar(s[1..], target, replacement)
  }

  lemma {:induction false} ReplaceCharAppend(a: string, b: string, target: char, replacement: string)
    ensures ReplaceChar(a + b, target, replacement) == ReplaceChar(a, target, replacement) + ReplaceChar(b, target, replacement)
  {
    if a == [] {
      assert a + b == b;
    } else {
      assert (a + b)[0] == a[0] && (a + b)[1..] == a[1..] + b;
      ReplaceCharAppend(a[1..], b, target, replacement);
    }
  }

  /** `s.substringAfter(d)`: what follows the first `d`, or all of `s` when there is none. */
  function SubstringAfter(s: string, d: char): (r: string)
    ensures |r| <= |s|
  {
    if s == [] then s
    else if s[0] == d then s[1..]
    else var rest := SubstringAfter(s[1..], d);
      if d in s[1..] then rest else s
  }

  /** After a prefix whose only `=` is its last character, `substringAfter('=')` is the rest. */
  lemma {:induction false} SubstringAfterPrefix(s: string, prefix: string)
    requires StartsWith(s, prefix) && |prefix| > 0
    requires prefix[|prefix| - 1] == '=' && '=' !in prefix[..|prefix| - 1]
    ensures SubstringAfter(s, '=') == s[|prefix|..]
  {
    if |prefix| > 1 {
      assert s[0] == prefix[0] != '=';
      assert '=' in s[1..] by { assert s[1..][|prefix| - 2] == '='; }
      SubstringAfterPrefix(s[1..], prefix[1..]);
    }
  }

  /**
   * `Char.uppercaseChar()` for the characters whose upper case is an ASCII letter: the ASCII
   * letters, the dotless `ı` (U+0131) and the long `ſ` (U+017F). Every other character is kept.
   */
  function UppercaseChar(c: char): char {
    if 'a' <= c <= 'z' then (c as int - 32) as char
    else if c == '\U{0131}' then 'I'
    else if c == '\U{017F}' then 'S'
    else c
  }

  /**
   * `Char.lowercaseChar()` for the characters whose lower case is an ASCII letter: the ASCII
   * letters, the dotted `İ` (U+0130) and the Kelvin sign (U+212A). Every other character is kept.
   */
  function LowercaseChar(c: char): char {
    if 'A' <= c <= 'Z' then (c as int + 32) as char
    else if c == '\U{0130}' then 'i'
    else if c == '\U{212A}' then 'k'
    else c
  }

  /** One character of `String.lowercase()`: the dotted `İ` becomes `i` and a combining dot (U+0307). */
  function LowercaseOf(c: char): (r: string)
    ensures |r| >= 1
  {
    if c == '\U{0130}' then ['i', '\U{0307}'] else [LowercaseChar(c)]
  }

  /** `s.lowercase()`. */
  function Lowercase(s: string): (r: string)
    ensures |r| >= |s|
  {
    if s == [] then [] else LowercaseOf(s[0]) + Lowercase(s[1..])
  }

  /**
   * `lowercase()` gives a word of ASCII letters exactly when the text is as long as the word
   * and each of its characters other than `İ` lower-cases to the word's letter there.
   */
  lemma {:induction false} LowercaseIs(s: string, w: string)
    requires forall i :: 0 <= i < |w| ==> 'a' <= w[i] <= 'z'
    ensures Lowercase(s) == w <==>
      |s| == |w| && forall i :: 0 <= i < |s| ==> s[i] != '\U{0130}' && LowercaseChar(s[i]) == w[i]
  {
    if s != [] && w != [] {
      LowercaseIs(s[1..], w[1..]);
      if s[0] != '\U{0130}' {
        assert Lowercase(s) == [LowercaseChar(s[0])] + Lowercase(s[1..]);
        if Lowercase(s) == w {
          assert Lowercase(s[1..]) == w[1..];
        }
        if |s| == |w| && forall i :: 0 <= i < |s| ==> s[i] != '\U{0130}' && LowercaseChar(s[i]) == w[i] {
          assert forall i :: 0 <= i < |s| - 1 ==> s[1..][i] == s[i + 1] && w[1..][i] == w[i + 1];
          assert [w[0]] + w[1..] == w;
        }
      } else {
        assert Lowercase(s)[1] == '\U{0307}';
      }
    }
  }

  /**
   * `Char.equals(other, ignoreCase = true)`: equal, or equal after upper-casing both, or equal
   * after upper- and then lower-casing both. Exact when one of the two is an ASCII character.
   */
  predicate CharEqualsIgnoreCase(a: char, b: char) {
    var ua, ub := UppercaseChar(a), UppercaseChar(b);
    a == b || ua == ub || LowercaseChar(ua) == LowercaseChar(ub)
  }

  /** `a.equals(b, ignoreCase = true)`: the same length, and equal character by character. */
  predicate EqualsIgnoreCase(a: string, b: string) {
    |a| == |b| && forall i :: 0 <= i < |a| ==> CharEqualsIgnoreCase(a[i], b[i])
  }

  /**
   * The characters equal to an ASCII lower-case letter when case is ignored: the letter, its
   * upper case, and the three characters that fold onto `i`, `s` or `k`.
   */
  lemma FoldOntoAsciiLetter(a: char, b: char)
    requires 'a' <= b <= 'z'
    ensures CharEqualsIgnoreCase(a, b) <==>
      || a == b || a == (b as int - 32) as char
      || (b == 'i' && (a == '\U{0130}' || a == '\U{0131}'))
      || (b == 's' && a == '\U{017F}')
      || (b == 'k' && a == '\U{212A}')
  {
  }

  /** `Char.isWhitespace()`: the Unicode white-space characters as Kotlin lists them. */
  predicate IsWhitespace(c: char) {
    var n := c as int;
    (0x09 <= n <= 0x0d) || (0x1c <= n <= 0x20) || n == 0xa0 || n == 0x1680
    || (0x2000 <= n <= 0x200a) || n == 0x2028 || n == 0x2029 || n == 0x202f
    || n == 0x205f || n == 0x3000
  }

  /** `isBlank()`: empty, or white space only. */
  predicate IsBlank(s: string) {
    forall i :: 0 <= i < |s| ==> IsWhitespace(s[i])
  }

  function TrimStart(s: string): (r: string)
    ensures |r| <= |s| && r == s[|s| - |r|..]
    ensures r == [] || !IsWhitespace(r[0])
    ensures IsBlank(s[..|s| - |r|])
  {
    if s != [] && IsWhitespace(s[0]) then
      var t := s[1..];
      var r := TrimStart(t);
      var pre, rest := s[..|s| - |r|], t[..|t| - |r|];
      assert forall k :: 1 <= k < |pre| ==> pre[k] == rest[k - 1];
      r
    else s
  }

  function TrimEnd(s: string): (r: string)
    ensures |r| <= |s| && r == s[..|r|]
    ensures r == [] || !IsWhitespace(r[|r| - 1])
    ensures IsBlank(s[|r|..])
  {
    if s != [] && IsWhitespace(s[|s| - 1]) then
      var t := s[..|s| - 1];
      var r := TrimEnd(t);
      assert forall k :: 0 <= k < |s| - |r| ==> s[|r|..][k] == if k < |t| - |r| then t[|r|..][k] else s[|s| - 1];
      r
    else s
  }

  /** `trim()`: the longest infix with white space at neither end. */
  function Trim(s: string): (r: string)
    ensures r == [] || (!IsWhitespace(r[0]) && !IsWhitespace(r[|r| - 1]))
    ensures r == [] <==> IsBlank(s)
  {
    var t := TrimStart(s);
    var r := TrimEnd(t);
    assert r == [] ==> IsBlank(s) by {
      if r == [] {
        assert t == [] by { assert t[|r|..] == t; }
        assert s[..|s|] == s;
      }
    }
    r
  }
  /** `trim()` keeps an infix of the text and drops white space only, on both sides. */
  lemma TrimIsInfix(s: string)
    ensures exists i :: 0 <= i <= |s| - |Trim(s)| && Trim(s) == s[i..i + |Trim(s)|] &&
                        IsBlank(s[..i]) && IsBlank(s[i + |Trim(s)|..])
  {
    TrimAt(s);
    assert Infix(s, Trim(s), |s| - |TrimStart(s)|);
  }

  /** `r` sits at `i` in `s` with only white space around it. */
  predicate Infix(s: string, r: string, i: int) {
    0 <= i <= |s| - |r| && r == s[i..i + |r|] && IsBlank(s[..i]) && IsBlank(s[i + |r|..])
  }

  /** Where `trim()` starts: after the leading white space. */
  lemma TrimAt(s: string)
    ensures Infix(s, Trim(s), |s| - |TrimStart(s)|)
  {
    var t := TrimStart(s);
    var r := TrimEnd(t);
    assert r == Trim(s);
    InfixOfSuffix(s, t, r);
  }

  /** A prefix of a suffix, with white space before the suffix and after the prefix, is such an infix. */
  lemma InfixOfSuffix(s: string, t: string, r: string)
    requires |t| <= |s| && t == s[|s| - |t|..] && IsBlank(s[..|s| - |t|])
    requires |r| <= |t| && r == t[..|r|] && IsBlank(t[|r|..])
    ensures Infix(s, r, |s| - |t|)
  {
    SliceOfSuffix(s, |s| - |t|, |r|);
  }

  /** The first `n` characters of the suffix from `i` and the rest of it. */
  lemma SliceOfSuffix(s: string, i: nat, n: nat)
    requires i + n <= |s|
    ensures s[i..][..n] == s[i..i + n] && s[i..][n..] == s[i + n..]
  {
  }

  lemma MulSucc(k: int, n: int)
    ensures k * (n + 1) == k * n + k
  {
  }

  /** Each occurrence of the character is replaced by the whole replacement text, and nothing else changes length. */
  lemma {:induction false} ReplaceCharCount(s: string, target: char, replacement: string)
    ensures |ReplaceChar(s, target, replacement)| == |s| + (|replacement| - 1) * multiset(s)[target]
  {
    if s != [] {
      var k, n := |replacement| - 1, multiset(s[1..])[target];
      var rest := ReplaceChar(s[1..], target, replacement);
      ReplaceCharCount(s[1..], target, replacement);
      assert |rest| == |s| - 1 + k * n;
      CountHead(s, target);
      if s[0] == target {
        assert |ReplaceChar(s, target, replacement)| == k + 1 + |rest|;
        MulSucc(k, n);
      } else {
        assert |ReplaceChar(s, target, replacement)| == 1 + |rest|;
      }
    }
  }

  /** The occurrences of `c` in a non-empty text: the first character's and the rest's. */
  lemma CountHead(s: string, c: char)
    requires s != []
    ensures multiset(s)[c] == (if s[0] == c then 1 else 0) + multiset(s[1..])[c]
  {
    assert s == [s[0]] + s[1..];
  }


}

/** `lineSequence()`: splitting captured output into lines. */
module LineSplit {

  predicate IsLineBreak(c: char) { c == '\n' || c == '\r' }

  /** Index of the first line-break character of `s`, or `|s|` when there is none. */
  function FirstBreak(s: string): (k: nat)
    ensures k <= |s|
    ensures k < |s| ==> IsLineBreak(s[k])
  {
    if s == [] || IsLineBreak(s[0]) then 0 else 1 + FirstBreak(s[1..])
  }

  /** The characters before the first line break are not line breaks. */
  lemma {:induction false} FirstBreakIsFirst(s: string)
    ensures forall i :: 0 <= i < FirstBreak(s) ==> !IsLineBreak(s[i])
  {
    if s != [] && !IsLineBreak(s[0]) {
      FirstBreakIsFirst(s[1..]);
    }
  }

  /** Width of the line terminator that starts at `s[k]`: 2 for "\r\n", else 1. */
  function BreakWidth(s: string, k: nat): (w: nat)
    requires k < |s|
    ensures 1 <= w <= 2 && k + w <= |s|
  {
    if s[k] == '\r' && k + 1 < |s| && s[k + 1] == '\n' then 2 else 1
  }

  /**
   * `lineSequence()`: the pieces between the line terminators "\r\n", "\n" and "\r"
   * (a "\r" directly followed by "\n" being one terminator). There is always at least one piece.
   */
  function Lines(s: string): (ls: seq<string>)
    ensures |ls| >= 1
    decreases |s|
  {
    var k := FirstBreak(s);
    if k == |s| then [s] else [s[..k]] + Lines(s[k + BreakWidth(s, k)..])
  }

  /** No piece that `Lines` gives contains a line-break character. */
  lemma {:induction false} LinesHaveNoBreaks(s: string)
    ensures forall j, i :: 0 <= j < |Lines(s)| && 0 <= i < |Lines(s)[j]| ==> !IsLineBreak(Lines(s)[j][i])
    decreases |s|
  {
    var k := FirstBreak(s);
    FirstBreakIsFirst(s);
    if k < |s| {
      LinesHaveNoBreaks(s[k + BreakWidth(s, k)..]);
    }
  }

  lemma {:induction false} FirstBreakAppend(a: string, b: string)
    ensures FirstBreak(a + b) == if FirstBreak(a) < |a| then FirstBreak(a) else |a| + FirstBreak(b)
  {
    if a == [] {
      assert a + b == b;
    } else {
      assert (a + b)[0] == a[0] && (a + b)[1..] == a[1..] + b;
      FirstBreakAppend(a[1..], b);
    }
  }

  /**
   * Splitting distributes over a "\n" join, provided the left part does not end in "\r"
   * (where "\r" + "\n" would read as one terminator).
   */
  lemma {:induction false} LinesJoin(a: string, b: string)
    requires a == [] || a[|a| - 1] != '\r'
    ensures Lines(a + "\n" + b) == Lines(a) + Lines(b)
    decreases |a|
  {
    var k := FirstBreak(a);
    if k == |a| {
      LinesJoinAtBreak(a, b);
    } else {
      var w := BreakWidth(a, k);
      var a' := a[k + w..];
      LinesJoinStep(a, b, k, w);
      LinesJoin(a', b);
    }
  }

  lemma {:induction false} LinesJoinAtBreak(a: string, b: string)
    requires FirstBreak(a) == |a|
    ensures Lines(a + "\n" + b) == Lines(a) + Lines(b)
  {
    var s := a + "\n" + b;
    assert s == a + ("\n" + b);
    FirstBreakAppend(a, "\n" + b);
    assert FirstBreak(s) == |a|;
    assert BreakWidth(s, |a|) == 1;
    assert s[..|a|] == a && s[|a| + 1..] == b;
  }

  lemma {:induction false} LinesJoinStep(a: string, b: string, k: nat, w: nat)
    requires (a == [] || a[|a| - 1] != '\r') && k == FirstBreak(a) && k < |a| && w == BreakWidth(a, k)
    ensures Lines(a + "\n" + b) == [a[..k]] + Lines(a[k + w..] + "\n" + b)
    ensures Lines(a) + Lines(b) == [a[..k]] + (Lines(a[k + w..]) + Lines(b))
    ensures a[k + w..] == [] || a[k + w..][|a[k + w..]| - 1] != '\r'
    ensures |a[k + w..]| < |a|
  {
    LinesInJoin(a, b, k, w);
    LinesUnfoldAppend(a, b, k, w);
    SuffixLast(a, k + w);
  }

  lemma {:induction false} LinesUnfoldAppend(a: string, b: string, k: nat, w: nat)
    requires k == FirstBreak(a) && k < |a| && w == BreakWidth(a, k)
    ensures Lines(a) + Lines(b) == [a[..k]] + (Lines(a[k + w..]) + Lines(b))
  {
    assert Lines(a) == [a[..k]] + Lines(a[k + w..]);
    AppendAssoc([a[..k]], Lines(a[k + w..]), Lines(b));
  }

  lemma SuffixLast(a: string, j: nat)
    requires j <= |a|
    ensures a[j..] == [] || a[j..][|a[j..]| - 1] == a[|a| - 1]
  {
  }

  lemma {:induction false} LinesInJoin(a: string, b: string, k: nat, w: nat)
    requires (a == [] || a[|a| - 1] != '\r') && k == FirstBreak(a) && k < |a| && w == BreakWidth(a, k)
    ensures Lines(a + "\n" + b) == [a[..k]] + Lines(a[k + w..] + "\n" + b)
  {
    var s := a + "\n" + b;
    BreakInJoin(a, b, k, w);
    assert s[..k] == a[..k] && s[k + w..] == a[k + w..] + "\n" + b;
  }

  lemma {:induction false} BreakInJoin(a: string, b: string, k: nat, w: nat)
    requires (a == [] || a[|a| - 1] != '\r') && k == FirstBreak(a) && k < |a| && w == BreakWidth(a, k)
    ensures FirstBreak(a + "\n" + b) == k && BreakWidth(a + "\n" + b, k) == w
  {
    var s := a + "\n" + b;
    assert s == a + ("\n" + b);
    FirstBreakAppend(a, "\n" + b);
    assert s[k] == a[k];
    assert k + 1 < |a| ==> s[k + 1] == a[k + 1];
  }

  lemma AppendAssoc<T>(x: seq<T>, y: seq<T>, z: seq<T>)
    ensures (x + y) + z == x + (y + z)
  {
  }
}
