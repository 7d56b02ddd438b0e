/**
 * The few Python `str` operations the pipeline relies on, written out on
 * `seq<char>`: `in` (substring), `lower`, `upper`, `title`, `isspace`,
 * `strip`, `split`, `splitlines`, `replace(' ', '_')` and slicing.
 * Case mapping is modelled for ASCII letters only.
 */
module Strings {
  import opened Options

  /** Python's `str.isspace()` on a single character. */
  predicate IsSpace(c: char)
  {
    ('\t' <= c <= '\r') || ('\U{1c}' <= c <= '\U{1f}') || c == ' ' || c == '\U{85}' || c == '\U{a0}'
    || c == '\U{1680}' || ('\U{2000}' <= c <= '\U{200a}') || c == '\U{2028}' || c == '\U{2029}'
    || c == '\U{202f}' || c == '\U{205f}' || c == '\U{3000}'
  }

  /** The characters at which Python's `str.splitlines()` breaks a string. */
  predicate IsLineBreak(c: char)
  {
    ('\n' <= c <= '\r') || ('\U{1c}' <= c <= '\U{1e}') || c == '\U{85}' || c == '\U{2028}' || c == '\U{2029}'
  }

  predicate IsUpper(c: char) { 'A' <= c <= 'Z' }

  predicate IsLower(c: char) { 'a' <= c <= 'z' }

  predicate IsLetter(c: char) { IsUpper(c) || IsLower(c) }

  function LowerChar(c: char): (d: char)
    ensures !IsUpper(d)
    ensures IsLetter(c) <==> IsLetter(d)
  {
    if IsUpper(c) then (c as int + 32) as char else c
  }

  function UpperChar(c: char): (d: char)
    ensures !IsLower(d)
    ensures IsLetter(c) <==> IsLetter(d)
  {
    if IsLower(c) then (c as int - 32) as char else c
  }

  /** `s.lower()` */
  function Lower(s: string): (r: string)
    ensures |r| == |s|
    ensures forall i :: 0 <= i < |s| ==> r[i] == LowerChar(s[i])
  {
    seq(|s|, i requires 0 <= i < |s| => LowerChar(s[i]))
  }

  /** A string without upper-case letters is its own lower-case form. */
  lemma LowerOfLowerCase(s: string)
    requires forall i :: 0 <= i < |s| ==> !IsUpper(s[i])
    ensures Lower(s) == s
  {
  }

  /** Lower-casing twice is lower-casing once. */
  lemma LowerIdempotent(s: string)
    ensures Lower(Lower(s)) == Lower(s)
  {
    LowerOfLowerCase(Lower(s));
  }

  /** `s.upper()` */
  function Upper(s: string): (r: string)
    ensures |r| == |s|
    ensures forall i :: 0 <= i < |s| ==> r[i] == UpperChar(s[i])
  {
    seq(|s|, i requires 0 <= i < |s| => UpperChar(s[i]))
  }

  /**
   * `s.title()`: a letter is upper-cased when it starts a word (the character
   * before it is not a letter) and lower-cased otherwise.
   */
  function Title(s: string): (r: string)
    ensures |r| == |s|
    ensures forall i :: 0 <= i < |s| ==> r[i] == TitleAt(s, i)
  {
    seq(|s|, i requires 0 <= i < |s| => TitleAt(s, i))
  }

  /** The character at `i` of `s.title()`. */
  function TitleAt(s: string, i: nat): char
    requires i < |s|
  {
    if i == 0 || !IsLetter(s[i - 1]) then UpperChar(s[i]) else LowerChar(s[i])
  }

  /**
   * Title-casing twice is title-casing once: letters stay letters, so the
   * word starts are the same the second time.
   */
  lemma TitleIdempotent(s: string)
    ensures Title(Title(s)) == Title(s)
  {
    var t := Title(s);
    forall i | 0 <= i < |s|
      ensures TitleAt(t, i) == t[i]
    {
      if i > 0 {
        assert IsLetter(t[i - 1]) <==> IsLetter(s[i - 1]);
      }
    }
  }

  /** `q in p` and `p in s` give `q in s`. */
  lemma ContainsTransitive(s: string, p: string, q: string)
    requires Contains(s, p) && Contains(p, q)
    ensures Contains(s, q)
  {
    var i :| 0 <= i <= |s| && OccursAt(s, p, i);
    var j :| 0 <= j <= |p| && OccursAt(p, q, j);
    forall k | 0 <= k < |q|
      ensures s[i + j + k] == q[k]
    {
      assert s[i..i + |p|][j + k] == s[i + j + k];
      assert p[j..j + |q|][k] == p[j + k];
    }
    assert s[i + j..i + j + |q|] == q;
    assert OccursAt(s, q, i + j);
  }

  /** `s.replace(' ', '_')` */
  function SpacesToUnderscores(s: string): (r: string)
    ensures |r| == |s| && ' ' !in r
    ensures forall i :: 0 <= i < |s| ==> r[i] == if s[i] == ' ' then '_' else s[i]
  {
    seq(|s|, i requires 0 <= i < |s| => if s[i] == ' ' then '_' else s[i])
  }

  /** `s[:n]` for a non-negative `n`. */
  function Take(s: string, n: nat): (r: string)
    ensures |r| <= n && |r| <= |s|
    ensures r == s[..|r|]
    ensures |s| <= n ==> r == s
  {
    if |s| <= n then s else s[..n]
  }

  /** `p` occurs in `s` starting at index `i`. */
  predicate OccursAt(s: string, p: string, i: int)
  {
    0 <= i && i + |p| <= |s| && s[i..i + |p|] == p
  }

  /** Python's `p in s`. */
  predicate Contains(s: string, p: string)
  {
    exists i | 0 <= i <= |s| :: OccursAt(s, p, i)
  }

  /** The index of the first `c` in `s`, if any. */
  function IndexOf(s: string, c: char): (r: Option<nat>)
    ensures r.None? <==> c !in s
    ensures r.Some? ==> r.value < |s| && s[r.value] == c && c !in s[..r.value]
  {
    if |s| == 0 then None
    else if s[0] == c then Some(0)
    else
      match IndexOf(s[1..], c)
      case None => None
      case Some(k) =>
        assert s[1..][..k] == s[1..k + 1];
        Some(k + 1)
  }

  /** The number of leading characters of `s` that are white space. */
  function LeadingSpaces(s: string): (n: nat)
    ensures n <= |s|
    ensures forall i :: 0 <= i < n ==> IsSpace(s[i])
    ensures n < |s| ==> !IsSpace(s[n])
  {
    if |s| > 0 && IsSpace(s[0]) then 1 + LeadingSpaces(s[1..]) else 0
  }

  /** The number of trailing characters of `s` that are white space. */
  function TrailingSpaces(s: string): (n: nat)
    ensures n <= |s|
    ensures forall i :: |s| - n <= i < |s| ==> IsSpace(s[i])
    ensures n < |s| ==> !IsSpace(s[|s| - n - 1])
  {
    if |s| > 0 && IsSpace(s[|s| - 1]) then 1 + TrailingSpaces(s[..|s| - 1]) else 0
  }

  /**
   * `s.strip()`: the result is the slice of `s` left after removing the white
   * space at both ends, and it neither starts nor ends with white space.
   */
  function Strip(s: string): (r: string)
    ensures LeadingSpaces(s) + |r| <= |s|
    ensures r == s[LeadingSpaces(s)..LeadingSpaces(s) + |r|]
    ensures forall i :: 0 <= i < LeadingSpaces(s) ==> IsSpace(s[i])
    ensures forall i :: LeadingSpaces(s) + |r| <= i < |s| ==> IsSpace(s[i])
    ensures r != [] ==> !IsSpace(r[0]) && !IsSpace(r[|r| - 1])
  {
    var t := s[LeadingSpaces(s)..];
    t[..|t| - TrailingSpaces(t)]
  }

  /** `s.split(sep)` */
  function Split(s: string, sep: char): (pieces: seq<string>)
    ensures |pieces| >= 1
    ensures forall k :: 0 <= k < |pieces| ==> sep !in pieces[k]
    decreases |s|
  {
    match IndexOf(s, sep)
    case None => [s]
    case Some(i) => [s[..i]] + Split(s[i + 1..], sep)
  }

  /** `sep.join(pieces)` for a one-character separator. */
  function Join(pieces: seq<string>, sep: char): string
  {
    if |pieces| == 0 then ""
    else if |pieces| == 1 then pieces[0]
    else pieces[0] + [sep] + Join(pieces[1..], sep)
  }

  /** Splitting and joining again gives back the string. */
  lemma {:induction false} JoinSplit(s: string, sep: char)
    ensures Join(Split(s, sep), sep) == s
    decreases |s|
  {
    match IndexOf(s, sep)
    case None =>
    case Some(i) =>
      var rest := Split(s[i + 1..], sep);
      var pieces := Split(s, sep);
      assert pieces == [s[..i]] + rest;
      assert pieces[1..] == rest;
      JoinSplit(s[i + 1..], sep);
      calc {
        Join(pieces, sep);
        pieces[0] + [sep] + Join(rest, sep);
        s[..i] + [sep] + s[i + 1..];
        { assert s[i] == sep; }
        s;
      }
  }

  /** Joining pieces free of the separator and splitting again gives the pieces back. */
  lemma {:induction false} SplitJoin(names: seq<string>, sep: char)
    requires |names| >= 1
    requires forall k :: 0 <= k < |names| ==> sep !in names[k]
    ensures Split(Join(names, sep), sep) == names
  {
    var s := Join(names, sep);
    if |names| == 1 {
      assert s == names[0];
    } else {
      var rest := names[1..];
      assert s == names[0] + [sep] + Join(rest, sep);
      assert IndexOf(s, sep) == Some(|names[0]|) by {
        assert s[|names[0]|] == sep;
        assert s[..|names[0]|] == names[0];
      }
      assert s[..|names[0]|] == names[0];
      assert s[|names[0]| + 1..] == Join(rest, sep);
      SplitJoin(rest, sep);
      assert names == [names[0]] + rest;
    }
  }

  /** Stripping adds no character. */
  lemma StripNoNewChars(s: string, c: char)
    requires c !in s
    ensures c !in Strip(s)
  {
    var a := LeadingSpaces(s);
    assert Strip(s) == s[a..a + |Strip(s)|];
  }

  /** `s` neither starts nor ends with white space. */
  predicate Trimmed(s: string)
  {
    s == [] || (!IsSpace(s[0]) && !IsSpace(s[|s| - 1]))
  }

  /** Stripping leaves a trimmed string as it is. */
  lemma StripTrimmed(s: string)
    requires Trimmed(s)
    ensures Strip(s) == s
  {
    if s != [] {
      assert LeadingSpaces(s) == 0;
      assert s[0..] == s;
      assert TrailingSpaces(s) == 0;
    }
  }

  /** Stripping twice is stripping once. */
  lemma StripIdempotent(s: string)
    ensures Strip(Strip(s)) == Strip(s)
  {
    StripTrimmed(Strip(s));
  }

  /** The index of the first line break in `s`, if any. */
  function LineBreakIndex(s: string): (r: Option<nat>)
    ensures r.None? ==> forall i :: 0 <= i < |s| ==> !IsLineBreak(s[i])
    ensures r.Some? ==> r.value < |s| && IsLineBreak(s[r.value])
    ensures r.Some? ==> forall i :: 0 <= i < r.value ==> !IsLineBreak(s[i])
  {
    if |s| == 0 then None
    else if IsLineBreak(s[0]) then Some(0)
    else
      match LineBreakIndex(s[1..])
      case None => None
      case Some(k) => Some(k + 1)
  }

  /**
   * `s.splitlines()`, except that every line-break character ends a line:
   * "\r\n" yields one extra empty line and a final break one trailing empty
   * line, which no caller in this model tells apart from no line at all.
   */
  function SplitLines(s: string): (lines: seq<string>)
    ensures |lines| >= 1
    ensures forall k, i :: 0 <= k < |lines| && 0 <= i < |lines[k]| ==> !IsLineBreak(lines[k][i])
    decreases |s|
  {
    match LineBreakIndex(s)
    case None => [s]
    case Some(i) => [s[..i]] + SplitLines(s[i + 1..])
  }

  /** `s` with its line breaks removed. */
  function WithoutLineBreaks(s: string): string
  {
    if |s| == 0 then ""
    else (if IsLineBreak(s[0]) then "" else [s[0]]) + WithoutLineBreaks(s[1..])
  }

  function Concat(lines: seq<string>): string
  {
    if |lines| == 0 then "" else lines[0] + Concat(lines[1..])
  }

  lemma {:induction false} WithoutLineBreaksAppend(a: string, b: string)
    ensures WithoutLineBreaks(a + b) == WithoutLineBreaks(a) + WithoutLineBreaks(b)
    decreases |a|
  {
    if |a| > 0 {
      assert (a + b)[1..] == a[1..] + b;
      WithoutLineBreaksAppend(a[1..], b);
    } else {
      assert a + b == b;
    }
  }

  /** No break-free prefix loses characters to WithoutLineBreaks. */
  lemma {:induction false} WithoutLineBreaksKeeps(s: string)
    requires forall i :: 0 <= i < |s| ==> !IsLineBreak(s[i])
    ensures WithoutLineBreaks(s) == s
    decreases |s|
  {
    if |s| > 0 {
      WithoutLineBreaksKeeps(s[1..]);
    }
  }

  /**
   * The lines hold every character of `s` except the line breaks, in order.
   */
  lemma {:induction false} SplitLinesKeepsText(s: string)
    ensures Concat(SplitLines(s)) == WithoutLineBreaks(s)
    decreases |s|
  {
    match LineBreakIndex(s)
    case None =>
      WithoutLineBreaksKeeps(s);
      assert Concat([s]) == s + Concat([]);
    case Some(i) =>
      var head, tail := s[..i], s[i + 1..];
      var lines := SplitLines(s);
      assert lines == [head] + SplitLines(tail);
      assert lines[1..] == SplitLines(tail);
      SplitLinesKeepsText(tail);
      WithoutLineBreaksKeeps(head);
      assert s == head + ([s[i]] + tail);
      WithoutLineBreaksAppend(head, [s[i]] + tail);
      assert WithoutLineBreaks([s[i]] + tail) == WithoutLineBreaks(tail) by {
        assert ([s[i]] + tail)[1..] == tail;
      }
      calc {
        Concat(lines);
        head + Concat(SplitLines(tail));
        head + WithoutLineBreaks(tail);
        WithoutLineBreaks(s);
      }
  }

}
